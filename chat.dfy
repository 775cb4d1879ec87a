/**
 * What the three providers (the modules under dcx/providers) share: the provider
 * configuration dictionary, Python truthiness of its values, chat messages,
 * the backend responses seen through the SDKs, and the fail-open error text.
 */
module Chat {
  import opened Wrappers
  import opened Config
  import Text

  /** One entry of the `Models` section: a dictionary from setting names to parsed values. */
  type ProviderConfig = map<string, Value>

  /** `config.get(key, default)`. */
  function Get(config: ProviderConfig, key: string, default: Value): Value
  {
    if key in config then config[key] else default
  }

  /** Python truthiness of a parsed value: `None`, `False`, `0` and empty strings, lists and dicts are false. */
  predicate Truthy(v: Value)
  {
    match v
    case Null => false
    case Bool(b) => b
    case Int(i) => i != 0
    case Str(s) => s != ""
    case List(items) => items != []
    case Dict(fields) => fields != map[]
  }

  /** Truthiness of an optional `str` argument such as `system_prompt`. */
  predicate Given(s: Option<string>)
  {
    s.Some? && s.value != ""
  }

  /** An SDK client object; `baseUrl` is None when the SDK's default endpoint is used. */
  datatype Client = Client(apiKey: Value, baseUrl: Option<string>)

  /** The first failing check of `validate_config`, in the order the providers run them. */
  datatype ConfigIssue = PackageMissing | NoApiKey | NoModel | NoClient

  /** A `{"role": ..., "content": ...}` entry of the message list. */
  datatype Message = Message(role: string, content: string)

  /** The message list of the OpenAI-compatible providers: the system entry only when a system prompt is given, the user entry last. */
  function ChatMessages(prompt: string, systemPrompt: Option<string>): (r: seq<Message>)
    ensures |r| == (if Given(systemPrompt) then 2 else 1)
    ensures r[|r| - 1] == Message("user", prompt)
    ensures forall i :: 0 <= i < |r| - 1 ==> r[i] == Message("system", systemPrompt.value)
  {
    (if Given(systemPrompt) then [Message("system", systemPrompt.value)] else []) + [Message("user", prompt)]
  }

  /** What the fail-open paths return or yield for an exception with message `message`. */
  function ErrorText(message: string): (r: string)
    ensures |r| == |message| + 7 && r[..7] == "Error: " && r[7..] == message
  {
    "Error: " + message
  }

  /** `str(IndexError)` for `choices[0]` on an empty list. */
  const IndexOutOfRange: string := "list index out of range"

  /** A `chat.completions.create` request. */
  datatype ChatRequest = ChatRequest(model: Value, messages: seq<Message>)

  /** The outcome of a non-streaming chat request: an exception, or the `message.content` of each choice. */
  datatype ChatReply = ChatRaised(message: string) | ChatReplied(choices: seq<Option<string>>)

  /** One streamed chunk: the `delta.content` of each of its choices. */
  type ChatChunk = seq<Option<string>>

  /** The outcome of a streaming request: the chunks delivered, then possibly an exception. */
  datatype ChatStream = ChatStream(chunks: seq<ChatChunk>, failure: Option<string>)

  /** `choices[0].message.content or ""`, with the `IndexError` of an empty choice list. */
  function FirstContent(reply: ChatReply): (r: string)
    ensures reply.ChatRaised? ==> r == ErrorText(reply.message)
    ensures reply.ChatReplied? && reply.choices == [] ==> r == ErrorText(IndexOutOfRange)
    ensures reply.ChatReplied? && reply.choices != [] && reply.choices[0].Some? ==> r == reply.choices[0].value
    ensures reply.ChatReplied? && reply.choices != [] && reply.choices[0].None? ==> r == ""
  {
    match reply
    case ChatRaised(message) => ErrorText(message)
    case ChatReplied(choices) =>
      if |choices| == 0 then ErrorText(IndexOutOfRange)
      else if choices[0].Some? then choices[0].value else ""
  }

  /** The filter of the streaming loop: the chunk has a choice whose delta content is non-empty. */
  predicate Yields(chunk: ChatChunk)
  {
    |chunk| > 0 && chunk[0].Some? && chunk[0].value != ""
  }

  /** The delta content of a chunk's first choice; "" when it has none. */
  function Delta(chunk: ChatChunk): string
  {
    if |chunk| > 0 && chunk[0].Some? then chunk[0].value else ""
  }

  /** The texts the streaming loop yields for `chunks`, in order. */
  function Deltas(chunks: seq<ChatChunk>): seq<string>
  {
    if |chunks| == 0 then []
    else Deltas(chunks[..|chunks| - 1]) + (if Yields(chunks[|chunks| - 1]) then [Delta(chunks[|chunks| - 1])] else [])
  }

  /** The yielded texts are non-empty, at most one per chunk, and each is some chunk's delta. */
  lemma {:induction false} DeltasShape(chunks: seq<ChatChunk>)
    ensures |Deltas(chunks)| <= |chunks|
    ensures forall t :: t in Deltas(chunks) ==> t != "" && exists i :: 0 <= i < |chunks| && Yields(chunks[i]) && t == Delta(chunks[i])
  {
    if |chunks| > 0 {
      var init := chunks[..|chunks| - 1];
      DeltasShape(init);
      forall t | t in Deltas(chunks)
        ensures t != "" && exists i :: 0 <= i < |chunks| && Yields(chunks[i]) && t == Delta(chunks[i])
      {
        if t in Deltas(init) {
          var i :| 0 <= i < |init| && Yields(init[i]) && t == Delta(init[i]);
          assert chunks[i] == init[i];
        } else {
          assert Yields(chunks[|chunks| - 1]) && t == Delta(chunks[|chunks| - 1]);
        }
      }
    }
  }

  /** Filtering loses no text: the yielded texts spell every chunk's delta in order. */
  lemma {:induction false} DeltasSpellStream(chunks: seq<ChatChunk>)
    ensures Text.Concat(Deltas(chunks)) == Text.Concat(seq(|chunks|, i requires 0 <= i < |chunks| => Delta(chunks[i])))
  {
    var all := seq(|chunks|, i requires 0 <= i < |chunks| => Delta(chunks[i]));
    if |chunks| > 0 {
      var init := chunks[..|chunks| - 1];
      var last := chunks[|chunks| - 1];
      DeltasSpellStream(init);
      var allInit := seq(|init|, i requires 0 <= i < |init| => Delta(init[i]));
      assert all[..|all| - 1] == allInit;
      var kept := if Yields(last) then [Delta(last)] else [];
      Text.ConcatAppend(Deltas(init), kept);
      if !Yields(last) {
        assert Delta(last) == "";
        assert Text.Concat(kept) == "";
      } else {
        assert Text.Concat(kept) == Text.Concat([]) + Delta(last);
      }
    }
  }

  /**
   * What a chat stream yields: the non-empty deltas in order, then one error
   * chunk exactly when the backend raised part-way.
   */
  function StreamYields(s: ChatStream): (y: seq<string>)
    ensures s.failure.None? ==> forall t :: t in y ==> t != ""
    ensures s.failure.Some? ==> |y| > 0 && y[|y| - 1] == ErrorText(s.failure.value)
    ensures s.failure.Some? ==> forall i :: 0 <= i < |y| - 1 ==> y[i] != ""
  {
    DeltasShape(s.chunks);
    NonEmptyPrefix(Deltas(s.chunks), Trailer(s.failure));
    Deltas(s.chunks) + Trailer(s.failure)
  }

  lemma NonEmptyPrefix(d: seq<string>, tail: seq<string>)
    requires forall t :: t in d ==> t != ""
    ensures forall i :: 0 <= i < |d| ==> (d + tail)[i] != ""
  {
    forall i | 0 <= i < |d| ensures (d + tail)[i] != "" {
      assert (d + tail)[i] == d[i] && d[i] in d;
    }
  }

  /** Three chunks with content, and no exception, yield their three texts. */
  lemma ThreeChunkStream()
    ensures StreamYields(ChatStream([[Some("Hello")], [Some(" world")], [Some("!")]], None)) == ["Hello", " world", "!"]
  {
    var c: seq<ChatChunk> := [[Some("Hello")], [Some(" world")], [Some("!")]];
    assert Deltas(c[..1]) == ["Hello"] by { assert c[..1][..0] == []; }
    assert Deltas(c[..2]) == ["Hello", " world"] by { assert c[..2][..1] == c[..1]; }
    assert Deltas(c) == ["Hello", " world", "!"] by { assert c[..2] == c[..|c| - 1]; }
  }

  /** The streaming loop of the OpenAI-compatible providers, its yields collected in order. */
  method CollectStream(response: ChatStream) returns (yielded: seq<string>)
    ensures yielded == StreamYields(response)
  {
    yielded := [];
    for i := 0 to |response.chunks|
      invariant yielded == Deltas(response.chunks[..i])
    {
      var chunk := response.chunks[i];
      assert response.chunks[..i + 1][..i] == response.chunks[..i];
      if |chunk| > 0 && chunk[0].Some? && chunk[0].value != "" {
        yielded := yielded + [chunk[0].value];
      }
    }
    assert response.chunks[..|response.chunks|] == response.chunks;
    if response.failure.Some? {
      yielded := yielded + [ErrorText(response.failure.value)];
    }
  }

  /** An Anthropic `messages.create` or `messages.stream` request: the system prompt travels apart from the messages. */
  datatype MessagesRequest = MessagesRequest(model: Value, messages: seq<Message>, system: Option<string>)

  /** The outcome of a non-streaming Anthropic request: an exception, or the text of each content block. */
  datatype MessagesReply = MessagesRaised(message: string) | MessagesReplied(content: seq<string>)

  /** The outcome of an Anthropic stream: the elements of `text_stream`, then possibly an exception. */
  datatype TextStream = TextStream(texts: seq<string>, failure: Option<string>)

  /** The chunks a stream yields after its deliveries: one trailing error chunk when the backend raised. */
  function Trailer(failure: Option<string>): (r: seq<string>)
    ensures failure.None? <==> r == []
    ensures failure.Some? ==> r == [ErrorText(failure.value)]
  {
    if failure.Some? then [ErrorText(failure.value)] else []
  }
}
