/**
 * The OpenAI provider (dcx/providers/openai.py). The SDK is abstract: the
 * client constructor either succeeds or raises, and the backend is a function
 * from the request sent to the reply or stream it produces.
 */
module OpenAI {
  import opened Wrappers
  import opened Config
  import opened Chat

  const DefaultModel: string := "gpt-4"
  const NotConfigured: string := "Error: OpenAI provider not properly configured."

  /** An `OpenAIProvider`: its attributes are all set by `__init__`. */
  datatype Provider = Provider(config: ProviderConfig, model: Value, apiKey: Value, client: Option<Client>)

  /**
   * `OpenAIProvider(config)`. `available` is `OPENAI_AVAILABLE`; `clientBuilds`
   * says whether the SDK's `OpenAI(api_key=...)` returns instead of raising.
   */
  function New(config: ProviderConfig, available: bool, clientBuilds: bool): (p: Provider)
    ensures p.config == config
    ensures "model" !in config ==> p.model == Str(DefaultModel)
    ensures "model" in config ==> p.model == config["model"]
    ensures "api-key" !in config ==> p.apiKey == Null
    ensures "api-key" in config ==> p.apiKey == config["api-key"]
    ensures p.client.Some? <==> available && Truthy(p.apiKey) && clientBuilds
    ensures p.client.Some? ==> p.client.value == Client(p.apiKey, None)
  {
    var apiKey := Get(config, "api-key", Null);
    Provider(config, Get(config, "model", Str(DefaultModel)), apiKey,
      if available && Truthy(apiKey) && clientBuilds then Some(Client(apiKey, None)) else None)
  }

  /** The check `validate_config` fails first, in its order: package, api key, client. The model is not checked. */
  function Issue(p: Provider, available: bool): (r: Option<ConfigIssue>)
    ensures r == Some(PackageMissing) <==> !available
    ensures r == Some(NoApiKey) <==> available && !Truthy(p.apiKey)
    ensures r == Some(NoClient) <==> available && Truthy(p.apiKey) && p.client.None?
    ensures r != Some(NoModel)
  {
    if !available then Some(PackageMissing)
    else if !Truthy(p.apiKey) then Some(NoApiKey)
    else if p.client.None? then Some(NoClient)
    else None
  }

  /** `validate_config()`: it passes exactly when the package is there, the key is truthy and the client exists. */
  function ValidateConfig(p: Provider, available: bool): (r: bool)
    ensures r <==> available && Truthy(p.apiKey) && p.client.Some?
  {
    Issue(p, available).None?
  }

  /** A freshly built provider is valid exactly when the package is there, the key is truthy and the client was built; the model plays no part. */
  lemma ValidAfterNew(config: ProviderConfig, available: bool, clientBuilds: bool, model: Value)
    ensures ValidateConfig(New(config, available, clientBuilds), available)
      <==> available && Truthy(Get(config, "api-key", Null)) && clientBuilds
    ensures ValidateConfig(New(config[("model") := model], available, clientBuilds), available)
      == ValidateConfig(New(config, available, clientBuilds), available)
  {
    assert Get(config[("model") := model], "api-key", Null) == Get(config, "api-key", Null);
  }

  /** `_create_messages(prompt, system_prompt)`. */
  method CreateMessages(prompt: string, systemPrompt: Option<string>) returns (messages: seq<Message>)
    ensures messages == ChatMessages(prompt, systemPrompt)
  {
    messages := [];
    if Given(systemPrompt) {
      messages := messages + [Message("system", systemPrompt.value)];
    }
    messages := messages + [Message("user", prompt)];
  }

  /** The request `get_completion` and `get_completion_stream` send. */
  function RequestFor(p: Provider, prompt: string, systemPrompt: Option<string>): ChatRequest
  {
    ChatRequest(p.model, ChatMessages(prompt, systemPrompt))
  }

  /** `get_completion(prompt, system_prompt)`; `backend` maps the request to what the SDK returns or raises. */
  function GetCompletion(p: Provider, available: bool, prompt: string, systemPrompt: Option<string>,
                         backend: ChatRequest -> ChatReply): (r: string)
    ensures !ValidateConfig(p, available) ==> r == NotConfigured
    ensures ValidateConfig(p, available) ==> r == FirstContent(backend(RequestFor(p, prompt, systemPrompt)))
  {
    if !ValidateConfig(p, available) then NotConfigured
    else FirstContent(backend(RequestFor(p, prompt, systemPrompt)))
  }

  /** An invalid provider never consults the backend, and a raising backend becomes an error string. */
  lemma CompletionFailsOpen(p: Provider, available: bool, prompt: string, systemPrompt: Option<string>,
                            b1: ChatRequest -> ChatReply, b2: ChatRequest -> ChatReply)
    ensures !ValidateConfig(p, available) ==>
      GetCompletion(p, available, prompt, systemPrompt, b1) == GetCompletion(p, available, prompt, systemPrompt, b2)
    ensures ValidateConfig(p, available) && b1(RequestFor(p, prompt, systemPrompt)).ChatRaised? ==>
      GetCompletion(p, available, prompt, systemPrompt, b1)
        == "Error: " + b1(RequestFor(p, prompt, systemPrompt)).message
  {
  }

  /**
   * The chunks `get_completion_stream` yields: one configuration error chunk
   * when invalid; otherwise non-empty deltas, then one error chunk exactly
   * when the backend raised.
   */
  function StreamChunks(p: Provider, available: bool, prompt: string, systemPrompt: Option<string>,
                        backend: ChatRequest -> ChatStream): (y: seq<string>)
    ensures !ValidateConfig(p, available) ==> y == [NotConfigured]
    ensures var s := backend(RequestFor(p, prompt, systemPrompt));
      ValidateConfig(p, available) && s.failure.None? ==> forall t :: t in y ==> t != ""
    ensures var s := backend(RequestFor(p, prompt, systemPrompt));
      ValidateConfig(p, available) && s.failure.Some? ==>
        |y| > 0 && y[|y| - 1] == ErrorText(s.failure.value) && forall i :: 0 <= i < |y| - 1 ==> y[i] != ""
  {
    if !ValidateConfig(p, available) then [NotConfigured]
    else StreamYields(backend(RequestFor(p, prompt, systemPrompt)))
  }

  /** `get_completion_stream(prompt, system_prompt)`, its yields collected in order. */
  method GetCompletionStream(p: Provider, available: bool, prompt: string, systemPrompt: Option<string>,
                             backend: ChatRequest -> ChatStream) returns (yielded: seq<string>)
    ensures yielded == StreamChunks(p, available, prompt, systemPrompt, backend)
  {
    if !ValidateConfig(p, available) {
      return [NotConfigured];
    }
    var messages := CreateMessages(prompt, systemPrompt);
    var response := backend(ChatRequest(p.model, messages));
    yielded := CollectStream(response);
  }

  /** Three chunks with content stream as `["Hello", " world", "!"]`. */
  lemma StreamExample(p: Provider, available: bool, systemPrompt: Option<string>)
    requires ValidateConfig(p, available)
    ensures StreamChunks(p, available, "Test prompt", systemPrompt,
      _ => ChatStream([[Some("Hello")], [Some(" world")], [Some("!")]], None)) == ["Hello", " world", "!"]
  {
    ThreeChunkStream();
  }
}
