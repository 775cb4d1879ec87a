/**
 * The Anthropic provider (dcx/providers/anthropic.py). The message list is
 * always the single user message, the system prompt is sent on its own, and
 * the text stream is passed through without filtering.
 */
module Anthropic {
  import opened Wrappers
  import opened Config
  import opened Chat

  const DefaultModel: string := "claude-3-opus-20240229"
  const NotConfigured: string := "Error: Anthropic provider not properly configured."

  /** An `AnthropicProvider`: its attributes are all set by `__init__`. */
  datatype Provider = Provider(config: ProviderConfig, model: Value, apiKey: Value, client: Option<Client>)

  /**
   * `AnthropicProvider(config)`. `available` is `ANTHROPIC_AVAILABLE`;
   * `clientBuilds` says whether the SDK's `Anthropic(api_key=...)` returns instead of raising.
   */
  function New(config: ProviderConfig, available: bool, clientBuilds: bool): (p: Provider)
    ensures p.config == config
    ensures "model" !in config ==> p.model == Str(DefaultModel)
    ensures "model" in config ==> p.model == config["model"]
    ensures "api-key" !in config ==> p.apiKey == Null
    ensures "api-key" in config ==> p.apiKey == config["api-key"]
    ensures p.client.Some? <==> available && Truthy(p.apiKey) && clientBuilds
    ensures p.client.Some? ==> p.client.value == Client(p.apiKey, None)
  {
    var apiKey := Get(config, "api-key", Null);
    Provider(config, Get(config, "model", Str(DefaultModel)), apiKey,
      if available && Truthy(apiKey) && clientBuilds then Some(Client(apiKey, None)) else None)
  }

  /** The check `validate_config` fails first, in its order: package, api key, model, client. */
  function Issue(p: Provider, available: bool): (r: Option<ConfigIssue>)
    ensures r == Some(PackageMissing) <==> !available
    ensures r == Some(NoApiKey) <==> available && !Truthy(p.apiKey)
    ensures r == Some(NoModel) <==> available && Truthy(p.apiKey) && !Truthy(p.model)
    ensures r == Some(NoClient) <==> available && Truthy(p.apiKey) && Truthy(p.model) && p.client.None?
  {
    if !available then Some(PackageMissing)
    else if !Truthy(p.apiKey) then Some(NoApiKey)
    else if !Truthy(p.model) then Some(NoModel)
    else if p.client.None? then Some(NoClient)
    else None
  }

  /** `validate_config()`: it passes exactly when the package is there, the key is truthy, the model is truthy and the client exists. */
  function ValidateConfig(p: Provider, available: bool): (r: bool)
    ensures r <==> available && Truthy(p.apiKey) && Truthy(p.model) && p.client.Some?
  {
    Issue(p, available).None?
  }

  /**
   * A freshly built provider is valid exactly when the package is there, the
   * key is truthy, the model (the default when unset) is truthy and the client was built.
   */
  lemma ValidAfterNew(config: ProviderConfig, available: bool, clientBuilds: bool)
    ensures ValidateConfig(New(config, available, clientBuilds), available)
      <==> available && Truthy(Get(config, "api-key", Null)) && clientBuilds
           && ("model" in config ==> Truthy(config["model"]))
  {
  }

  /** The request `get_completion` and `get_completion_stream` send: one user message, the system prompt apart. */
  function RequestFor(p: Provider, prompt: string, systemPrompt: Option<string>): (r: MessagesRequest)
    ensures r.messages == [Message("user", prompt)] && r.system == systemPrompt && r.model == p.model
  {
    MessagesRequest(p.model, [Message("user", prompt)], systemPrompt)
  }

  /** The text of the first content block; "" when there is none. */
  function FirstText(reply: MessagesReply): (r: string)
    ensures reply.MessagesRaised? ==> r == ErrorText(reply.message)
    ensures reply.MessagesReplied? && reply.content == [] ==> r == ""
    ensures reply.MessagesReplied? && reply.content != [] ==> r == reply.content[0]
  {
    match reply
    case MessagesRaised(message) => ErrorText(message)
    case MessagesReplied(content) => if |content| > 0 then content[0] else ""
  }

  /** `get_completion(prompt, system_prompt)`; `backend` maps the request to what the SDK returns or raises. */
  function GetCompletion(p: Provider, available: bool, prompt: string, systemPrompt: Option<string>,
                         backend: MessagesRequest -> MessagesReply): (r: string)
    ensures !ValidateConfig(p, available) ==> r == NotConfigured
    ensures ValidateConfig(p, available) ==> r == FirstText(backend(RequestFor(p, prompt, systemPrompt)))
  {
    if !ValidateConfig(p, available) then NotConfigured
    else FirstText(backend(RequestFor(p, prompt, systemPrompt)))
  }

  /** An invalid provider never consults the backend, and a raising backend becomes an error string. */
  lemma CompletionFailsOpen(p: Provider, available: bool, prompt: string, systemPrompt: Option<string>,
                            b1: MessagesRequest -> MessagesReply, b2: MessagesRequest -> MessagesReply)
    ensures !ValidateConfig(p, available) ==>
      GetCompletion(p, available, prompt, systemPrompt, b1) == GetCompletion(p, available, prompt, systemPrompt, b2)
    ensures ValidateConfig(p, available) && b1(RequestFor(p, prompt, systemPrompt)).MessagesRaised? ==>
      GetCompletion(p, available, prompt, systemPrompt, b1)
        == "Error: " + b1(RequestFor(p, prompt, systemPrompt)).message
  {
  }

  /**
   * The chunks `get_completion_stream` yields: one configuration error chunk
   * when invalid; otherwise every text of the stream unchanged and in order,
   * then one error chunk exactly when the backend raised.
   */
  function StreamChunks(p: Provider, available: bool, prompt: string, systemPrompt: Option<string>,
                        backend: MessagesRequest -> TextStream): (y: seq<string>)
    ensures !ValidateConfig(p, available) ==> y == [NotConfigured]
    ensures var s := backend(RequestFor(p, prompt, systemPrompt));
      ValidateConfig(p, available) ==>
        |y| == |s.texts| + (if s.failure.Some? then 1 else 0) && y[..|s.texts|] == s.texts
    ensures var s := backend(RequestFor(p, prompt, systemPrompt));
      ValidateConfig(p, available) && s.failure.Some? ==> y[|y| - 1] == ErrorText(s.failure.value)
  {
    if !ValidateConfig(p, available) then [NotConfigured]
    else
      var s := backend(RequestFor(p, prompt, systemPrompt));
      s.texts + Trailer(s.failure)
  }

  /** `get_completion_stream(prompt, system_prompt)`, its yields collected in order. */
  method GetCompletionStream(p: Provider, available: bool, prompt: string, systemPrompt: Option<string>,
                             backend: MessagesRequest -> TextStream) returns (yielded: seq<string>)
    ensures yielded == StreamChunks(p, available, prompt, systemPrompt, backend)
  {
    if !ValidateConfig(p, available) {
      return [NotConfigured];
    }
    var messages := [Message("user", prompt)];
    var stream := backend(MessagesRequest(p.model, messages, systemPrompt));
    yielded := [];
    for i := 0 to |stream.texts|
      invariant yielded == stream.texts[..i]
    {
      yielded := yielded + [stream.texts[i]];
    }
    if stream.failure.Some? {
      yielded := yielded + [ErrorText(stream.failure.value)];
    }
  }
}
