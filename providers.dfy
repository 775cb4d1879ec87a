/**
 * Provider dispatch (dcx/providers/__init__.py) and the common interface of
 * the providers (dcx/providers/base.py), as a union over the three kinds.
 */
module Providers {
  import opened Wrappers
  import opened Config
  import opened Chat
  import Text
  import OpenAI
  import Anthropic
  import Gemini

  /** An `LLMProvider`: one of the three implementations. */
  datatype Provider =
    | OpenAIProvider(openai: OpenAI.Provider)
    | AnthropicProvider(anthropic: Anthropic.Provider)
    | GeminiProvider(gemini: Gemini.Provider)

  /** Which SDK packages import: `OPENAI_AVAILABLE` and `ANTHROPIC_AVAILABLE`. */
  datatype Packages = Packages(openai: bool, anthropic: bool)

  /** The backends behind the SDK calls, as functions of the request sent. */
  datatype Backends = Backends(
    chat: ChatRequest -> ChatReply,
    chatStream: ChatRequest -> ChatStream,
    messages: MessagesRequest -> MessagesReply,
    messagesStream: MessagesRequest -> TextStream)

  /** The `provider` entry must be a string: `.lower()` is called on it. */
  predicate ProviderIsString(config: ProviderConfig)
  {
    "provider" in config ==> config["provider"].Str?
  }

  /** `config.get("provider", "").lower()`. */
  function ProviderName(config: ProviderConfig): (r: string)
    requires ProviderIsString(config)
    ensures "provider" !in config ==> r == ""
    ensures "provider" in config ==>
      |r| == |config["provider"].s| && forall i :: 0 <= i < |r| ==> r[i] == Text.LowerChar(config["provider"].s[i])
  {
    if "provider" in config then Text.Lower(config["provider"].s) else ""
  }

  /**
   * `get_provider(name, config)`: only "openai", in any case and with the
   * package importable, yields a provider, built from the same config.
   * `clientBuilds` says whether the SDK client constructor succeeds.
   */
  function GetProvider(name: string, config: ProviderConfig, packages: Packages, clientBuilds: bool): (r: Option<Provider>)
    requires ProviderIsString(config)
    ensures r.Some? <==> ProviderName(config) == "openai" && packages.openai
    ensures r.Some? ==> r.value == OpenAIProvider(OpenAI.New(config, packages.openai, clientBuilds))
  {
    var providerName := ProviderName(config);
    if providerName == "openai" then
      if !packages.openai then None else Some(OpenAIProvider(OpenAI.New(config, packages.openai, clientBuilds)))
    else None
  }

  /** The dispatch ignores `name`, and every provider string other than "openai" yields None, "anthropic" and "gemini" included. */
  lemma DispatchOnlyOpenAI(name1: string, name2: string, config: ProviderConfig, packages: Packages, clientBuilds: bool)
    requires ProviderIsString(config)
    ensures GetProvider(name1, config, packages, clientBuilds) == GetProvider(name2, config, packages, clientBuilds)
    ensures ProviderName(config) in {"anthropic", "gemini", "unsupported", ""} ==> GetProvider(name1, config, packages, clientBuilds).None?
  {
  }

  /** "OpenAI" dispatches like "openai": the comparison is after lowercasing. */
  lemma DispatchIgnoresCase(config: ProviderConfig, packages: Packages, clientBuilds: bool)
    requires "provider" in config && config["provider"] == Str("OpenAI") && packages.openai
    ensures GetProvider("test_model", config, packages, clientBuilds).Some?
  {
    LowerOpenAI();
  }

  lemma LowerOpenAI()
    ensures Text.Lower("OpenAI") == "openai"
  {
    var s := "OpenAI";
    assert Text.Lower(s) == [Text.LowerChar('O')] + Text.Lower(s[1..]);
  }

  /** The error text each provider returns, and yields, when it is not properly configured. */
  function NotConfiguredText(p: Provider): string
  {
    match p
    case OpenAIProvider(_) => OpenAI.NotConfigured
    case AnthropicProvider(_) => Anthropic.NotConfigured
    case GeminiProvider(_) => Gemini.NotConfigured
  }

  /**
   * `provider.validate_config()`: the SDK package the provider uses is there
   * (the Gemini provider uses the OpenAI one), the key is truthy, the model
   * is truthy where the provider checks it, and the client exists.
   */
  function ValidateConfig(p: Provider, packages: Packages): (r: bool)
    ensures p.OpenAIProvider? ==> (r <==> packages.openai && Truthy(p.openai.apiKey) && p.openai.client.Some?)
    ensures p.AnthropicProvider? ==>
      (r <==> packages.anthropic && Truthy(p.anthropic.apiKey) && Truthy(p.anthropic.model) && p.anthropic.client.Some?)
    ensures p.GeminiProvider? ==>
      (r <==> packages.openai && Truthy(p.gemini.apiKey) && Truthy(p.gemini.model) && p.gemini.client.Some?)
  {
    match p
    case OpenAIProvider(q) => OpenAI.ValidateConfig(q, packages.openai)
    case AnthropicProvider(q) => Anthropic.ValidateConfig(q, packages.anthropic)
    case GeminiProvider(q) => Gemini.ValidateConfig(q, packages.openai)
  }

  /**
   * `provider.get_completion(prompt, system_prompt)`: the provider's error text
   * when it is not configured, otherwise the text of the reply its own backend
   * gives to its own request.
   */
  function GetCompletion(p: Provider, packages: Packages, prompt: string, systemPrompt: Option<string>, b: Backends): (r: string)
    ensures !ValidateConfig(p, packages) ==> r == NotConfiguredText(p)
    ensures ValidateConfig(p, packages) && p.OpenAIProvider? ==>
      r == FirstContent(b.chat(OpenAI.RequestFor(p.openai, prompt, systemPrompt)))
    ensures ValidateConfig(p, packages) && p.AnthropicProvider? ==>
      r == Anthropic.FirstText(b.messages(Anthropic.RequestFor(p.anthropic, prompt, systemPrompt)))
    ensures ValidateConfig(p, packages) && p.GeminiProvider? ==>
      r == FirstContent(b.chat(Gemini.RequestFor(p.gemini, prompt, systemPrompt)))
  {
    match p
    case OpenAIProvider(q) => OpenAI.GetCompletion(q, packages.openai, prompt, systemPrompt, b.chat)
    case AnthropicProvider(q) => Anthropic.GetCompletion(q, packages.anthropic, prompt, systemPrompt, b.messages)
    case GeminiProvider(q) => Gemini.GetCompletion(q, packages.openai, prompt, systemPrompt, b.chat)
  }

  /**
   * The chunks `provider.get_completion_stream(prompt, system_prompt)` yields:
   * the provider's error text alone when it is not configured, otherwise
   * what its own backend streams for its own request.
   */
  function StreamChunks(p: Provider, packages: Packages, prompt: string, systemPrompt: Option<string>, b: Backends): (y: seq<string>)
    ensures !ValidateConfig(p, packages) ==> y == [NotConfiguredText(p)]
    ensures ValidateConfig(p, packages) && p.OpenAIProvider? ==>
      y == StreamYields(b.chatStream(OpenAI.RequestFor(p.openai, prompt, systemPrompt)))
    ensures ValidateConfig(p, packages) && p.AnthropicProvider? ==>
      var s := b.messagesStream(Anthropic.RequestFor(p.anthropic, prompt, systemPrompt));
      y == s.texts + Trailer(s.failure)
    ensures ValidateConfig(p, packages) && p.GeminiProvider? ==>
      y == StreamYields(b.chatStream(Gemini.RequestFor(p.gemini, prompt, systemPrompt)))
  {
    match p
    case OpenAIProvider(q) => OpenAI.StreamChunks(q, packages.openai, prompt, systemPrompt, b.chatStream)
    case AnthropicProvider(q) => Anthropic.StreamChunks(q, packages.anthropic, prompt, systemPrompt, b.messagesStream)
    case GeminiProvider(q) => Gemini.StreamChunks(q, packages.openai, prompt, systemPrompt, b.chatStream)
  }

  /** `provider.get_completion_stream(prompt, system_prompt)`, its yields collected in order. */
  method GetCompletionStream(p: Provider, packages: Packages, prompt: string, systemPrompt: Option<string>, b: Backends)
    returns (yielded: seq<string>)
    ensures yielded == StreamChunks(p, packages, prompt, systemPrompt, b)
  {
    match p
    case OpenAIProvider(q) =>
      yielded := OpenAI.GetCompletionStream(q, packages.openai, prompt, systemPrompt, b.chatStream);
    case AnthropicProvider(q) =>
      yielded := Anthropic.GetCompletionStream(q, packages.anthropic, prompt, systemPrompt, b.messagesStream);
    case GeminiProvider(q) =>
      yielded := Gemini.GetCompletionStream(q, packages.openai, prompt, systemPrompt, b.chatStream);
  }
}
