/** The provider choice of src/recommender/llm_factory.py. The two client
    constructors are parameters that either build a client or raise; the
    settings are the two provider switches of the configuration. */
module LlmFactory {
  import opened Wrappers

  datatype Settings = Settings(useOpenRouter: bool, useOllama: bool)

  /** `USE_OPENROUTER = True`, `USE_OLLAMA = False` in src/config.py. */
  const Configured: Settings := Settings(true, false)

  datatype Provider = OpenRouter | Ollama

  /** What one constructor call does. */
  datatype Construction = Built | Raised(message: string)

  datatype LlmError = ConstructorFailed(provider: Provider, message: string) | UnknownProvider(name: string)

  /** The client `get_llm` returns (or the exception it raises), and the
      constructors it called, in order. */
  datatype Selection = Selection(llm: Result<Provider, LlmError>, attempts: seq<Provider>)

  function Construct(p: Provider, openRouter: Construction, ollama: Construction): Construction {
    if p == OpenRouter then openRouter else ollama
  }

  /** The provider name after the default: None is "auto". */
  function ProviderName(provider: Option<string>): string {
    if provider.None? then "auto" else provider.value
  }

  /** `get_llm`: a first choice, and in "auto" mode a fallback to the other
      provider when its switch is on. */
  function GetLlm(provider: Option<string>, settings: Settings, openRouter: Construction, ollama: Construction): (r: Selection)
    ensures |r.attempts| <= 2
    ensures r.attempts != [Ollama, OpenRouter] && r.attempts != [OpenRouter, OpenRouter] && r.attempts != [Ollama, Ollama]
    ensures r.llm.Success? ==>
              r.attempts != [] && r.llm.value == r.attempts[|r.attempts| - 1]
              && Construct(r.llm.value, openRouter, ollama).Built?
    ensures forall i :: 0 <= i < |r.attempts| - 1 ==> Construct(r.attempts[i], openRouter, ollama).Raised?
    ensures r.llm.Failure? && r.attempts != [] ==>
              var last := r.attempts[|r.attempts| - 1];
              Construct(last, openRouter, ollama).Raised?
              && r.llm.error == ConstructorFailed(last, Construct(last, openRouter, ollama).message)
    ensures var name := ProviderName(provider);
            r.attempts == [] <==>
              !(name == "openrouter" || name == "ollama" || (name == "auto" && (settings.useOpenRouter || settings.useOllama)))
    ensures r.attempts == [] ==> r.llm == Failure(UnknownProvider(ProviderName(provider)))
    ensures ProviderName(provider) == "openrouter" ==> r.attempts == [OpenRouter]
    ensures ProviderName(provider) == "ollama" ==> r.attempts == [Ollama]
    ensures ProviderName(provider) == "auto" && settings.useOpenRouter ==>
              r.attempts == if openRouter.Raised? && settings.useOllama then [OpenRouter, Ollama] else [OpenRouter]
    ensures ProviderName(provider) == "auto" && !settings.useOpenRouter && settings.useOllama ==>
              r.attempts == [Ollama]
  {
    var name := ProviderName(provider);
    if name == "openrouter" || (name == "auto" && settings.useOpenRouter) then
      match openRouter
      case Built => Selection(Success(OpenRouter), [OpenRouter])
      case Raised(e) =>
        if name == "auto" && settings.useOllama then
          match ollama
          case Built => Selection(Success(Ollama), [OpenRouter, Ollama])
          case Raised(e2) => Selection(Failure(ConstructorFailed(Ollama, e2)), [OpenRouter, Ollama])
        else Selection(Failure(ConstructorFailed(OpenRouter, e)), [OpenRouter])
    else if name == "ollama" || (name == "auto" && settings.useOllama) then
      match ollama
      case Built => Selection(Success(Ollama), [Ollama])
      case Raised(e) =>
        if name == "auto" && settings.useOpenRouter then
          match openRouter
          case Built => Selection(Success(OpenRouter), [Ollama, OpenRouter])
          case Raised(e2) => Selection(Failure(ConstructorFailed(OpenRouter, e2)), [Ollama, OpenRouter])
        else Selection(Failure(ConstructorFailed(Ollama, e)), [Ollama])
    else Selection(Failure(UnknownProvider(name)), [])
  }

  /** With the shipped settings, the default provider is OpenRouter alone: its
      failure is raised and Ollama is never tried. */
  lemma ConfiguredDefaultIsOpenRouterOnly(provider: Option<string>, openRouter: Construction, ollama: Construction)
    requires ProviderName(provider) == "auto"
    ensures GetLlm(provider, Configured, openRouter, ollama).attempts == [OpenRouter]
    ensures GetLlm(provider, Configured, openRouter, ollama).llm.Success? <==> openRouter.Built?
  {
  }

  /** `test_llm_connection`: true exactly when a client is obtained and one
      `invoke` on it returns. */
  function TestLlmConnection(provider: Option<string>, settings: Settings, openRouter: Construction,
                             ollama: Construction, invoke: Provider -> Result<string, string>): (ok: bool)
    ensures ok <==> var llm := GetLlm(provider, settings, openRouter, ollama).llm;
                    llm.Success? && invoke(llm.value).Success?
  {
    match GetLlm(provider, settings, openRouter, ollama).llm
    case Failure(_) => false
    case Success(p) => invoke(p).Success?
  }

  /** An unknown provider name always fails the connection test, whatever the
      constructors and the client would do. */
  lemma UnknownProviderFailsTest(provider: Option<string>, settings: Settings, openRouter: Construction,
                                 ollama: Construction, invoke: Provider -> Result<string, string>)
    requires ProviderName(provider) != "openrouter" && ProviderName(provider) != "ollama"
             && ProviderName(provider) != "auto"
    ensures !TestLlmConnection(provider, settings, openRouter, ollama, invoke)
  {
  }
}
