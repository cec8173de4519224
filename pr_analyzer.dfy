/** `PRAnalyzerService`: asks its provider for an analysis and turns any
    failure of the provider into a fixed low-confidence result. The provider
    can be swapped at run time. */
module PRAnalyzer {
  import opened Js
  import opened Errors
  import opened AiProvider

  /** The message taken from whatever the provider threw, by the first case
      that applies: an `Error` gives its `message`, a string itself, an object
      with a `message` property that property, anything else "未知错误". */
  function ErrorMessage(error: Thrown): (m: string)
    ensures IsError(error) ==> m == MessageText(error)
    ensures error.Str? ==> m == error.s
    ensures error.Obj? && error.messageProperty.Some? ==> m == error.messageProperty.value
    ensures error.Other? || error == Obj(None) ==> m == "未知错误"
  {
    match error
    case App(e) => e.message
    case Failure(_, message, _, _) => message
    case Str(s) => s
    case Obj(Some(message)) => message
    case _ => "未知错误"
  }

  /** The result given when the provider fails. */
  function UnavailableFallback(message: string): (out: AnalyzePROutput)
    ensures out.qualityScore == 5 && |out.suggestions| == 1
    ensures out.potentialRisks.Some? && |out.potentialRisks.value| == 1
    ensures out.summary == "分析服务暂时不可用: " + message
  {
    AnalyzePROutput("分析服务暂时不可用: " + message, 5, ["请稍后重试，或联系管理员。"],
                    Some(["AI服务异常，本次分析结果不可用。"]))
  }

  /** What `analyze` makes of the provider's outcome: a result is passed on
      unchanged, a failure becomes the fallback naming the error. */
  function Recover(outcome: Result<AnalyzePROutput, Thrown>): (out: AnalyzePROutput)
    ensures outcome.Ok? ==> out == outcome.value
    ensures outcome.Err? ==> out == UnavailableFallback(ErrorMessage(outcome.error))
  {
    match outcome
    case Ok(result) => result
    case Err(error) => UnavailableFallback(ErrorMessage(error))
  }

  class PRAnalyzerService {
    var provider: Provider

    /** Without a provider, a default Ollama provider. */
    constructor(provider: Option<Provider>)
      ensures provider.Some? ==> this.provider == provider.value
      ensures provider.None? ==> this.provider == Ollama(DefaultBaseUrl)
    {
      this.provider := if provider.Some? then provider.value else NewOllamaProvider(None);
    }

    /** `analyze(params)`: never throws. */
    method Analyze(params: AnalyzePRParams, io: ProviderIO) returns (out: AnalyzePROutput)
      ensures out == Recover(AnalyzePR(provider, params, io))
    {
      var outcome := AnalyzePR(provider, params, io);
      if outcome.Ok? {
        out := outcome.value;
      } else {
        var message := ErrorMessage(outcome.error);
        out := UnavailableFallback(message);
      }
    }

    /** `setProvider(provider)`: later analyses go to the new provider. */
    method SetProvider(provider: Provider)
      modifies this
      ensures this.provider == provider
    {
      this.provider := provider;
    }
  }

  /** The two fallbacks can be told apart by their summaries alone, whatever
      the title or the error message, and by their scores. */
  lemma FallbacksDistinguishable(title: string, message: string)
    ensures UnavailableFallback(message).qualityScore != MalformedFallback(title).qualityScore
    ensures !IsPrefix("初步分析完成：", UnavailableFallback(message).summary)
    ensures !IsPrefix("分析服务暂时不可用: ", MalformedFallback(title).summary)
  {
    assert UnavailableFallback(message).summary[0] == '分';
    assert MalformedFallback(title).summary[0] == '初';
  }

  /** A non-ok Ollama answer reaches the caller as the score-5 result that
      quotes the status text. */
  lemma OllamaErrorScoresFive(baseUrl: string, params: AnalyzePRParams, io: ProviderIO, statusText: string,
                              json: Result<Option<string>, Thrown>)
    requires io.post(baseUrl + "/api/generate", BuildPrompt(params)) == Ok(HttpReply(false, statusText, json))
    ensures Recover(AnalyzePR(Ollama(baseUrl), params, io)) == UnavailableFallback("Ollama API Error: " + statusText)
    ensures Recover(AnalyzePR(Ollama(baseUrl), params, io)).qualityScore == 5
  {
    NonOkStatusThrows(baseUrl, params, io, statusText, json);
  }

  /** An answered request whose text has no `{` reaches the caller as the
      score-7 result naming the title. */
  lemma UnstructuredReplyScoresSeven(baseUrl: string, params: AnalyzePRParams, io: ProviderIO, statusText: string,
                                     text: string)
    requires '{' !in text
    requires io.post(baseUrl + "/api/generate", BuildPrompt(params)) == Ok(HttpReply(true, statusText, Ok(Some(text))))
    ensures Recover(AnalyzePR(Ollama(baseUrl), params, io)) == MalformedFallback(params.title)
  {
    NoBracesGiveScoreSeven(text, params, io.decode);
  }
}
