/** The AI package's provider side: the request and result records, the
    provider interface with its Ollama implementation, the prompt it sends and
    how it reads the model's reply. */
module AiProvider {
  import opened Js
  import opened Errors

  /** `AnalyzePRParams`: `description` and `author` are optional. */
  datatype AnalyzePRParams = AnalyzePRParams(title: string, description: Option<string>, diff: string, author: Option<string>)

  /** `AnalyzePROutput`: the score is meant to lie in 1..10, which nothing
      enforces; `potentialRisks` is optional. */
  datatype AnalyzePROutput = AnalyzePROutput(summary: string, qualityScore: int, suggestions: seq<string>,
                                             potentialRisks: Option<seq<string>>)

  /** The providers behind `BaseAIProvider`: the Ollama provider with its base
      URL, or another implementation known only by its behaviour. */
  datatype Provider = Ollama(baseUrl: string) | External(name: string)

  const DefaultBaseUrl: string := "http://localhost:11434"

  /** `new OllamaProvider(baseUrl?)`: the default applies only when the
      argument is left out. */
  function NewOllamaProvider(baseUrl: Option<string>): (p: Provider)
    ensures p.Ollama?
    ensures baseUrl.None? ==> p.baseUrl == DefaultBaseUrl
    ensures baseUrl.Some? ==> p.baseUrl == baseUrl.value
  {
    match baseUrl
    case None => Ollama(DefaultBaseUrl)
    case Some(u) => Ollama(u)
  }

  // ---------------------------------------------------------------------------
  // The prompt

  const PromptHead: string := "你是一个经验丰富的开源项目维护者，请对以下 GitHub Pull Request 进行专业分析：\n\n"

  const PromptTail: string :=
    "\n\n请严格按以下 JSON 格式输出你的分析结果，不要包含任何其他解释：\n{\n"
    + "  \"summary\": \"这里写一段简明扼要的总结，说明这个PR主要做了什么。\",\n"
    + "  \"qualityScore\": 一个1到10的整数分数,\n"
    + "  \"suggestions\": [\"第一条具体的改进建议\", \"第二条建议\"],\n"
    + "  \"potentialRisks\": [\"可能存在的风险一\", \"风险二\"]\n}"

  const DiffLabel: string := "**代码变更 (diff):**\n"

  function TitleLine(p: AnalyzePRParams): string {
    "**PR 标题:** " + p.title + "\n"
  }

  function DescriptionLine(p: AnalyzePRParams): string {
    "**PR 描述:** " + Or(p.description, "无") + "\n"
  }

  function AuthorLine(p: AnalyzePRParams): string {
    "**提交者:** " + Or(p.author, "未知") + "\n"
  }

  function FencedDiff(p: AnalyzePRParams): string {
    "```diff\n" + p.diff + "\n```"
  }

  /** `buildPrompt`: the fixed instructions, the title, the description or
      "无", the author or "未知", the diff in a `diff` fence, then the JSON
      layout the model is asked to answer in. */
  function BuildPrompt(p: AnalyzePRParams): (prompt: string)
    ensures IsInfix(TitleLine(p), prompt) && IsInfix(DescriptionLine(p), prompt)
    ensures IsInfix(AuthorLine(p), prompt) && IsInfix(FencedDiff(p), prompt)
  {
    InnerPieces(PromptHead, TitleLine(p), DescriptionLine(p), AuthorLine(p), DiffLabel, FencedDiff(p), PromptTail);
    PromptHead + TitleLine(p) + DescriptionLine(p) + AuthorLine(p) + DiffLabel + FencedDiff(p) + PromptTail
  }

  /** Each inner piece of a seven-piece concatenation occurs in it. */
  lemma InnerPieces(x0: string, x1: string, x2: string, x3: string, x4: string, x5: string, x6: string)
    ensures var s := x0 + x1 + x2 + x3 + x4 + x5 + x6;
            IsInfix(x1, s) && IsInfix(x2, s) && IsInfix(x3, s) && IsInfix(x5, s)
  {
    var s := x0 + x1 + x2 + x3 + x4 + x5 + x6;
    assert s == x0 + x1 + (x2 + x3 + x4 + x5 + x6);
    InfixOfConcat(x0, x1, x2 + x3 + x4 + x5 + x6);
    assert s == (x0 + x1) + x2 + (x3 + x4 + x5 + x6);
    InfixOfConcat(x0 + x1, x2, x3 + x4 + x5 + x6);
    assert s == (x0 + x1 + x2) + x3 + (x4 + x5 + x6);
    InfixOfConcat(x0 + x1 + x2, x3, x4 + x5 + x6);
    assert s == (x0 + x1 + x2 + x3 + x4) + x5 + x6;
    InfixOfConcat(x0 + x1 + x2 + x3 + x4, x5, x6);
  }

  /** A missing or empty description is shown as "无", a missing or empty
      author as "未知". */
  lemma PromptDefaults(p: AnalyzePRParams)
    ensures p.description.None? || p.description == Some("") ==> DescriptionLine(p) == "**PR 描述:** 无\n"
    ensures p.author.None? || p.author == Some("") ==> AuthorLine(p) == "**提交者:** 未知\n"
    ensures p.description.Some? && p.description.value != "" ==> DescriptionLine(p) == "**PR 描述:** " + p.description.value + "\n"
    ensures p.author.Some? && p.author.value != "" ==> AuthorLine(p) == "**提交者:** " + p.author.value + "\n"
  {
  }

  // ---------------------------------------------------------------------------
  // Reading the reply

  /** Position of the first occurrence of `c` at or after `from`. */
  function IndexFrom(s: string, c: char, from: nat): (r: Option<nat>)
    requires from <= |s|
    ensures r.None? <==> forall j :: from <= j < |s| ==> s[j] != c
    ensures r.Some? ==> from <= r.value < |s| && s[r.value] == c
    ensures r.Some? ==> forall j :: from <= j < r.value ==> s[j] != c
    decreases |s| - from
  {
    if from == |s| then None
    else if s[from] == c then Some(from)
    else IndexFrom(s, c, from + 1)
  }

  /** Position of the last occurrence of `c` before `upto`. */
  function IndexBelow(s: string, c: char, upto: nat): (r: Option<nat>)
    requires upto <= |s|
    ensures r.None? <==> forall j :: 0 <= j < upto ==> s[j] != c
    ensures r.Some? ==> r.value < upto && s[r.value] == c
    ensures r.Some? ==> forall j :: r.value < j < upto ==> s[j] != c
  {
    if upto == 0 then None
    else if s[upto - 1] == c then Some(upto - 1)
    else IndexBelow(s, c, upto - 1)
  }

  /** Position of the first occurrence of `c`. */
  function FirstIndex(s: string, c: char): (r: Option<nat>)
    ensures r.None? <==> c !in s
    ensures r.Some? ==> r.value < |s| && s[r.value] == c
    ensures r.Some? ==> forall j :: 0 <= j < r.value ==> s[j] != c
  {
    IndexFrom(s, c, 0)
  }

  lemma FirstIndexAt(s: string, c: char, i: nat)
    requires i < |s| && s[i] == c
    requires forall j :: 0 <= j < i ==> s[j] != c
    ensures FirstIndex(s, c) == Some(i)
  {
  }

  /** Position of the last occurrence of `c`. */
  function LastIndex(s: string, c: char): (r: Option<nat>)
    ensures r.None? <==> c !in s
    ensures r.Some? ==> r.value < |s| && s[r.value] == c
    ensures r.Some? ==> forall j :: r.value < j < |s| ==> s[j] != c
  {
    IndexBelow(s, c, |s|)
  }

  lemma LastIndexAt(s: string, c: char, i: nat)
    requires i < |s| && s[i] == c
    requires forall j :: i < j < |s| ==> s[j] != c
    ensures LastIndex(s, c) == Some(i)
  {
  }

  /** `text.match(/\{[\s\S]*\}/)`: the leftmost match starts at the first `{`
      that has a `}` somewhere after it, which is the first `{` if any is, and
      `[\s\S]*` is greedy, so it ends at the last `}`. There is a match exactly
      when some `{` comes before some `}`. */
  function ExtractJsonSpan(text: string): (span: Option<string>)
    ensures span.Some? <==> exists i, k :: 0 <= i < k < |text| && text[i] == '{' && text[k] == '}'
    ensures span.Some? ==> |span.value| >= 2 && span.value[0] == '{' && span.value[|span.value| - 1] == '}'
  {
    var first := FirstIndex(text, '{');
    var last := LastIndex(text, '}');
    if first.Some? && last.Some? && first.value < last.value then
      Some(text[first.value..last.value + 1])
    else
      assert forall i, k :: 0 <= i < k < |text| && text[i] == '{' ==> text[k] != '}' by {
        forall i, k | 0 <= i < k < |text| && text[i] == '{'
          ensures text[k] != '}'
        {
          assert first.Some? && first.value <= i;
        }
      }
      None
  }

  /** The span runs from the `{` after a brace-free lead to the `}` before a
      closing-brace-free tail, whatever lies between: with two objects in the
      reply, the span holds both and the text between them. */
  lemma SpanOfWrapped(lead: string, body: string, tail: string)
    requires '{' !in lead && '}' !in tail
    ensures ExtractJsonSpan(lead + "{" + body + "}" + tail) == Some("{" + body + "}")
  {
    var text := lead + "{" + body + "}" + tail;
    WrappedFirstBrace(lead, body, tail);
    WrappedLastBrace(lead, body, tail);
    assert text[|lead|..|lead| + 1 + |body| + 1] == "{" + body + "}";
  }

  lemma WrappedFirstBrace(lead: string, body: string, tail: string)
    requires '{' !in lead
    ensures FirstIndex(lead + "{" + body + "}" + tail, '{') == Some(|lead|)
  {
    var text := lead + "{" + body + "}" + tail;
    assert text[|lead|] == '{';
    assert forall j :: 0 <= j < |lead| ==> text[j] == lead[j];
    FirstIndexAt(text, '{', |lead|);
  }

  lemma WrappedLastBrace(lead: string, body: string, tail: string)
    requires '}' !in tail
    ensures LastIndex(lead + "{" + body + "}" + tail, '}') == Some(|lead| + 1 + |body|)
  {
    LastIndexBeforeTail(lead + "{" + body + "}", tail, '}');
  }

  lemma LastIndexBeforeTail(pre: string, tail: string, c: char)
    requires |pre| > 0 && pre[|pre| - 1] == c && c !in tail
    ensures LastIndex(pre + tail, c) == Some(|pre| - 1)
  {
    var s := pre + tail;
    forall j | |pre| - 1 < j < |s|
      ensures s[j] != c
    {
      assert s[j] == tail[j - |pre|];
    }
    LastIndexAt(s, c, |pre| - 1);
  }

  /** The fallback for a reply without a usable JSON object. */
  function MalformedFallback(title: string): (out: AnalyzePROutput)
    ensures out.qualityScore == 7 && |out.suggestions| == 1
    ensures out.potentialRisks.Some? && |out.potentialRisks.value| == 1
    ensures out.summary == "初步分析完成：" + title
  {
    AnalyzePROutput("初步分析完成：" + title, 7, ["AI返回格式异常，请检查提示词或模型。"],
                    Some(["解析失败，分析结果可能不完整。"]))
  }

  /** `parseResponse(text, params)`: `decode` stands for `JSON.parse`, `None`
      when it throws. A missing reply text makes `text.match` throw, which the
      same `catch` turns into the fallback; so the function never throws. */
  function ParseResponse(text: Option<string>, p: AnalyzePRParams, decode: string -> Option<AnalyzePROutput>): (out: AnalyzePROutput)
    ensures (text.Some? && ExtractJsonSpan(text.value).Some? && decode(ExtractJsonSpan(text.value).value).Some?)
              ==> out == decode(ExtractJsonSpan(text.value).value).value
    ensures (text.None? || ExtractJsonSpan(text.value).None? || decode(ExtractJsonSpan(text.value).value).None?)
              ==> out == MalformedFallback(p.title)
  {
    if text.None? then MalformedFallback(p.title)
    else match ExtractJsonSpan(text.value)
      case None => MalformedFallback(p.title)
      case Some(span) =>
        match decode(span)
        case Some(out) => out
        case None => MalformedFallback(p.title)
  }

  /** Without a `{` anywhere, or with no `}` after it, the result is the
      fallback with score 7, whatever the decoder would do. */
  lemma NoBracesGiveScoreSeven(text: string, p: AnalyzePRParams, decode: string -> Option<AnalyzePROutput>)
    requires '{' !in text || '}' !in text
    ensures ParseResponse(Some(text), p, decode) == MalformedFallback(p.title)
    ensures ParseResponse(Some(text), p, decode).qualityScore == 7
  {
  }

  /** A decoded object is returned unchanged: a score outside 1..10 is passed
      on as it is. */
  lemma DecodedScoreNotRangeChecked(lead: string, body: string, tail: string, p: AnalyzePRParams,
                                    decode: string -> Option<AnalyzePROutput>)
    requires '{' !in lead && '}' !in tail
    requires decode("{" + body + "}") == Some(AnalyzePROutput("s", 42, [], None))
    ensures ParseResponse(Some(lead + "{" + body + "}" + tail), p, decode).qualityScore == 42
  {
    SpanOfWrapped(lead, body, tail);
  }

  // ---------------------------------------------------------------------------
  // The Ollama call

  /** What `fetch` resolves to: `ok`, `statusText`, and what `response.json()`
      gives, which is an error when the body is not JSON, and otherwise the
      `response` property, missing or a string. */
  datatype HttpReply = HttpReply(ok: bool, statusText: string, json: Result<Option<string>, Thrown>)

  /** The outside world of a provider: the POST of a prompt to a URL, the JSON
      decoder, and the behaviour of providers other than Ollama. */
  datatype ProviderIO = ProviderIO(
    post: (string, string) -> Result<HttpReply, Thrown>,
    decode: string -> Option<AnalyzePROutput>,
    external: (string, AnalyzePRParams) -> Result<AnalyzePROutput, Thrown>)

  /** `OllamaProvider.analyzePR`: posts the prompt to `<baseUrl>/api/generate`;
      a rejected request or an unreadable body is thrown on, a non-ok status
      becomes an `Error` naming the status text, and otherwise the reply text
      goes through `parseResponse`. */
  function OllamaAnalyzePR(baseUrl: string, p: AnalyzePRParams, io: ProviderIO): (r: Result<AnalyzePROutput, Thrown>)
    ensures var sent := io.post(baseUrl + "/api/generate", BuildPrompt(p));
            && (sent.Err? ==> r == Err(sent.error))
            && (sent.Ok? && !sent.value.ok ==>
                  r == Err(Failure("Error", "Ollama API Error: " + sent.value.statusText, None, None)))
            && (sent.Ok? && sent.value.ok && sent.value.json.Err? ==> r == Err(sent.value.json.error))
            && (sent.Ok? && sent.value.ok && sent.value.json.Ok? ==>
                  r == Ok(ParseResponse(sent.value.json.value, p, io.decode)))
  {
    match io.post(baseUrl + "/api/generate", BuildPrompt(p))
    case Err(t) => Err(t)
    case Ok(reply) =>
      if !reply.ok then Err(Failure("Error", "Ollama API Error: " + reply.statusText, None, None))
      else match reply.json
        case Err(t) => Err(t)
        case Ok(text) => Ok(ParseResponse(text, p, io.decode))
  }

  /** `provider.analyzePR(params)` through the abstract interface. */
  function AnalyzePR(provider: Provider, p: AnalyzePRParams, io: ProviderIO): (r: Result<AnalyzePROutput, Thrown>)
    ensures provider.Ollama? ==> r == OllamaAnalyzePR(provider.baseUrl, p, io)
    ensures provider.External? ==> r == io.external(provider.name, p)
  {
    match provider
    case Ollama(url) => OllamaAnalyzePR(url, p, io)
    case External(name) => io.external(name, p)
  }

  /** A non-ok answer makes the Ollama provider throw instead of falling back,
      so a caller never sees a score of 7 for it. */
  lemma NonOkStatusThrows(baseUrl: string, p: AnalyzePRParams, io: ProviderIO, statusText: string,
                          json: Result<Option<string>, Thrown>)
    requires io.post(baseUrl + "/api/generate", BuildPrompt(p)) == Ok(HttpReply(false, statusText, json))
    ensures AnalyzePR(Ollama(baseUrl), p, io) == Err(Failure("Error", "Ollama API Error: " + statusText, None, None))
  {
  }
}
