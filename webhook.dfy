/** The GitHub App webhook: the POST handler that checks the signature,
    accepts the delivery and schedules its processing, the dispatch on the
    event name, the pull-request pipeline (fetch, analyse, report as a check
    run, store) and the installation listing. Each handler is a method that
    appends what it does to an effect trace, proved equal to a function that
    specifies the trace. */
module Webhook {
  import opened Js
  import opened Errors
  import opened AiProvider
  import opened PRAnalyzer

  // ---------------------------------------------------------------------------
  // The payload and the collaborators

  /** The parts of a delivery's JSON the handlers read. A `None` stands for a
      missing object, whose property access throws. */
  datatype PullRequestInfo = PullRequestInfo(id: int, number: int, title: string, userLogin: Option<string>,
                                             headSha: Option<string>)
  datatype RepositoryInfo = RepositoryInfo(ownerLogin: string, name: string, fullName: string)
  datatype InstallationInfo = InstallationInfo(id: int, accountLogin: Option<string>)
  datatype Payload = Payload(action: Option<string>, pullRequest: Option<PullRequestInfo>,
                             repository: Option<RepositoryInfo>, installation: Option<InstallationInfo>,
                             repositories: Option<seq<string>>)

  /** What the GitHub client returns for a pull request. */
  datatype PRDetails = PRDetails(title: string, body: Option<string>, diff: string, additions: int, deletions: int,
                                 filesChanged: int)

  datatype CheckOutput = CheckOutput(title: string, summary: string, text: string)

  /** A row of the `pull_requests` table. */
  datatype PullRequestRecord = PullRequestRecord(githubId: int, number: int, repository: string, title: string,
                                                 author: string, status: string, additions: int, deletions: int)

  /** The code the handlers call but that lies outside this model: the
      signature check (with the configured secret), `JSON.parse`, the GitHub
      client's two calls, the database insert (a failure is returned as the
      thrown value) and the AI provider's outside world. */
  datatype Collaborators = Collaborators(
    verify: (string, Option<string>) -> bool,
    parseJson: string -> Result<Option<Payload>, Thrown>,
    fetchDetails: (string, string, int, int) -> Result<PRDetails, Thrown>,
    createCheckRun: (string, string, string, CheckOutput, int) -> Option<Thrown>,
    insert: PullRequestRecord -> Option<Thrown>,
    ai: ProviderIO)

  /** What reading a property of a missing object throws. */
  const TypeError: Thrown := Failure("TypeError", "Cannot read properties of undefined", None, None)

  datatype ResponseBody = InvalidSignature | Accepted(event: Option<string>, deliveryId: Option<string>)
  datatype Response = Response(status: int, body: ResponseBody)

  /** One observable step. */
  datatype Effect =
    | Parsed
    | SetStatus(status: int)
      // `c.json(...)` builds a response object; whether it reaches the
      // client depends on the handler returning it
    | BuiltBody(body: ResponseBody)
    | Scheduled(event: Option<string>)
    | Fetch(owner: string, repo: string, number: int, installationId: int)
    | Analyze(params: AnalyzePRParams)
    | CheckRun(owner: string, repo: string, sha: string, output: CheckOutput, installationId: int)
    | CheckRunFailed(message: string)
    | PermissionHint
    | Insert(record: PullRequestRecord)
    | InsertFailed(message: string)
    | Done(number: int)
    | Installed(account: string)
    | RepositoryCount(count: int)
    | RepositoryListed(position: int, fullName: string)
    | Ping
    | Unhandled(event: Option<string>, action: Option<string>)
    | HandlerFailed(event: Option<string>, message: string)

  /** The effects of a handler, and what it threw, if anything. */
  datatype Run = Run(effects: seq<Effect>, failure: Option<Thrown>)

  // ---------------------------------------------------------------------------
  // Dispatch

  datatype Route = PullRequestRoute | InstallationRoute | PingRoute | UnhandledRoute

  /** The branch `processWebhookEvent` takes: exactly one, tried in order. */
  function Classify(event: Option<string>, action: Option<string>): (r: Route)
    ensures r == PullRequestRoute <==> event == Some("pull_request") && action in {Some("opened"), Some("synchronize")}
    ensures r == InstallationRoute <==> event == Some("installation") && action == Some("created")
    ensures r == PingRoute <==> event == Some("ping")
  {
    if event == Some("pull_request") && (action == Some("opened") || action == Some("synchronize")) then PullRequestRoute
    else if event == Some("installation") && action == Some("created") then InstallationRoute
    else if event == Some("ping") then PingRoute
    else UnhandledRoute
  }

  // ---------------------------------------------------------------------------
  // The pull-request pipeline

  /** The analyser's input: the description is `body || ""`. */
  function AnalyzerInput(d: PRDetails, login: string): AnalyzePRParams {
    AnalyzePRParams(d.title, Some(Or(d.body, "")), d.diff, Some(login))
  }

  /** The check run's text: the score out of ten in the title, the summary,
      and the suggestions separated by blank lines. */
  function CheckOutputOf(a: AnalyzePROutput): CheckOutput {
    CheckOutput("AI 代码评审: " + IntToString(a.qualityScore) + "/10", a.summary,
                "## 💡 建议\n" + Join(a.suggestions, "\n\n"))
  }

  /** The stored row: identity and title from the delivery, counts from the
      fetched details, status always "analyzed". */
  function RecordOf(pr: PullRequestInfo, repo: RepositoryInfo, login: string, d: PRDetails): PullRequestRecord {
    PullRequestRecord(pr.id, pr.number, repo.fullName, pr.title, login, "analyzed", d.additions, d.deletions)
  }

  /** Step 3, inside its own `try`: a failure is logged, with the permission
      hint for a 403, and goes no further. */
  function CheckRunEffects(pr: PullRequestInfo, repo: RepositoryInfo, installationId: int, output: CheckOutput,
                           c: Collaborators): seq<Effect>
  {
    match pr.headSha
    case None => [CheckRunFailed(MessageText(TypeError))]
    case Some(sha) =>
      [CheckRun(repo.ownerLogin, repo.name, sha, output, installationId)]
      + match c.createCheckRun(repo.ownerLogin, repo.name, sha, output, installationId)
        case None => []
        case Some(t) => [CheckRunFailed(MessageText(t))] + (if StatusOf(t) == Some(403) then [PermissionHint] else [])
  }

  /** Step 4, inside its own `try`. */
  function InsertEffects(record: PullRequestRecord, c: Collaborators): seq<Effect> {
    [Insert(record)] + match c.insert(record)
                       case None => []
                       case Some(t) => [InsertFailed(MessageText(t))]
  }

  /** `handlePullRequest(data, githubClient, aiAnalyzer)` with an analyser
      whose provider is `provider`. Reading the installation, pull request or
      repository of a payload without them throws before anything happens; a
      failed fetch, or a pull request without a user, throws before the
      analysis; the analyser never throws; the check run and the insert fail
      on their own. */
  function PullRequestRun(data: Payload, c: Collaborators, provider: Provider): Run {
    if data.installation.None? || data.pullRequest.None? || data.repository.None? then Run([], Some(TypeError))
    else
      var pr, repo, installationId := data.pullRequest.value, data.repository.value, data.installation.value.id;
      var fetch := Fetch(repo.ownerLogin, repo.name, pr.number, installationId);
      match c.fetchDetails(repo.ownerLogin, repo.name, pr.number, installationId)
      case Err(t) => Run([fetch], Some(t))
      case Ok(details) =>
        if pr.userLogin.None? then Run([fetch], Some(TypeError))
        else
          var params := AnalyzerInput(details, pr.userLogin.value);
          var analysis := Recover(AnalyzePR(provider, params, c.ai));
          var record := RecordOf(pr, repo, pr.userLogin.value, details);
          Run([fetch, Analyze(params)] + CheckRunEffects(pr, repo, installationId, CheckOutputOf(analysis), c)
              + InsertEffects(record, c) + [Done(pr.number)], None)
  }

  /** The pipeline as the handler runs it, step by step. */
  method HandlePullRequest(data: Payload, c: Collaborators, analyzer: PRAnalyzerService)
    returns (effects: seq<Effect>, failure: Option<Thrown>)
    ensures Run(effects, failure) == PullRequestRun(data, c, analyzer.provider)
  {
    if data.installation.None? || data.pullRequest.None? || data.repository.None? {
      return [], Some(TypeError);
    }
    var pr, repo, installationId := data.pullRequest.value, data.repository.value, data.installation.value.id;

    // 1. fetch the details
    effects := [Fetch(repo.ownerLogin, repo.name, pr.number, installationId)];
    var fetched := c.fetchDetails(repo.ownerLogin, repo.name, pr.number, installationId);
    if fetched.Err? {
      return effects, Some(fetched.error);
    }
    var details := fetched.value;

    // 2. analyse
    if pr.userLogin.None? {
      return effects, Some(TypeError);
    }
    var params := AnalyzerInput(details, pr.userLogin.value);
    effects := effects + [Analyze(params)];
    var analysis := analyzer.Analyze(params, c.ai);

    // 3. report as a check run; a failure is only logged
    var checkRun := ReportCheckRun(pr, repo, installationId, CheckOutputOf(analysis), c);
    effects := effects + checkRun;

    // 4. store; a failure is only logged
    var stored := Store(RecordOf(pr, repo, pr.userLogin.value, details), c);
    effects := effects + stored + [Done(pr.number)];
    failure := None;
  }

  /** Step 3 of the pipeline. */
  method ReportCheckRun(pr: PullRequestInfo, repo: RepositoryInfo, installationId: int, output: CheckOutput,
                        c: Collaborators) returns (effects: seq<Effect>)
    ensures effects == CheckRunEffects(pr, repo, installationId, output, c)
  {
    if pr.headSha.None? {
      return [CheckRunFailed(MessageText(TypeError))];
    }
    var sha := pr.headSha.value;
    effects := [CheckRun(repo.ownerLogin, repo.name, sha, output, installationId)];
    var error := c.createCheckRun(repo.ownerLogin, repo.name, sha, output, installationId);
    if error.Some? {
      effects := effects + [CheckRunFailed(MessageText(error.value))];
      if StatusOf(error.value) == Some(403) {
        effects := effects + [PermissionHint];
      }
    }
  }

  /** Step 4 of the pipeline. */
  method Store(record: PullRequestRecord, c: Collaborators) returns (effects: seq<Effect>)
    ensures effects == InsertEffects(record, c)
  {
    effects := [Insert(record)];
    var dbError := c.insert(record);
    if dbError.Some? {
      effects := effects + [InsertFailed(MessageText(dbError.value))];
    }
  }

  // ---------------------------------------------------------------------------
  // The installation listing

  /** The numbered listing of the granted repositories. */
  function Listing(repositories: seq<string>): (l: seq<Effect>)
    ensures |l| == |repositories|
    ensures forall i :: 0 <= i < |l| ==> l[i] == RepositoryListed(i + 1, repositories[i])
  {
    seq(|repositories|, i requires 0 <= i < |repositories| => RepositoryListed(i + 1, repositories[i]))
  }

  /** `handleInstallation(data)`: the account, the number of repositories
      (`repositories?.length || 0`) and each repository numbered from one. */
  function InstallationRun(data: Payload): Run {
    if data.installation.None? || data.installation.value.accountLogin.None? then Run([], Some(TypeError))
    else
      var count := if data.repositories.Some? then |data.repositories.value| else 0;
      var listed := if data.repositories.Some? then Listing(data.repositories.value) else [];
      Run([Installed(data.installation.value.accountLogin.value), RepositoryCount(count)] + listed, None)
  }

  method HandleInstallation(data: Payload) returns (effects: seq<Effect>, failure: Option<Thrown>)
    ensures Run(effects, failure) == InstallationRun(data)
  {
    if data.installation.None? || data.installation.value.accountLogin.None? {
      return [], Some(TypeError);
    }
    var count := if data.repositories.Some? then |data.repositories.value| else 0;
    effects := [Installed(data.installation.value.accountLogin.value), RepositoryCount(count)];
    failure := None;
    if data.repositories.Some? {
      var repositories := data.repositories.value;
      var head := effects;
      var i := 0;
      while i < |repositories|
        invariant 0 <= i <= |repositories|
        invariant effects == head + Listing(repositories)[..i]
      {
        effects := effects + [RepositoryListed(i + 1, repositories[i])];
        i := i + 1;
      }
      assert Listing(repositories)[..i] == Listing(repositories);
    }
  }

  // ---------------------------------------------------------------------------
  // Processing a delivery

  /** `processWebhookEvent(event, data)` with a fresh analyser, whose provider
      is the default Ollama provider. A handler's failure is logged and not
      passed on; a `null` payload makes every branch but `ping` throw. */
  function ProcessEffects(event: Option<string>, data: Option<Payload>, c: Collaborators): seq<Effect> {
    var run :=
      if data.None? then (if event == Some("ping") then Run([Ping], None) else Run([], Some(TypeError)))
      else match Classify(event, data.value.action)
        case PullRequestRoute => PullRequestRun(data.value, c, Ollama(DefaultBaseUrl))
        case InstallationRoute => InstallationRun(data.value)
        case PingRoute => Run([Ping], None)
        case UnhandledRoute => Run([Unhandled(event, data.value.action)], None);
    run.effects + if run.failure.Some? then [HandlerFailed(event, MessageText(run.failure.value))] else []
  }

  method ProcessWebhookEvent(event: Option<string>, data: Option<Payload>, c: Collaborators) returns (effects: seq<Effect>)
    ensures effects == ProcessEffects(event, data, c)
  {
    var analyzer := new PRAnalyzerService(None);
    var failure: Option<Thrown>;
    if data.None? {
      if event == Some("ping") {
        effects, failure := [Ping], None;
      } else {
        effects, failure := [], Some(TypeError);
      }
    } else {
      var route := Classify(event, data.value.action);
      match route {
        case PullRequestRoute =>
          effects, failure := HandlePullRequest(data.value, c, analyzer);
        case InstallationRoute =>
          effects, failure := HandleInstallation(data.value);
        case PingRoute =>
          effects, failure := [Ping], None;
        case UnhandledRoute =>
          effects, failure := [Unhandled(event, data.value.action)], None;
      }
    }
    if failure.Some? {
      effects := effects + [HandlerFailed(event, MessageText(failure.value))];
    }
  }

  // ---------------------------------------------------------------------------
  // The POST handler

  datatype Request = Request(body: string, signature: Option<string>, event: Option<string>, deliveryId: Option<string>)

  /** How the handler ends: with a response, returning nothing, or throwing
      (`JSON.parse` on a body that is not JSON). */
  datatype PostOutcome = Replied(response: Response) | NoReply | Threw(error: Thrown)

  /** The handler's outcome, its effects, and the payload handed to the
      scheduled processing, if any. */
  datatype PostRun = PostRun(outcome: PostOutcome, effects: seq<Effect>, scheduled: Option<Option<Payload>>)

  /** The handler as written: after setting the 202 status and body and
      scheduling the processing it returns nothing. */
  function PostAsWritten(req: Request, c: Collaborators): PostRun {
    if !c.verify(req.body, req.signature) then PostRun(Replied(Response(401, InvalidSignature)), [], None)
    else match c.parseJson(req.body)
      case Err(t) => PostRun(Threw(t), [], None)
      case Ok(data) =>
        var body := Accepted(req.event, req.deliveryId);
        PostRun(NoReply, [Parsed, SetStatus(202), BuiltBody(body), Scheduled(req.event)], Some(data))
  }

  /** The handler returning the 202 response it builds. */
  function PostCorrected(req: Request, c: Collaborators): PostRun {
    var r := PostAsWritten(req, c);
    if r.outcome.NoReply? then r.(outcome := Replied(Response(202, Accepted(req.event, req.deliveryId)))) else r
  }

  /** The corrected handler: no delivery goes unanswered. */
  lemma CorrectedAlwaysAnswers(req: Request, c: Collaborators)
    ensures !PostCorrected(req, c).outcome.NoReply?
    ensures c.verify(req.body, req.signature) && c.parseJson(req.body).Ok? ==>
              PostCorrected(req, c).outcome == Replied(Response(202, Accepted(req.event, req.deliveryId)))
  {
  }

  /** As written, an accepted delivery is answered with nothing. */
  lemma AcceptedDeliveryUnanswered(req: Request, c: Collaborators)
    requires c.verify(req.body, req.signature) && c.parseJson(req.body).Ok?
    ensures PostAsWritten(req, c).outcome == NoReply
    ensures PostAsWritten(req, c).effects[1..3] == [SetStatus(202), BuiltBody(Accepted(req.event, req.deliveryId))]
  {
  }

  /** The corrected handler, step by step. */
  method HandlePost(req: Request, c: Collaborators) returns (outcome: PostOutcome, effects: seq<Effect>,
                                                             scheduled: Option<Option<Payload>>)
    ensures PostRun(outcome, effects, scheduled) == PostCorrected(req, c)
  {
    effects, scheduled := [], None;
    // 1. check the signature
    if !c.verify(req.body, req.signature) {
      outcome := Replied(Response(401, InvalidSignature));
      return;
    }
    var parsed := c.parseJson(req.body);
    if parsed.Err? {
      outcome := Threw(parsed.error);
      return;
    }
    effects := effects + [Parsed];
    // 2. answer 202 at once
    var body := Accepted(req.event, req.deliveryId);
    effects := effects + [SetStatus(202)];
    effects := effects + [BuiltBody(body)];
    // 3. process after the handler has returned
    effects := effects + [Scheduled(req.event)];
    scheduled := Some(parsed.value);
    outcome := Replied(Response(202, body));
  }

  /** A delivery: the handler, then the processing it scheduled. */
  function DeliverySpec(req: Request, c: Collaborators): (PostOutcome, seq<Effect>) {
    var post := PostCorrected(req, c);
    if post.scheduled.Some? then (post.outcome, post.effects + ProcessEffects(req.event, post.scheduled.value, c))
    else (post.outcome, post.effects)
  }

  method Deliver(req: Request, c: Collaborators) returns (outcome: PostOutcome, effects: seq<Effect>)
    ensures (outcome, effects) == DeliverySpec(req, c)
  {
    var scheduled;
    outcome, effects, scheduled := HandlePost(req, c);
    ghost var post := PostCorrected(req, c);
    assert outcome == post.outcome && effects == post.effects && scheduled == post.scheduled;
    if scheduled.Some? {
      var processed := ProcessWebhookEvent(req.event, scheduled.value, c);
      effects := effects + processed;
    }
  }

  // ---------------------------------------------------------------------------
  // Properties of a delivery

  /** A delivery whose signature does not check out is answered 401 and
      nothing is parsed, scheduled or processed. */
  lemma BadSignatureRejected(req: Request, c: Collaborators)
    requires !c.verify(req.body, req.signature)
    ensures DeliverySpec(req, c) == (Replied(Response(401, InvalidSignature)), [])
  {
  }

  /** A signed body that is not JSON makes the handler throw, with nothing
      scheduled. */
  lemma MalformedBodyThrows(req: Request, c: Collaborators, error: Thrown)
    requires c.verify(req.body, req.signature) && c.parseJson(req.body) == Err(error)
    ensures DeliverySpec(req, c) == (Threw(error), [])
  {
  }

  /** An accepted delivery is answered 202 with its event and delivery id,
      the status and body are set before the processing is scheduled, and
      every effect of the processing comes after them. */
  lemma AcceptedBeforeProcessing(req: Request, c: Collaborators, data: Option<Payload>)
    requires c.verify(req.body, req.signature) && c.parseJson(req.body) == Ok(data)
    ensures DeliverySpec(req, c).0 == Replied(Response(202, Accepted(req.event, req.deliveryId)))
    ensures DeliverySpec(req, c).1 == [Parsed, SetStatus(202), BuiltBody(Accepted(req.event, req.deliveryId)),
                                       Scheduled(req.event)] + ProcessEffects(req.event, data, c)
  {
  }

  // ---------------------------------------------------------------------------
  // Properties of the dispatch

  /** Pull-request actions other than "opened" and "synchronize", and
      installation actions other than "created", are only logged. */
  lemma OtherActionsOnlyLogged(event: Option<string>, data: Payload, c: Collaborators)
    requires event == Some("pull_request") ==> data.action !in {Some("opened"), Some("synchronize")}
    requires event == Some("installation") ==> data.action != Some("created")
    requires event != Some("ping")
    ensures ProcessEffects(event, Some(data), c) == [Unhandled(event, data.action)]
  {
  }

  /** A ping, whatever its payload, is only logged: no GitHub, AI or
      database call. */
  lemma PingMakesNoCalls(data: Option<Payload>, c: Collaborators)
    ensures ProcessEffects(Some("ping"), data, c) == [Ping]
  {
  }

  /** A `null` payload is only harmless for a ping. */
  lemma NullPayload(event: Option<string>, c: Collaborators)
    ensures event == Some("ping") ==> ProcessEffects(event, None, c) == [Ping]
    ensures event != Some("ping") ==> ProcessEffects(event, None, c) == [HandlerFailed(event, MessageText(TypeError))]
  {
  }

  /** What the pull-request handler throws is logged as the last effect and
      goes no further; a handler that completes adds nothing. */
  lemma PullRequestFailureLogged(event: Option<string>, data: Payload, c: Collaborators)
    requires Classify(event, data.action) == PullRequestRoute
    ensures var run := PullRequestRun(data, c, Ollama(DefaultBaseUrl));
            ProcessEffects(event, Some(data), c)
              == run.effects + if run.failure.Some? then [HandlerFailed(event, MessageText(run.failure.value))] else []
  {
  }

  // ---------------------------------------------------------------------------
  // Properties of the pull-request pipeline

  /** The payload has the three objects the handler reads first. */
  predicate Complete(data: Payload) {
    data.installation.Some? && data.pullRequest.Some? && data.repository.Some?
  }

  function FetchEffect(data: Payload): Effect
    requires Complete(data)
  {
    Fetch(data.repository.value.ownerLogin, data.repository.value.name, data.pullRequest.value.number,
          data.installation.value.id)
  }

  function Fetched(data: Payload, c: Collaborators): Result<PRDetails, Thrown>
    requires Complete(data)
  {
    c.fetchDetails(data.repository.value.ownerLogin, data.repository.value.name, data.pullRequest.value.number,
                   data.installation.value.id)
  }

  /** A payload without an installation, pull request or repository throws
      before any call is made. */
  lemma IncompletePayloadThrows(data: Payload, c: Collaborators, provider: Provider)
    requires !Complete(data)
    ensures PullRequestRun(data, c, provider) == Run([], Some(TypeError))
  {
  }

  /** A failed fetch stops the pipeline: no analysis, no check run, no row. */
  lemma FetchFailureStops(data: Payload, c: Collaborators, provider: Provider, error: Thrown)
    requires Complete(data) && Fetched(data, c) == Err(error)
    ensures PullRequestRun(data, c, provider) == Run([FetchEffect(data)], Some(error))
  {
  }

  /** Once the details are fetched and the pull request names its user, the
      handler completes whatever the analyser, the check run and the insert
      do: the analyser is asked first, with `body || ""` as the description
      and the user's login as the author, the row is always offered, and the
      run ends with the completion log. */
  lemma FetchedPipelineCompletes(data: Payload, c: Collaborators, provider: Provider, details: PRDetails)
    requires Complete(data) && Fetched(data, c) == Ok(details) && data.pullRequest.value.userLogin.Some?
    ensures var pr, repo := data.pullRequest.value, data.repository.value;
            var run := PullRequestRun(data, c, provider);
            && run.failure == None
            && run.effects[..2] == [FetchEffect(data),
                                    Analyze(AnalyzePRParams(details.title, Some(Or(details.body, "")), details.diff,
                                                            Some(pr.userLogin.value)))]
            && Insert(PullRequestRecord(pr.id, pr.number, repo.fullName, pr.title, pr.userLogin.value, "analyzed",
                                        details.additions, details.deletions)) in run.effects
            && run.effects[|run.effects| - 1] == Done(pr.number)
  {
    var pr, repo := data.pullRequest.value, data.repository.value;
    var record := RecordOf(pr, repo, pr.userLogin.value, details);
    var run := PullRequestRun(data, c, provider);
    var analysis := Recover(AnalyzePR(provider, AnalyzerInput(details, pr.userLogin.value), c.ai));
    var head := [FetchEffect(data), Analyze(AnalyzerInput(details, pr.userLogin.value))]
                + CheckRunEffects(pr, repo, data.installation.value.id, CheckOutputOf(analysis), c);
    assert run.effects == head + InsertEffects(record, c) + [Done(pr.number)];
    assert run.effects[|head|] == Insert(record);
  }

  /** The permission hint is logged exactly when the check run is refused
      with status 403. */
  lemma PermissionHintOnlyFor403(data: Payload, c: Collaborators, provider: Provider, details: PRDetails)
    requires Complete(data) && Fetched(data, c) == Ok(details)
    requires data.pullRequest.value.userLogin.Some? && data.pullRequest.value.headSha.Some?
    ensures var pr, repo := data.pullRequest.value, data.repository.value;
            var analysis := Recover(AnalyzePR(provider, AnalyzerInput(details, pr.userLogin.value), c.ai));
            var refused := c.createCheckRun(repo.ownerLogin, repo.name, pr.headSha.value, CheckOutputOf(analysis),
                                            data.installation.value.id);
            (PermissionHint in PullRequestRun(data, c, provider).effects)
              <==> (refused.Some? && StatusOf(refused.value) == Some(403))
  {
    var pr, repo := data.pullRequest.value, data.repository.value;
    var analysis := Recover(AnalyzePR(provider, AnalyzerInput(details, pr.userLogin.value), c.ai));
    var record := RecordOf(pr, repo, pr.userLogin.value, details);
    var checkRun := CheckRunEffects(pr, repo, data.installation.value.id, CheckOutputOf(analysis), c);
    var run := PullRequestRun(data, c, provider);
    var rest := InsertEffects(record, c) + [Done(pr.number)];
    assert run.effects == [FetchEffect(data), Analyze(AnalyzerInput(details, pr.userLogin.value))] + checkRun + rest;
    assert PermissionHint !in rest;
  }

  /** When every step succeeds the trace is exactly: fetch, analyse, create
      the check run titled with the score out of ten, insert the row, done. */
  lemma SuccessfulRunTrace(data: Payload, c: Collaborators, provider: Provider, details: PRDetails)
    requires Complete(data) && Fetched(data, c) == Ok(details)
    requires data.pullRequest.value.userLogin.Some? && data.pullRequest.value.headSha.Some?
    requires var pr, repo := data.pullRequest.value, data.repository.value;
             var analysis := Recover(AnalyzePR(provider, AnalyzerInput(details, pr.userLogin.value), c.ai));
             && c.createCheckRun(repo.ownerLogin, repo.name, pr.headSha.value, CheckOutputOf(analysis),
                                 data.installation.value.id) == None
             && c.insert(RecordOf(pr, repo, pr.userLogin.value, details)) == None
    ensures var pr, repo := data.pullRequest.value, data.repository.value;
            var params := AnalyzePRParams(details.title, Some(Or(details.body, "")), details.diff,
                                          Some(pr.userLogin.value));
            var analysis := Recover(AnalyzePR(provider, params, c.ai));
            PullRequestRun(data, c, provider).effects
              == [FetchEffect(data),
                  Analyze(params),
                  CheckRun(repo.ownerLogin, repo.name, pr.headSha.value,
                           CheckOutput("AI 代码评审: " + IntToString(analysis.qualityScore) + "/10", analysis.summary,
                                       "## 💡 建议\n" + Join(analysis.suggestions, "\n\n")),
                           data.installation.value.id),
                  Insert(PullRequestRecord(pr.id, pr.number, repo.fullName, pr.title, pr.userLogin.value, "analyzed",
                                           details.additions, details.deletions)),
                  Done(pr.number)]
  {
  }

  /** A failed check run or insert is logged and the pipeline goes on. */
  lemma SideStepFailuresIsolated(data: Payload, c: Collaborators, provider: Provider, details: PRDetails,
                                 checkError: Thrown, dbError: Thrown)
    requires Complete(data) && Fetched(data, c) == Ok(details)
    requires data.pullRequest.value.userLogin.Some? && data.pullRequest.value.headSha.Some?
    requires StatusOf(checkError) != Some(403)
    requires var pr, repo := data.pullRequest.value, data.repository.value;
             var analysis := Recover(AnalyzePR(provider, AnalyzerInput(details, pr.userLogin.value), c.ai));
             && c.createCheckRun(repo.ownerLogin, repo.name, pr.headSha.value, CheckOutputOf(analysis),
                                 data.installation.value.id) == Some(checkError)
             && c.insert(RecordOf(pr, repo, pr.userLogin.value, details)) == Some(dbError)
    ensures var run := PullRequestRun(data, c, provider);
            && run.failure == None && |run.effects| == 7
            && run.effects[3] == CheckRunFailed(MessageText(checkError))
            && run.effects[4].Insert?
            && run.effects[5..] == [InsertFailed(MessageText(dbError)), Done(data.pullRequest.value.number)]
  {
  }

  /** Once the details are fetched, the third effect is the check run,
      carrying what the analyser returned. */
  lemma CheckRunCarriesAnalysis(data: Payload, c: Collaborators, provider: Provider, details: PRDetails)
    requires Complete(data) && Fetched(data, c) == Ok(details)
    requires data.pullRequest.value.userLogin.Some? && data.pullRequest.value.headSha.Some?
    ensures var pr, repo := data.pullRequest.value, data.repository.value;
            var analysis := Recover(AnalyzePR(provider, AnalyzerInput(details, pr.userLogin.value), c.ai));
            var run := PullRequestRun(data, c, provider);
            && run.failure == None && |run.effects| > 2
            && run.effects[2] == CheckRun(repo.ownerLogin, repo.name, pr.headSha.value, CheckOutputOf(analysis),
                                          data.installation.value.id)
  {
  }

  /** The check run made of the unavailable-service fallback. */
  lemma FallbackCheckOutput(message: string)
    ensures CheckOutputOf(UnavailableFallback(message))
              == CheckOutput("AI 代码评审: 5/10", "分析服务暂时不可用: " + message, "## 💡 建议\n请稍后重试，或联系管理员。")
  {
    assert IntToString(5) == "5";
    assert Join(["请稍后重试，或联系管理员。"], "\n\n") == "请稍后重试，或联系管理员。";
  }

  /** Whatever the provider throws, the check run reports 5/10 and carries
      the error's message in its summary. */
  lemma FailedAnalysisReportedAsFive(outcome: Result<AnalyzePROutput, Thrown>, message: string)
    requires outcome.Err? && ErrorMessage(outcome.error) == message
    ensures CheckOutputOf(Recover(outcome))
              == CheckOutput("AI 代码评审: 5/10", "分析服务暂时不可用: " + message, "## 💡 建议\n请稍后重试，或联系管理员。")
  {
    FallbackCheckOutput(message);
  }

  /** When the analyser's provider fails (for the Ollama provider, on a
      failure status: `NonOkStatusThrows`), the pipeline still completes and
      the check run reports 5/10 with the error's message in its summary. */
  lemma ProviderFailureReportedAsFive(data: Payload, c: Collaborators, provider: Provider, details: PRDetails,
                                      error: Thrown)
    requires Complete(data) && Fetched(data, c) == Ok(details)
    requires data.pullRequest.value.userLogin.Some? && data.pullRequest.value.headSha.Some?
    requires AnalyzePR(provider, AnalyzerInput(details, data.pullRequest.value.userLogin.value), c.ai) == Err(error)
    ensures var repo, run := data.repository.value, PullRequestRun(data, c, provider);
            && run.failure == None
            && run.effects[2]
              == CheckRun(repo.ownerLogin, repo.name, data.pullRequest.value.headSha.value,
                          CheckOutput("AI 代码评审: 5/10", "分析服务暂时不可用: " + ErrorMessage(error),
                                      "## 💡 建议\n请稍后重试，或联系管理员。"),
                          data.installation.value.id)
  {
    FailedAnalysisReportedAsFive(Err(error), ErrorMessage(error));
    CheckRunCarriesAnalysis(data, c, provider, details);
  }

  // ---------------------------------------------------------------------------
  // Properties of the installation listing

  /** The logged count is the number of listed repositories (`0` without a
      list), and the repositories are listed in order, numbered from one. */
  lemma InstallationListingCounted(data: Payload)
    requires data.installation.Some? && data.installation.value.accountLogin.Some?
    ensures var e := InstallationRun(data).effects;
            && |e| >= 2 && e[0] == Installed(data.installation.value.accountLogin.value)
            && e[1] == RepositoryCount(|e| - 2)
            && (data.repositories.None? ==> |e| == 2)
            && (data.repositories.Some? ==>
                  forall i :: 2 <= i < |e| ==> e[i] == RepositoryListed(i - 1, data.repositories.value[i - 2]))
  {
  }
}
