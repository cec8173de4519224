/** `GitHubService`: the retry and throttling policy it configures on its
    Octokit client, the translation of Octokit failures into `AppError`s, the
    record conversions of its four API calls, and `parsePRUrl`. The Octokit
    calls themselves are parameters: each operation receives what the call
    returned or threw. */
module GitHubService {
  import opened Js
  import opened Errors

  // ---------------------------------------------------------------------------
  // Throttling and retry policy

  /** `onRateLimit`: asked after `retryCount` retries of a request that hit the
      primary rate limit; answering true retries once more. */
  function OnRateLimit(retryCount: nat): (retry: bool)
    ensures retry <==> retryCount <= 1
  {
    retryCount < 2
  }

  /** `onSecondaryRateLimit`: never retries. */
  function OnSecondaryRateLimit(retryCount: nat): (retry: bool)
    ensures !retry
  {
    false
  }

  /** How many retries a throttle callback grants a request that hits the limit
      on every attempt, counting from `from` retries and looking no further than
      `horizon`: the throttling plugin retries while the callback answers true. */
  function GrantedFrom(onLimit: nat -> bool, from: nat, horizon: nat): (n: nat)
    requires from <= horizon
    ensures from <= n <= horizon
    ensures forall k :: from <= k < n ==> onLimit(k)
    ensures n < horizon ==> !onLimit(n)
    decreases horizon - from
  {
    if from == horizon || !onLimit(from) then from
    else GrantedFrom(onLimit, from + 1, horizon)
  }

  function RetriesGranted(onLimit: nat -> bool, horizon: nat): nat {
    GrantedFrom(onLimit, 0, horizon)
  }

  /** Primary rate limit: at most two retries, so at most three attempts. */
  lemma PrimaryRateLimitRetriesTwice(horizon: nat)
    ensures RetriesGranted(OnRateLimit, horizon) == if horizon < 2 then horizon else 2
  {
    var n := RetriesGranted(OnRateLimit, horizon);
    if n < horizon {
      assert !OnRateLimit(n);
    }
    assert !OnRateLimit(2);
  }

  /** Secondary rate limit: a single attempt. */
  lemma SecondaryRateLimitNeverRetried(horizon: nat)
    ensures RetriesGranted(OnSecondaryRateLimit, horizon) == 0
  {
  }

  /** `doNotRetry`: the statuses the retry plugin is told to give up on. */
  const DoNotRetry: set<int> := {400, 401, 403, 404, 422}

  /** `retries`: the retry budget for other failures. */
  const MaxRetries: nat := 3

  /** The retry configuration as a decision: a failure with `status` after
      `retryCount` retries is retried when its status is not on the list and
      the budget is not spent. */
  function ShouldRetry(status: Option<int>, retryCount: nat): (retry: bool)
    ensures status.Some? && status.value in DoNotRetry ==> !retry
    ensures retry ==> retryCount < MaxRetries
    ensures (status.None? || status.value !in DoNotRetry) && retryCount < MaxRetries ==> retry
  {
    !(status.Some? && status.value in DoNotRetry) && retryCount < MaxRetries
  }

  /** A failure that keeps recurring with the same status is retried at most
      three times, and not at all when its status is on the list. */
  lemma RetryBudget(status: Option<int>, horizon: nat)
    requires horizon > MaxRetries
    ensures RetriesGranted((k: nat) => ShouldRetry(status, k), horizon)
              == if status.Some? && status.value in DoNotRetry then 0 else MaxRetries
  {
    var policy := (k: nat) => ShouldRetry(status, k);
    var n := RetriesGranted(policy, horizon);
    if status.Some? && status.value in DoNotRetry {
      assert !policy(0);
    } else {
      if n < horizon {
        assert !policy(n);
      }
      assert !policy(MaxRetries);
    }
  }

  function Pow2(n: nat): (r: nat)
    ensures r >= 1
  {
    if n == 0 then 1 else 2 * Pow2(n - 1)
  }

  lemma {:induction false} Pow2Monotone(i: nat, j: nat)
    requires i <= j
    ensures Pow2(i) <= Pow2(j)
  {
    if i < j {
      Pow2Monotone(i, j - 1);
    }
  }

  /** `backoff`: 2^retryCount seconds, in milliseconds, capped at 30 s. */
  function Backoff(retryCount: nat): (ms: nat)
    ensures 1000 <= ms <= 30000
  {
    var doubling := Pow2(retryCount) * 1000;
    if doubling < 30000 then doubling else 30000
  }

  /** The delay never shrinks as retries accumulate. */
  lemma BackoffMonotone(i: nat, j: nat)
    requires i <= j
    ensures Backoff(i) <= Backoff(j)
  {
    Pow2Monotone(i, j);
  }

  /** From the fifth retry on the cap is reached; before it the delay doubles
      from one second. */
  lemma BackoffCapped(retryCount: nat)
    ensures retryCount >= 5 ==> Backoff(retryCount) == 30000
    ensures retryCount < 5 ==> Backoff(retryCount) == [1000, 2000, 4000, 8000, 16000][retryCount]
  {
    if retryCount >= 5 {
      Pow2Monotone(5, retryCount);
      assert Pow2(5) == 32;
    } else {
      assert Pow2(1) == 2 && Pow2(2) == 4 && Pow2(3) == 8 && Pow2(4) == 16;
    }
  }

  // ---------------------------------------------------------------------------
  // Records

  datatype RawUser = RawUser(login: Option<string>, avatarUrl: Option<string>)
  datatype RawRepo = RawRepo(fullName: Option<string>)

  /** The part of Octokit's pull-request payload that `transformPRData` reads. */
  datatype RawPR = RawPR(
    id: int, number: int, title: string, body: Option<string>, state: string,
    htmlUrl: string, createdAt: string, updatedAt: string,
    user: Option<RawUser>, baseRef: string, baseRepo: Option<RawRepo>,
    headRef: string, headSha: string)

  datatype PRUser = PRUser(login: string, avatarUrl: string)

  /** `GitHubPR`. */
  datatype GitHubPR = GitHubPR(
    id: int, number: int, title: string, body: Option<string>, state: string,
    htmlUrl: string, createdAt: string, updatedAt: string,
    user: PRUser, baseRef: string, baseFullName: string, headRef: string, headSha: string)

  /** `user?.login || "unknown"`. */
  function UserLogin(u: Option<RawUser>): (login: string)
    ensures login != ""
    ensures u.Some? && u.value.login.Some? && u.value.login.value != "" ==> login == u.value.login.value
    ensures u.None? || u.value.login.None? || u.value.login.value == "" ==> login == "unknown"
  {
    if u.Some? then Or(u.value.login, "unknown") else "unknown"
  }

  /** `user?.avatar_url || ""`. */
  function UserAvatar(u: Option<RawUser>): (avatar: string)
    ensures u.Some? && u.value.avatarUrl.Some? ==> avatar == u.value.avatarUrl.value
    ensures u.None? || u.value.avatarUrl.None? ==> avatar == ""
  {
    if u.Some? then Or(u.value.avatarUrl, "") else ""
  }

  function RepoFullName(r: Option<RawRepo>): Option<string> {
    if r.Some? && r.value.fullName.Some? && r.value.fullName.value != "" then r.value.fullName else None
  }

  /** `transformPRData` as written: the fallback for a missing base repository
      name refers to `owner` and `repo`, which are not in scope there, so taking
      that branch throws a `ReferenceError`. */
  function TransformPRDataAsWritten(data: RawPR): (r: Result<GitHubPR, Thrown>)
    ensures r.Err? <==> RepoFullName(data.baseRepo).None?
  {
    if RepoFullName(data.baseRepo).None? then
      Err(Failure("ReferenceError", "owner is not defined", None, None))
    else
      Ok(GitHubPR(data.id, data.number, data.title, data.body, data.state, data.htmlUrl,
                  data.createdAt, data.updatedAt, PRUser(UserLogin(data.user), UserAvatar(data.user)),
                  data.baseRef, RepoFullName(data.baseRepo).value, data.headRef, data.headSha))
  }

  /** `transformPRData` with `owner` and `repo` passed in: every field is copied,
      a missing or empty login becomes "unknown", a missing avatar "", and a
      missing base repository name `owner/repo`. */
  function TransformPRData(data: RawPR, owner: string, repo: string): (pr: GitHubPR)
    ensures pr.id == data.id && pr.number == data.number && pr.title == data.title
    ensures pr.body == data.body && pr.state == data.state && pr.htmlUrl == data.htmlUrl
    ensures pr.createdAt == data.createdAt && pr.updatedAt == data.updatedAt
    ensures pr.baseRef == data.baseRef && pr.headRef == data.headRef && pr.headSha == data.headSha
    ensures pr.user == PRUser(UserLogin(data.user), UserAvatar(data.user))
    ensures pr.user.login != "" && pr.baseFullName != ""
    ensures data.user.Some? && data.user.value.login.Some? && data.user.value.login.value != "" ==>
              pr.user.login == data.user.value.login.value
    ensures RepoFullName(data.baseRepo).Some? ==> pr.baseFullName == RepoFullName(data.baseRepo).value
    ensures RepoFullName(data.baseRepo).None? ==> pr.baseFullName == owner + "/" + repo
  {
    var fullName := if RepoFullName(data.baseRepo).Some? then RepoFullName(data.baseRepo).value
                    else owner + "/" + repo;
    GitHubPR(data.id, data.number, data.title, data.body, data.state, data.htmlUrl,
             data.createdAt, data.updatedAt, PRUser(UserLogin(data.user), UserAvatar(data.user)),
             data.baseRef, fullName, data.headRef, data.headSha)
  }

  /** Where the base repository name is present, the two transforms agree;
      where it is missing, the one as written throws. */
  lemma TransformDefect(data: RawPR, owner: string, repo: string)
    ensures RepoFullName(data.baseRepo).Some? ==>
              TransformPRDataAsWritten(data) == Ok(TransformPRData(data, owner, repo))
    ensures RepoFullName(data.baseRepo).None? ==>
              TransformPRDataAsWritten(data).Err? && TransformPRData(data, owner, repo).baseFullName == owner + "/" + repo
  {
  }

  // ---------------------------------------------------------------------------
  // getPRDetails

  /** The catch block of `getPRDetails`: 404 means the pull request does not
      exist, 403 that access is denied, anything else is an upstream failure. */
  function DetailsFailure(owner: string, repo: string, pullNumber: int, t: Thrown): (e: AppError)
    ensures e.code == PrNotFound <==> StatusOf(t) == Some(404)
    ensures e.code == AccessDenied <==> StatusOf(t) == Some(403)
    ensures e.code == ExternalApiError <==> StatusOf(t) != Some(404) && StatusOf(t) != Some(403)
    ensures StatusCode(e) in {403, 404, 502}
    ensures e.code == PrNotFound ==> e.message == "未找到PR: " + owner + "/" + repo + "#" + IntToString(pullNumber)
    ensures e.code == AccessDenied ==> e.message == "没有权限访问此仓库，请检查GitHub Token"
    ensures e.code == ExternalApiError ==> e.message == "GitHub API错误: " + MessageText(t)
  {
    if StatusOf(t) == Some(404) then
      NewAppError(PrNotFound, Some("未找到PR: " + owner + "/" + repo + "#" + IntToString(pullNumber)), NoDetails, None)
    else if StatusOf(t) == Some(403) then
      NewAppError(AccessDenied, Some("没有权限访问此仓库，请检查GitHub Token"), NoDetails, None)
    else
      NewAppError(ExternalApiError, Some("GitHub API错误: " + MessageText(t)), NoDetails, None)
  }

  /** `getPRDetails` over what `pulls.get` returned or threw, with the corrected
      transform. */
  function GetPRDetails(owner: string, repo: string, pullNumber: int, fetched: Result<RawPR, Thrown>): (r: Result<GitHubPR, AppError>)
    ensures fetched.Ok? <==> r.Ok?
    ensures fetched.Ok? ==> r.value == TransformPRData(fetched.value, owner, repo)
    ensures fetched.Err? ==> r.error == DetailsFailure(owner, repo, pullNumber, fetched.error)
  {
    match fetched
    case Ok(data) => Ok(TransformPRData(data, owner, repo))
    case Err(t) => Err(DetailsFailure(owner, repo, pullNumber, t))
  }

  /** `getPRDetails` as written: the transform's `ReferenceError` is thrown
      inside the same `try`, so its own catch block reports it. */
  function GetPRDetailsAsWritten(owner: string, repo: string, pullNumber: int, fetched: Result<RawPR, Thrown>): (r: Result<GitHubPR, AppError>)
    ensures r.Ok? <==> fetched.Ok? && RepoFullName(fetched.value.baseRepo).Some?
    ensures r.Ok? ==> r.value == TransformPRData(fetched.value, owner, repo)
    ensures fetched.Err? ==> r == GetPRDetails(owner, repo, pullNumber, fetched)
    ensures fetched.Ok? && RepoFullName(fetched.value.baseRepo).Some? ==>
              r == GetPRDetails(owner, repo, pullNumber, fetched)
    ensures fetched.Ok? && RepoFullName(fetched.value.baseRepo).None? ==>
              r == Err(DetailsFailure(owner, repo, pullNumber, Failure("ReferenceError", "owner is not defined", None, None)))
  {
    match fetched
    case Err(t) => Err(DetailsFailure(owner, repo, pullNumber, t))
    case Ok(data) =>
      match TransformPRDataAsWritten(data)
      case Ok(pr) => Ok(pr)
      case Err(t) => Err(DetailsFailure(owner, repo, pullNumber, t))
  }

  /** A pull request whose payload lacks the base repository's name is fetched
      fine, yet the service as written reports an upstream failure (502), where
      the corrected one returns it with `owner/repo` as the name. */
  lemma MissingBaseRepoReportedAsUpstreamFailure(owner: string, repo: string, pullNumber: int, data: RawPR)
    requires RepoFullName(data.baseRepo).None?
    ensures GetPRDetailsAsWritten(owner, repo, pullNumber, Ok(data)).Err?
    ensures GetPRDetailsAsWritten(owner, repo, pullNumber, Ok(data)).error.code == ExternalApiError
    ensures GetPRDetails(owner, repo, pullNumber, Ok(data)).Ok?
    ensures GetPRDetails(owner, repo, pullNumber, Ok(data)).value.baseFullName == owner + "/" + repo
  {
  }

  // ---------------------------------------------------------------------------
  // getPRFiles

  datatype RawFile = RawFile(filename: string, status: string, additions: int, deletions: int,
                             changes: int, patch: Option<string>, sha: string, blobUrl: string)

  /** `GitHubFile`. */
  datatype GitHubFile = GitHubFile(filename: string, status: string, additions: int, deletions: int,
                                   changes: int, patch: Option<string>)

  function ToGitHubFile(f: RawFile): GitHubFile {
    GitHubFile(f.filename, f.status, f.additions, f.deletions, f.changes, f.patch)
  }

  function MapFiles(files: seq<RawFile>): (r: seq<GitHubFile>)
    ensures |r| == |files|
    ensures forall i :: 0 <= i < |files| ==> r[i] == ToGitHubFile(files[i])
  {
    if files == [] then [] else [ToGitHubFile(files[0])] + MapFiles(files[1..])
  }

  /** `getPRFiles`: one record per file, in order, keeping the six fields the
      service exposes; any failure, whatever its status, is an upstream error. */
  function GetPRFiles(fetched: Result<seq<RawFile>, Thrown>): (r: Result<seq<GitHubFile>, AppError>)
    ensures fetched.Ok? <==> r.Ok?
    ensures r.Ok? ==> |r.value| == |fetched.value|
    ensures r.Ok? ==> forall i :: 0 <= i < |r.value| ==>
              r.value[i].filename == fetched.value[i].filename && r.value[i].status == fetched.value[i].status
              && r.value[i].additions == fetched.value[i].additions && r.value[i].deletions == fetched.value[i].deletions
              && r.value[i].changes == fetched.value[i].changes && r.value[i].patch == fetched.value[i].patch
    ensures r.Err? ==> r.error.code == ExternalApiError && StatusCode(r.error) == 502
    ensures r.Err? ==> r.error.message == "获取PR文件失败: " + MessageText(fetched.error)
  {
    match fetched
    case Ok(files) => Ok(MapFiles(files))
    case Err(t) => Err(NewAppError(ExternalApiError, Some("获取PR文件失败: " + MessageText(t)), NoDetails, None))
  }

  // ---------------------------------------------------------------------------
  // getPRComments

  datatype RawReview = RawReview(id: int, body: Option<string>, state: string, user: Option<RawUser>)
  datatype RawComment = RawComment(id: int, body: Option<string>, user: Option<RawUser>)

  datatype CommentKind = Review | Comment

  /** An element of the list `getPRComments` returns. */
  datatype GitHubReview = GitHubReview(id: int, body: Option<string>, state: string, login: string, kind: CommentKind)

  function FromReview(r: RawReview): GitHubReview {
    GitHubReview(r.id, r.body, r.state, UserLogin(r.user), Review)
  }

  function FromComment(c: RawComment): GitHubReview {
    GitHubReview(c.id, c.body, "COMMENTED", UserLogin(c.user), Comment)
  }

  function MapReviews(rs: seq<RawReview>): (r: seq<GitHubReview>)
    ensures |r| == |rs|
    ensures forall i :: 0 <= i < |rs| ==> r[i] == FromReview(rs[i])
  {
    if rs == [] then [] else [FromReview(rs[0])] + MapReviews(rs[1..])
  }

  function MapComments(cs: seq<RawComment>): (r: seq<GitHubReview>)
    ensures |r| == |cs|
    ensures forall i :: 0 <= i < |cs| ==> r[i] == FromComment(cs[i])
  {
    if cs == [] then [] else [FromComment(cs[0])] + MapComments(cs[1..])
  }

  /** `getPRComments` over the joint outcome of its two listings: all reviews,
      in order, then all issue comments, in order, the comments in state
      `COMMENTED`; a missing or empty login becomes "unknown", so no login is
      ever empty. */
  function GetPRComments(fetched: Result<(seq<RawReview>, seq<RawComment>), Thrown>): (r: Result<seq<GitHubReview>, AppError>)
    ensures fetched.Ok? <==> r.Ok?
    ensures r.Ok? ==> |r.value| == |fetched.value.0| + |fetched.value.1|
    ensures r.Ok? ==> forall i :: 0 <= i < |r.value| ==> r.value[i].login != ""
    ensures r.Ok? ==> forall i :: 0 <= i < |fetched.value.0| ==>
              r.value[i].kind == Review && r.value[i].id == fetched.value.0[i].id
              && r.value[i].state == fetched.value.0[i].state && r.value[i].body == fetched.value.0[i].body
              && r.value[i].login == UserLogin(fetched.value.0[i].user)
    ensures r.Ok? ==> forall i :: 0 <= i < |fetched.value.1| ==>
              var c := r.value[|fetched.value.0| + i];
              c.kind == Comment && c.id == fetched.value.1[i].id && c.state == "COMMENTED"
              && c.body == fetched.value.1[i].body && c.login == UserLogin(fetched.value.1[i].user)
    ensures r.Err? ==> r.error.code == ExternalApiError && StatusCode(r.error) == 502
    ensures r.Err? ==> r.error.message == "获取PR评论失败: " + MessageText(fetched.error)
  {
    match fetched
    case Ok((reviews, comments)) => Ok(MapReviews(reviews) + MapComments(comments))
    case Err(t) => Err(NewAppError(ExternalApiError, Some("获取PR评论失败: " + MessageText(t)), NoDetails, None))
  }

  // ---------------------------------------------------------------------------
  // getRepoReadme

  /** `getRepoReadme` over the decoded README or the thrown error: a missing
      README (404) is `null`, any other failure is thrown on unchanged. */
  function GetRepoReadme(fetched: Result<string, Thrown>): (r: Result<Option<string>, Thrown>)
    ensures fetched.Ok? ==> r == Ok(Some(fetched.value))
    ensures fetched.Err? && StatusOf(fetched.error) == Some(404) ==> r == Ok(None)
    ensures fetched.Err? && StatusOf(fetched.error) != Some(404) ==> r == Err(fetched.error)
  {
    match fetched
    case Ok(text) => Ok(Some(text))
    case Err(t) => if StatusOf(t) == Some(404) then Ok(None) else Err(t)
  }

  // ---------------------------------------------------------------------------
  // parsePRUrl

  /** The two parts of a URL that the parsers read; building it from a string
      (`new URL`) is not modelled. */
  datatype Url = Url(hostname: string, pathname: string)

  datatype PRRef = PRRef(owner: string, repo: string, pullNumber: int)

  function PathSegments(pathname: string): (parts: seq<string>)
    ensures forall i :: 0 <= i < |parts| ==> parts[i] != "" && '/' !in parts[i]
  {
    var pieces := Split(pathname, '/');
    var r := FilterNonEmpty(pieces);
    assert forall i :: 0 <= i < |r| ==> '/' !in r[i] by {
      FilterKeeps(pieces, '/');
    }
    r
  }

  /** A slash at the end of the path, or an extra one at its start, changes
      nothing: `filter(Boolean)` drops the empty pieces it adds. */
  lemma SlashesIgnored(pathname: string)
    ensures PathSegments(pathname + "/") == PathSegments(pathname)
    ensures PathSegments("/" + pathname) == PathSegments(pathname)
  {
    var pieces := Split(pathname, '/');
    SplitTrailing(pathname, '/');
    FilterAppend(pieces, [""]);
    assert FilterNonEmpty([""]) == [];
    assert pieces + [] == pieces;
    assert ("/" + pathname)[1..] == pathname;
  }

  /** So "/o/r/pull/7/" and "//o/r/pull/7" are read as "/o/r/pull/7". */
  lemma SlashesIgnoredByParser(host: string, pathname: string)
    ensures ParsePRUrl(Some(Url(host, pathname + "/"))) == ParsePRUrl(Some(Url(host, pathname)))
    ensures ParsePRUrl(Some(Url(host, "/" + pathname))) == ParsePRUrl(Some(Url(host, pathname)))
  {
    SlashesIgnored(pathname);
  }

  lemma {:induction false} FilterKeeps(parts: seq<string>, c: char)
    requires forall i :: 0 <= i < |parts| ==> c !in parts[i]
    ensures forall i :: 0 <= i < |FilterNonEmpty(parts)| ==> c !in FilterNonEmpty(parts)[i]
  {
    if parts != [] {
      FilterKeeps(parts[1..], c);
    }
  }

  /** The checks inside the `try` of `parsePRUrl`, each failure carrying the
      message of the `Error` it throws. */
  function ParseSteps(url: Option<Url>): Result<PRRef, string> {
    if url.None? then Err("Invalid URL")
    else if !IsInfix("github.com", url.value.hostname) then Err("必须是GitHub URL")
    else
      var parts := PathSegments(url.value.pathname);
      if |parts| < 4 || parts[2] != "pull" then Err("无效的PR URL格式")
      else match ParseIntDecimal(parts[3])
        case None => Err("PR编号必须是数字")
        case Some(n) => Ok(PRRef(parts[0], parts[1], n))
  }

  /** The start of every message `parsePRUrl` fails with. */
  const UrlFailurePrefix: string := "无效的GitHub PR URL: "

  /** `GitHubService.parsePRUrl`: a URL is accepted exactly when it parses, its
      host name contains "github.com", its non-empty path segments number at
      least four with "pull" third, and the fourth starts with a number; owner,
      repository and number come from the first, second and fourth segments.
      Every rejection is an `INVALID_INPUT` error (400). */
  function ParsePRUrl(url: Option<Url>): (r: Result<PRRef, AppError>)
    ensures r.Ok? <==>
              url.Some? && IsInfix("github.com", url.value.hostname)
              && var parts := PathSegments(url.value.pathname);
                 |parts| >= 4 && parts[2] == "pull" && ParseIntDecimal(parts[3]).Some?
    ensures r.Ok? ==>
              var parts := PathSegments(url.value.pathname);
              r.value == PRRef(parts[0], parts[1], ParseIntDecimal(parts[3]).value)
    ensures r.Err? ==> r.error.code == InvalidInput && StatusCode(r.error) == 400
    ensures r.Err? ==> r.error.details == NoDetails && r.error.cause == None
    ensures url.None? ==> r.Err? && r.error.message == UrlFailurePrefix + "Invalid URL"
    ensures url.Some? && !IsInfix("github.com", url.value.hostname) ==>
              r.Err? && r.error.message == UrlFailurePrefix + "必须是GitHub URL"
    ensures url.Some? && IsInfix("github.com", url.value.hostname) ==>
              var parts := PathSegments(url.value.pathname);
              (|parts| < 4 || parts[2] != "pull") ==> r.Err? && r.error.message == UrlFailurePrefix + "无效的PR URL格式"
    ensures url.Some? && IsInfix("github.com", url.value.hostname) ==>
              var parts := PathSegments(url.value.pathname);
              |parts| >= 4 && parts[2] == "pull" && ParseIntDecimal(parts[3]).None? ==>
                r.Err? && r.error.message == UrlFailurePrefix + "PR编号必须是数字"
  {
    match ParseSteps(url)
    case Ok(ref) => Ok(ref)
    case Err(why) => Err(NewAppError(InvalidInput, Some(UrlFailurePrefix + why), NoDetails, None))
  }

  /** The path `/owner/repo/pull/<n>` followed by any further segments. */
  function PullPath(owner: string, repo: string, number: string, extra: seq<string>): string {
    Join(["", owner, repo, "pull", number] + extra, "/")
  }

  lemma PullPathSegments(owner: string, repo: string, number: string, extra: seq<string>)
    requires owner != "" && repo != "" && number != ""
    requires '/' !in owner && '/' !in repo && '/' !in number
    requires forall i :: 0 <= i < |extra| ==> extra[i] != "" && '/' !in extra[i]
    ensures PathSegments(PullPath(owner, repo, number, extra)) == [owner, repo, "pull", number] + extra
  {
    var parts := ["", owner, repo, "pull", number] + extra;
    SplitJoin(parts, '/');
    assert FilterNonEmpty(parts) == [owner, repo, "pull", number] + extra by {
      assert parts[1..] == [owner, repo, "pull", number] + extra;
    }
  }

  lemma NoSlashInDigits(d: string, tail: string)
    requires AllDigits(d, 10) && '/' !in tail
    ensures '/' !in d + tail
  {
    forall k | 0 <= k < |d + tail|
      ensures (d + tail)[k] != '/'
    {
      if k < |d| {
        assert IsDigitIn(d[k], 10);
      } else {
        assert (d + tail)[k] == tail[k - |d|];
      }
    }
  }

  /** A canonical pull-request URL, on any host containing "github.com", parses
      to its owner, repository and number, whatever segments follow. */
  lemma CanonicalUrlAccepted(host: string, owner: string, repo: string, n: nat, extra: seq<string>)
    requires IsInfix("github.com", host)
    requires owner != "" && repo != "" && '/' !in owner && '/' !in repo
    requires forall i :: 0 <= i < |extra| ==> extra[i] != "" && '/' !in extra[i]
    ensures ParsePRUrl(Some(Url(host, PullPath(owner, repo, NatToString(n), extra)))) == Ok(PRRef(owner, repo, n))
  {
    var digits := NatToString(n);
    NoSlashInDigits(digits, "");
    assert digits + "" == digits;
    PullPathSegments(owner, repo, digits, extra);
    ParseIntNatToString(n);
  }

  /** A number segment is read up to its first non-digit: "12abc" is 12. */
  lemma DigitPrefixAccepted(host: string, owner: string, repo: string, d: string, tail: string)
    requires IsInfix("github.com", host)
    requires owner != "" && repo != "" && '/' !in owner && '/' !in repo
    requires d != [] && AllDigits(d, 10) && '/' !in tail
    requires tail == [] || !IsDigitIn(tail[0], 10)
    ensures ParsePRUrl(Some(Url(host, PullPath(owner, repo, d + tail, [])))) == Ok(PRRef(owner, repo, ValueIn(d, 10)))
  {
    NoSlashInDigits(d, tail);
    PullPathSegments(owner, repo, d + tail, []);
    DecimalPrefix(d, tail);
  }

  /** The host check is a substring test, not a domain match. */
  lemma HostIsSubstringCheck()
    ensures ParsePRUrl(Some(Url("github.com.example.org", PullPath("o", "r", "7", [])))) == Ok(PRRef("o", "r", 7))
    ensures ParsePRUrl(Some(Url("gitlab.com", PullPath("o", "r", "7", [])))).Err?
  {
    LookalikeHostAccepted();
    OtherHostRejected();
  }

  lemma LookalikeHostAccepted()
    ensures ParsePRUrl(Some(Url("github.com.example.org", PullPath("o", "r", "7", [])))) == Ok(PRRef("o", "r", 7))
  {
    assert IsInfix("github.com", "github.com.example.org") by {
      InfixOfConcat("", "github.com", ".example.org");
      assert "" + "github.com" + ".example.org" == "github.com.example.org";
    }
    assert NatToString(7) == "7";
    CanonicalUrlAccepted("github.com.example.org", "o", "r", 7, []);
  }

  lemma OtherHostRejected()
    ensures ParsePRUrl(Some(Url("gitlab.com", PullPath("o", "r", "7", [])))).Err?
  {
    assert !IsInfix("github.com", "gitlab.com") by {
      if IsInfix("github.com", "gitlab.com") {
        InfixChars("github.com", "gitlab.com", 'h');
        assert false;
      }
    }
  }
}
