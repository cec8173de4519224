/** `GitHubClient` (the analysis module's own Octokit wrapper): its throttle
    callbacks and its `parsePRUrl`, which destructures the split path without
    any validation. */
module GitHubClient {
  import opened Js
  import opened Errors
  import GitHubService

  /** `onRateLimit`: always retries. */
  function OnRateLimit(retryCount: nat): (retry: bool)
    ensures retry
  {
    true
  }

  /** `onSecondaryRateLimit`: always retries too. */
  function OnSecondaryRateLimit(retryCount: nat): (retry: bool)
    ensures retry
  {
    true
  }

  /** Neither callback ever stops retrying: however far one looks ahead, every
      retry is granted. */
  lemma RateLimitsUncapped(horizon: nat)
    ensures GitHubService.RetriesGranted(OnRateLimit, horizon) == horizon
    ensures GitHubService.RetriesGranted(OnSecondaryRateLimit, horizon) == horizon
  {
    AlwaysGranted(OnRateLimit, 0, horizon);
    AlwaysGranted(OnSecondaryRateLimit, 0, horizon);
  }

  lemma {:induction false} AlwaysGranted(onLimit: nat -> bool, from: nat, horizon: nat)
    requires from <= horizon
    requires forall k: nat :: onLimit(k)
    ensures GitHubService.GrantedFrom(onLimit, from, horizon) == horizon
    decreases horizon - from
  {
    if from < horizon {
      assert onLimit(from);
      AlwaysGranted(onLimit, from + 1, horizon);
    }
  }

  /** On a secondary rate limit the two clients decide oppositely, at every
      retry count. */
  lemma SecondaryPoliciesDisagree(retryCount: nat)
    ensures OnSecondaryRateLimit(retryCount) != GitHubService.OnSecondaryRateLimit(retryCount)
  {
  }

  /** The result of `parsePRUrl`: `None` stands for `undefined` in the owner
      and repository, and for `NaN` in the number. */
  datatype ClientPRRef = ClientPRRef(owner: Option<string>, repo: Option<string>, pullNumber: Option<int>)

  function Element(parts: seq<string>, i: nat): (e: Option<string>)
    ensures e.Some? <==> i < |parts|
  {
    if i < |parts| then Some(parts[i]) else None
  }

  /** The destructuring in `parsePRUrl`:
      `const [, owner, repo, , pull_number] = pathname.split("/")` and
      `parseInt(pull_number)` with no radix (so `parseInt(undefined)` is
      `NaN`). Neither the host name nor the fourth piece is looked at. */
  function Destructure(url: GitHubService.Url): (r: ClientPRRef)
    ensures var parts := Split(url.pathname, '/');
            && (r.owner.Some? <==> |parts| > 1) && (r.repo.Some? <==> |parts| > 2)
            && (|parts| > 4 ==> r.pullNumber == ParseInt(parts[4]))
            && (|parts| <= 4 ==> r.pullNumber.None?)
            && (r.owner.Some? ==> r.owner.value == parts[1])
            && (r.repo.Some? ==> r.repo.value == parts[2])
  {
    var parts := Split(url.pathname, '/');
    var number := Element(parts, 4);
    ClientPRRef(Element(parts, 1), Element(parts, 2),
                if number.Some? then ParseInt(number.value) else None)
  }

  /** What `new URL` throws for a string that is not an absolute URL. */
  const InvalidUrl: Thrown := Failure("TypeError", "Invalid URL", None, None)

  /** `parsePRUrl(prUrl)`, given what `new URL(prUrl)` produced (`None` when
      the string is not a URL): that `TypeError` propagates, since nothing
      catches it; otherwise the path is destructured. */
  function ParsePRUrl(url: Option<GitHubService.Url>): (r: Result<ClientPRRef, Thrown>)
    ensures r.Err? <==> url.None?
    ensures r.Err? ==> r.error == InvalidUrl
    ensures r.Ok? ==> r.value == Destructure(url.value)
  {
    if url.None? then Err(InvalidUrl) else Ok(Destructure(url.value))
  }

  /** The path `/owner/repo/<any>/<n>` followed by any further pieces: the
      owner, repository and number are taken on any host, with any third
      segment and even with empty owner or repository. */
  lemma AcceptsAnyHostAndThirdSegment(host: string, owner: string, repo: string, third: string, n: nat, extra: seq<string>)
    requires '/' !in owner && '/' !in repo && '/' !in third
    requires forall i :: 0 <= i < |extra| ==> '/' !in extra[i]
    ensures ParsePRUrl(Some(GitHubService.Url(host, Join(["", owner, repo, third, NatToString(n)] + extra, "/"))))
              == Ok(ClientPRRef(Some(owner), Some(repo), Some(n)))
  {
    DestructuresAnyThirdSegment(host, owner, repo, third, n, extra);
  }

  lemma DestructuresAnyThirdSegment(host: string, owner: string, repo: string, third: string, n: nat, extra: seq<string>)
    requires '/' !in owner && '/' !in repo && '/' !in third
    requires forall i :: 0 <= i < |extra| ==> '/' !in extra[i]
    ensures Destructure(GitHubService.Url(host, Join(["", owner, repo, third, NatToString(n)] + extra, "/")))
              == ClientPRRef(Some(owner), Some(repo), Some(n))
  {
    var digits := NatToString(n);
    GitHubService.NoSlashInDigits(digits, "");
    assert digits + "" == digits;
    var parts := ["", owner, repo, third, digits] + extra;
    SplitJoin(parts, '/');
    ParseIntNatToString(n);
  }

  /** With fewer than five pieces the number is `NaN`. */
  lemma ShortPathHasNoNumber(url: GitHubService.Url)
    requires |Split(url.pathname, '/')| <= 4
    ensures ParsePRUrl(Some(url)).Ok? && ParsePRUrl(Some(url)).value.pullNumber == None
  {
  }

  /** Without a radix, a `0x` number segment is read as hexadecimal: the client
      takes "/o/r/pull/0x1f" as pull request 31. */
  lemma HexNumberSegment()
    ensures ParsePRUrl(Some(GitHubService.Url("github.com", "/o/r/pull/0x1f"))).Ok?
    ensures ParsePRUrl(Some(GitHubService.Url("github.com", "/o/r/pull/0x1f"))).value.pullNumber == Some(31)
  {
    var parts := ["", "o", "r", "pull", "0x1f"];
    assert Join(parts, "/") == "/o/r/pull/0x1f";
    SplitJoin(parts, '/');
    HexValue();
  }

  lemma HexValue()
    ensures ParseInt("0x1f") == Some(31)
  {
    var w := "1f";
    assert "0x1f"[2..] == w;
    assert DigitRun(w[1..], 16) == 1 by {
      assert w[1..] == "f";
      assert DigitRun("f"[1..], 16) == 0;
    }
    assert w[..2] == w;
    assert w[..1] == "1";
    assert ValueIn(w, 16) == 31;
  }

  /** The service reads the same path with radix 10, as pull request 0. */
  lemma HexNumberSegmentInService()
    ensures GitHubService.ParsePRUrl(Some(GitHubService.Url("github.com", "/o/r/pull/0x1f")))
              == Ok(GitHubService.PRRef("o", "r", 0))
  {
    HexPathSegments();
    DecimalZeroX();
    GitHubHost();
  }

  lemma HexPathSegments()
    ensures GitHubService.PathSegments("/o/r/pull/0x1f") == ["o", "r", "pull", "0x1f"]
  {
    var parts := ["", "o", "r", "pull", "0x1f"];
    assert parts + [] == parts;
    assert Join(parts, "/") == "/o/r/pull/0x1f";
    GitHubService.PullPathSegments("o", "r", "0x1f", []);
  }

  lemma DecimalZeroX()
    ensures ParseIntDecimal("0x1f") == Some(0)
  {
    DecimalPrefix("0", "x1f");
    assert "0" + "x1f" == "0x1f";
    assert "0"[..0] == "";
  }

  lemma GitHubHost()
    ensures IsInfix("github.com", "github.com")
  {
    InfixOfConcat("", "github.com", "");
    assert "" + "github.com" + "" == "github.com";
  }
}
