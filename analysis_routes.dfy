/** The `/analyze` route: its regular-expression PR-URL parser
    `/https:\/\/github\.com\/([^\/]+)\/([^\/]+)\/pull\/(\d+)/`, unanchored, and
    the reply it gives. */
module AnalysisRoutes {
  import opened Js
  import opened Errors
  import GitHubService
  import GitHubClient

  /** The literal text the pattern starts with. */
  const Prefix: string := "https://github.com/"

  /** Length of the longest prefix of `s` without a slash. */
  function SegmentRun(s: string): (n: nat)
    ensures n <= |s| && '/' !in s[..n]
    ensures n < |s| ==> s[n] == '/'
  {
    if s != [] && s[0] != '/' then
      var k := SegmentRun(s[1..]);
      assert s[..k + 1] == [s[0]] + s[1..][..k];
      k + 1
    else 0
  }

  lemma {:induction false} SegmentRunOf(p: string, rest: string)
    requires '/' !in p
    requires rest == [] || rest[0] == '/'
    ensures SegmentRun(p + rest) == |p|
  {
    if p != [] {
      assert (p + rest)[1..] == p[1..] + rest;
      SegmentRunOf(p[1..], rest);
    } else {
      assert p + rest == rest;
    }
  }

  /** The three capture groups. */
  datatype Match = Match(owner: string, repo: string, digits: string)

  /** The text a match covers. */
  function Matched(m: Match): string {
    Prefix + m.owner + "/" + m.repo + "/pull/" + m.digits
  }

  predicate WellFormed(m: Match) {
    m.owner != "" && '/' !in m.owner && m.repo != "" && '/' !in m.repo
    && m.digits != "" && AllDigits(m.digits, 10)
  }

  /** The text after a literal `lit` at the start of `s`. */
  function AfterLiteral(lit: string, s: string): (r: Option<string>)
    ensures r.Some? <==> IsPrefix(lit, s)
  {
    if IsPrefix(lit, s) then Some(s[|lit|..]) else None
  }

  lemma AfterLiteralSound(lit: string, s: string)
    requires AfterLiteral(lit, s).Some?
    ensures s == lit + AfterLiteral(lit, s).value
  {
    assert s == s[..|lit|] + s[|lit|..];
  }

  lemma AfterLiteralOf(lit: string, rest: string)
    ensures AfterLiteral(lit, lit + rest) == Some(rest)
  {
    assert (lit + rest)[..|lit|] == lit;
  }

  /** A group `[^\/]+` followed by a slash: it can only end where the run of
      non-slashes ends, so it is the whole run, which must be non-empty and
      followed by a slash. Gives the group and the text after the slash. */
  function Segment(t: string): (r: Option<(string, string)>)
    ensures r.Some? ==> r.value.0 != "" && '/' !in r.value.0
  {
    var a := SegmentRun(t);
    if a == 0 || a == |t| then None else Some((t[..a], t[a + 1..]))
  }

  lemma SegmentSound(t: string)
    requires Segment(t).Some?
    ensures t == Segment(t).value.0 + "/" + Segment(t).value.1
  {
    var a := SegmentRun(t);
    assert t == t[..a] + "/" + t[a + 1..];
  }

  lemma SegmentOf(p: string, rest: string)
    requires p != "" && '/' !in p
    ensures Segment(p + "/" + rest) == Some((p, rest))
  {
    SegmentRunOf(p, "/" + rest);
    assert p + "/" + rest == p + ("/" + rest);
    assert (p + "/" + rest)[..|p|] == p;
    assert (p + "/" + rest)[|p| + 1..] == rest;
  }

  /** `\d+` at the end of the pattern: greedy, so the whole run of digits,
      which must be non-empty. Gives the digits and the text after them. */
  function Digits(t: string): (r: Option<(string, string)>)
    ensures r.Some? ==> r.value.0 != "" && AllDigits(r.value.0, 10)
    ensures r.Some? ==> r.value.1 == [] || !IsDigitIn(r.value.1[0], 10)
  {
    var d := DigitRun(t, 10);
    if d == 0 then None else Some((t[..d], t[d..]))
  }

  lemma DigitsSound(t: string)
    requires Digits(t).Some?
    ensures t == Digits(t).value.0 + Digits(t).value.1
  {
    var d := DigitRun(t, 10);
    assert t == t[..d] + t[d..];
  }

  lemma DigitsOf(d: string, rest: string)
    requires d != "" && AllDigits(d, 10)
    requires rest == [] || !IsDigitIn(rest[0], 10)
    ensures Digits(d + rest) == Some((d, rest))
  {
    DigitRunOf(d, rest);
    assert (d + rest)[..|d|] == d;
  }

  /** A match found at the start of a text, and the text after it. */
  datatype Found = Found(m: Match, after: string)

  /** The pattern tried at the start of `s`: at most one match starts there.
      `MatchAtSound` and `MatchAtFinds` state what it finds. */
  function MatchAt(s: string): (r: Option<Found>)
    ensures r.Some? ==> WellFormed(r.value.m)
  {
    match AfterLiteral(Prefix, s)
    case None => None
    case Some(t) =>
      match Segment(t)
      case None => None
      case Some((owner, t2)) =>
        match Segment(t2)
        case None => None
        case Some((repo, t3)) =>
          match AfterLiteral("pull/", t3)
          case None => None
          case Some(t4) =>
            match Digits(t4)
            case None => None
            case Some((digits, after)) => Some(Found(Match(owner, repo, digits), after))
  }

  /** A match covers a prefix of `s` that is not followed by a further digit. */
  lemma MatchAtSound(s: string)
    requires MatchAt(s).Some?
    ensures var f := MatchAt(s).value;
            s == Matched(f.m) + f.after && (f.after == [] || !IsDigitIn(f.after[0], 10))
  {
    var t := AfterLiteral(Prefix, s).value;
    var (owner, t2) := Segment(t).value;
    var (repo, t3) := Segment(t2).value;
    var t4 := AfterLiteral("pull/", t3).value;
    var (digits, after) := Digits(t4).value;
    AfterLiteralSound(Prefix, s);
    SegmentSound(t);
    SegmentSound(t2);
    AfterLiteralSound("pull/", t3);
    DigitsSound(t4);
    Assemble(t, t2, t3, t4, owner, repo, Prefix);
    assert Prefix + owner + "/" + repo + "/pull/" + (digits + after)
           == Matched(Match(owner, repo, digits)) + after;
  }

  lemma Assemble(t: string, t2: string, t3: string, t4: string, o: string, r: string, p: string)
    requires t == o + "/" + t2 && t2 == r + "/" + t3 && t3 == "pull/" + t4
    ensures p + t == p + o + "/" + r + "/pull/" + t4
  {
    assert "/pull/" == "/" + "pull/";
  }

  /** The converse: every well-formed match followed by a non-digit is found,
      with the rest of the text after it. */
  lemma MatchAtFinds(m: Match, rest: string)
    requires WellFormed(m)
    requires rest == [] || !IsDigitIn(rest[0], 10)
    ensures MatchAt(Matched(m) + rest) == Some(Found(m, rest))
  {
    var t4 := m.digits + rest;
    var t3 := "pull/" + t4;
    var t2 := m.repo + "/" + t3;
    var t := m.owner + "/" + t2;
    Assemble(t, t2, t3, t4, m.owner, m.repo, Prefix);
    assert Matched(m) + rest == Prefix + t;
    AfterLiteralOf(Prefix, t);
    SegmentOf(m.owner, t2);
    SegmentOf(m.repo, t3);
    AfterLiteralOf("pull/", t4);
    DigitsOf(m.digits, rest);
  }

  /** No match starts at a character other than `h`. */
  lemma NoMatchBeforeH(s: string)
    requires s == [] || s[0] != 'h'
    ensures MatchAt(s).None?
  {
    assert Prefix[0] == 'h';
  }

  /** The leftmost position from `i` on where the pattern matches. */
  function FirstMatchFrom(s: string, i: nat): (r: Option<nat>)
    requires i <= |s|
    ensures r.Some? ==> i <= r.value <= |s| && MatchAt(s[r.value..]).Some?
    ensures r.Some? ==> forall j :: i <= j < r.value ==> MatchAt(s[j..]).None?
    ensures r.None? ==> forall j :: i <= j <= |s| ==> MatchAt(s[j..]).None?
    decreases |s| - i
  {
    if MatchAt(s[i..]).Some? then Some(i)
    else if i == |s| then None
    else FirstMatchFrom(s, i + 1)
  }

  /** `parseInt(match[3])`: with only decimal digits in the group, the value
      of the digits. */
  function PullNumber(digits: string): (n: nat)
    requires digits != [] && AllDigits(digits, 10)
    ensures ParseInt(digits) == Some(n)
  {
    DecimalPrefix(digits, "");
    assert digits + "" == digits;
    ValueIn(digits, 10)
  }

  function RefOf(m: Match): GitHubService.PRRef
    requires WellFormed(m)
  {
    GitHubService.PRRef(m.owner, m.repo, PullNumber(m.digits))
  }

  /** `parseGitHubPRUrl`: `null` exactly when the pattern matches nowhere in
      the text; otherwise the groups of the leftmost match, with non-empty,
      slash-free owner and repository and a non-negative number. */
  function ParseGitHubPRUrl(url: string): (r: Option<GitHubService.PRRef>)
    ensures r.None? <==> forall j :: 0 <= j <= |url| ==> MatchAt(url[j..]).None?
    ensures r.Some? ==> r.value.owner != "" && '/' !in r.value.owner
                        && r.value.repo != "" && '/' !in r.value.repo && r.value.pullNumber >= 0
    ensures r.Some? ==> exists j :: 0 <= j <= |url| && MatchAt(url[j..]).Some?
                          && (forall k :: 0 <= k < j ==> MatchAt(url[k..]).None?)
                          && r.value == RefOf(MatchAt(url[j..]).value.m)
  {
    match FirstMatchFrom(url, 0)
    case None => None
    case Some(i) => Some(RefOf(MatchAt(url[i..]).value.m))
  }

  /** The leftmost match decides the result. */
  lemma LeftmostMatchDecides(url: string, j: nat)
    requires j <= |url| && MatchAt(url[j..]).Some?
    requires forall k :: 0 <= k < j ==> MatchAt(url[k..]).None?
    ensures ParseGitHubPRUrl(url) == Some(RefOf(MatchAt(url[j..]).value.m))
  {
    var i := FirstMatchFrom(url, 0).value;
    assert i == j;
  }

  /** The canonical form `https://github.com/<owner>/<repo>/pull/<n>`, with any
      text after it that does not extend the number (such as "/files"), and
      after any leading text without an `h`: the owner, repository and number
      are read back. */
  lemma CanonicalUrlParsed(lead: string, owner: string, repo: string, n: nat, rest: string)
    requires 'h' !in lead
    requires owner != "" && '/' !in owner && repo != "" && '/' !in repo
    requires rest == [] || !IsDigitIn(rest[0], 10)
    ensures ParseGitHubPRUrl(lead + Matched(Match(owner, repo, NatToString(n))) + rest)
              == Some(GitHubService.PRRef(owner, repo, n))
  {
    var m := Match(owner, repo, NatToString(n));
    var url := lead + Matched(m) + rest;
    assert url[|lead|..] == Matched(m) + rest;
    MatchAtFinds(m, rest);
    forall k | 0 <= k < |lead|
      ensures MatchAt(url[k..]).None?
    {
      assert url[k..][0] == lead[k];
      NoMatchBeforeH(url[k..]);
    }
    LeftmostMatchDecides(url, |lead|);
    NatToStringValue(n);
  }

  /** Without the text "https://github.com/" anywhere, there is no match. */
  lemma NoPrefixNoMatch(url: string)
    requires !IsInfix(Prefix, url)
    ensures ParseGitHubPRUrl(url) == None
  {
    forall j | 0 <= j <= |url|
      ensures MatchAt(url[j..]).None?
    {
      if MatchAt(url[j..]).Some? {
        InfixAt(Prefix, url, j);
      }
    }
  }

  /** The scheme must be `https`: a URL written with `http` is refused. */
  lemma HttpSchemeRejected(rest: string)
    requires 's' !in rest
    ensures ParseGitHubPRUrl("http://github.com/" + rest) == None
  {
    var url := "http://github.com/" + rest;
    assert 's' !in url;
    assert !IsInfix(Prefix, url) by {
      if IsInfix(Prefix, url) {
        InfixChars(Prefix, url, 's');
        assert false;
      }
    }
    NoPrefixNoMatch(url);
  }

  /** On a canonical pull-request URL the route's parser and the two path
      parsers read the same owner, repository and number. */
  lemma ParsersAgreeOnCanonicalUrl(owner: string, repo: string, n: nat)
    requires owner != "" && '/' !in owner && repo != "" && '/' !in repo
    ensures ParseGitHubPRUrl(Matched(Match(owner, repo, NatToString(n))))
              == Some(GitHubService.PRRef(owner, repo, n))
    ensures GitHubService.ParsePRUrl(Some(GitHubService.Url("github.com",
              GitHubService.PullPath(owner, repo, NatToString(n), []))))
              == Ok(GitHubService.PRRef(owner, repo, n))
    ensures GitHubClient.ParsePRUrl(Some(GitHubService.Url("github.com",
              GitHubService.PullPath(owner, repo, NatToString(n), []))))
              == Ok(GitHubClient.ClientPRRef(Some(owner), Some(repo), Some(n)))
  {
    RouteReadsCanonical(owner, repo, n);
    ServiceReadsCanonical(owner, repo, n);
    GitHubClient.AcceptsAnyHostAndThirdSegment("github.com", owner, repo, "pull", n, []);
  }

  lemma RouteReadsCanonical(owner: string, repo: string, n: nat)
    requires owner != "" && '/' !in owner && repo != "" && '/' !in repo
    ensures ParseGitHubPRUrl(Matched(Match(owner, repo, NatToString(n)))) == Some(GitHubService.PRRef(owner, repo, n))
  {
    CanonicalUrlParsed("", owner, repo, n, "");
    var url := Matched(Match(owner, repo, NatToString(n)));
    assert "" + url + "" == url;
  }

  lemma ServiceReadsCanonical(owner: string, repo: string, n: nat)
    requires owner != "" && '/' !in owner && repo != "" && '/' !in repo
    ensures GitHubService.ParsePRUrl(Some(GitHubService.Url("github.com",
              GitHubService.PullPath(owner, repo, NatToString(n), []))))
              == Ok(GitHubService.PRRef(owner, repo, n))
  {
    GitHubClient.GitHubHost();
    GitHubService.CanonicalUrlAccepted("github.com", owner, repo, n, []);
  }

  /** What the route answers. `Rejected` is the error the handler throws, which
      the application's error handler turns into a reply. */
  datatype RouteReply =
    | InvalidUrl(status: int, message: string)
    | Fetched(status: int, prDetails: GitHubService.GitHubPR, prFiles: seq<GitHubService.GitHubFile>)
    | Rejected(error: AppError)

  /** `Promise.all` over the two fetches: both values when both succeed,
      otherwise the rejection seen first, which is the only one when just one
      fetch fails. */
  function Settle(d: Result<GitHubService.GitHubPR, AppError>, f: Result<seq<GitHubService.GitHubFile>, AppError>,
                  filesFailFirst: bool): (reply: RouteReply)
    ensures reply.Fetched? <==> d.Ok? && f.Ok?
    ensures reply.Fetched? ==> reply == Fetched(200, d.value, f.value)
    ensures reply.Rejected? <==> d.Err? || f.Err?
    ensures reply.Rejected? && f.Ok? ==> reply.error == d.error
    ensures reply.Rejected? && d.Ok? ==> reply.error == f.error
    ensures reply.Rejected? ==> (d.Err? && reply.error == d.error) || (f.Err? && reply.error == f.error)
  {
    if d.Err? && (f.Ok? || !filesFailFirst) then Rejected(d.error)
    else if f.Err? then Rejected(f.error)
    else Fetched(200, d.value, f.value)
  }

  /** The route body for a `url` that passed schema validation. Both fetches
      are started together; when both fail, `filesFailFirst` says which
      rejection `Promise.all` sees first. The fetches only happen for a parsed
      URL, so their results are given for that case. The details come from the
      service as written, whose transform throws when the base repository has
      no name. */
  function Analyze(url: string, details: Result<GitHubService.RawPR, Thrown>,
                   files: Result<seq<GitHubService.RawFile>, Thrown>, filesFailFirst: bool): (reply: RouteReply)
    ensures reply.InvalidUrl? <==> ParseGitHubPRUrl(url).None?
    ensures reply.InvalidUrl? ==> reply.status == 400 && reply.message == "Invalid GitHub PR URL"
    ensures reply.Fetched? <==>
              ParseGitHubPRUrl(url).Some? && details.Ok? && GitHubService.RepoFullName(details.value.baseRepo).Some?
              && files.Ok?
    ensures reply.Fetched? ==>
              var ref := ParseGitHubPRUrl(url).value;
              && reply.status == 200
              && reply.prDetails == GitHubService.TransformPRData(details.value, ref.owner, ref.repo)
              && reply.prFiles == GitHubService.GetPRFiles(files).value
    ensures reply.Rejected? ==>
              var ref := ParseGitHubPRUrl(url).value;
              var d := GitHubService.GetPRDetailsAsWritten(ref.owner, ref.repo, ref.pullNumber, details);
              && (files.Ok? ==> d.Err? && reply.error == d.error)
              && (d.Ok? ==> files.Err? && reply.error == GitHubService.GetPRFiles(files).error)
              && ((d.Err? && reply.error == d.error) || (files.Err? && reply.error == GitHubService.GetPRFiles(files).error))
  {
    match ParseGitHubPRUrl(url)
    case None => InvalidUrl(400, "Invalid GitHub PR URL")
    case Some(ref) =>
      Settle(GitHubService.GetPRDetailsAsWritten(ref.owner, ref.repo, ref.pullNumber, details),
             GitHubService.GetPRFiles(files), filesFailFirst)
  }

  /** A pull request whose base repository has no name cannot be analysed: the
      route rejects it with the upstream failure (502) that the transform's
      `ReferenceError` becomes. */
  lemma MissingBaseRepoRejected(url: string, data: GitHubService.RawPR,
                                files: Result<seq<GitHubService.RawFile>, Thrown>, filesFailFirst: bool)
    requires ParseGitHubPRUrl(url).Some?
    requires GitHubService.RepoFullName(data.baseRepo).None?
    requires files.Ok? || !filesFailFirst
    ensures Analyze(url, Ok(data), files, filesFailFirst).Rejected?
    ensures Analyze(url, Ok(data), files, filesFailFirst).error.code == ExternalApiError
    ensures StatusCode(Analyze(url, Ok(data), files, filesFailFirst).error) == 502
    ensures Analyze(url, Ok(data), files, filesFailFirst).error.message == "GitHub API错误: " + "owner is not defined"
  {
    var ref := ParseGitHubPRUrl(url).value;
    var thrown := Failure("ReferenceError", "owner is not defined", None, None);
    var d := GitHubService.GetPRDetailsAsWritten(ref.owner, ref.repo, ref.pullNumber, Ok(data));
    assert d == Err(GitHubService.DetailsFailure(ref.owner, ref.repo, ref.pullNumber, thrown));
    assert StatusOf(thrown) == None && MessageText(thrown) == "owner is not defined";
    assert Analyze(url, Ok(data), files, filesFailFirst) == Rejected(d.error);
  }
}
