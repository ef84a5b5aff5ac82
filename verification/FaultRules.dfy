/** Fault rules: which requests they look at, and which repository a path is about. */
module FaultRules {
  import opened Text
  import opened FaultGlob

  datatype Scope = Api | Git | AnyScope

  datatype Trigger = SameRepo | PushSameRepo | SamePath

  datatype When = When(
    probability: Option<real>,
    everyNth: Option<nat>,
    firstN: Option<nat>,
    maxTotal: Option<nat>,
    maxPerPath: Option<nat>)

  datatype Inject = Inject(
    status: Option<nat>,
    headers: seq<(string, string)>,
    body: Option<string>,
    reset: bool,
    latency: Option<(nat, nat)>)

  datatype MissingAs = NotFound | PassThrough

  datatype Stale = Stale(on: Trigger, forSecs: real, missingAs: MissingAs, body: Option<string>)

  datatype Rule = Rule(
    name: string,
    methods: Option<seq<string>>,
    path: Option<string>,
    scope: Scope,
    when: Option<When>,
    inject: Option<Inject>,
    stale: Option<Stale>)

  predicate StartsWith(s: string, start: string) {
    start <= s
  }

  predicate IsGitPath(path: string) {
    Find(path, ".git/").Some? || EndsWith(path, "/info/refs") || EndsWith(path, "/git-upload-pack")
    || EndsWith(path, "/git-receive-pack")
  }

  predicate InScope(scope: Scope, path: string) {
    match scope
    case Api => StartsWith(path, "/api/")
    case Git => IsGitPath(path)
    case AnyScope => true
  }

  predicate TakesMethod(rule: Rule, verb: string) {
    rule.methods.Some? ==> exists i :: 0 <= i < |rule.methods.value| && Lower(rule.methods.value[i]) == Lower(verb)
  }

  /** The rule looks at this request: its scope, its methods, and the meaning of its glob. */
  ghost predicate Covers(rule: Rule, verb: string, path: string) {
    InScope(rule.scope, path) && TakesMethod(rule, verb) && (rule.path.Some? ==> GlobMeans(rule.path.value, path))
  }

  method Matches(rule: Rule, verb: string, path: string) returns (r: bool)
    ensures r <==> Covers(rule, verb, path)
  {
    if !InScope(rule.scope, path) || !TakesMethod(rule, verb) {
      return false;
    }
    if rule.path.None? {
      return true;
    }
    r := GlobMatches(rule.path.value, path);
  }

  // ------------------------------------------------------------ the repository a path is about

  function TrimEnd(s: string, end: string): (r: string)
    requires |end| > 0
    ensures r <= s && !EndsWith(r, end)
    decreases |s|
  {
    if EndsWith(s, end) then TrimEnd(s[..|s| - |end|], end) else s
  }

  /** The leading segments that name a repository, on each of the layouts known. */
  function PrefixSegments(segs: seq<string>): (r: Option<seq<string>>)
    ensures r.Some? ==> |r.value| >= 3
  {
    if |segs| >= 5 && segs[..3] == ["api", "v1", "repos"] then Some(segs[..5])
    else if |segs| >= 3 && segs[0] == "repos" then Some(segs[..3])
    else if |segs| >= 4 && segs[..3] == ["api", "v4", "projects"] then Some(segs[..4])
    else if |segs| >= 6 && segs[2..5] == ["_apis", "git", "repositories"] then Some(segs[..6])
    else if |segs| >= 2 && EndsWith(segs[1], ".git") then
      Some(["api", "v1", "repos", segs[0], TrimEnd(segs[1], ".git")])
    else None
  }

  function Segments(path: string): seq<string> {
    Split(TrimSlashes(path), '/')
  }

  function RepoPrefix(path: string): Option<string> {
    match PrefixSegments(Segments(path))
    case None => None
    case Some(segs) => Some("/" + Join(segs, '/'))
  }

  predicate SlashFree(xs: seq<string>) {
    forall i :: 0 <= i < |xs| ==> '/' !in xs[i]
  }

  lemma {:induction false} SplitAround(x: string, rest: string)
    requires '/' !in x
    ensures Split(x + "/" + rest, '/') == [x] + Split(rest, '/')
  {
    var s := x + "/" + rest;
    if x == [] {
      assert s[1..] == rest;
    } else {
      assert s[1..] == x[1..] + "/" + rest && s[0] == x[0] && x[0] in x;
      SplitAround(x[1..], rest);
      assert [x[0]] + x[1..] == x;
    }
  }

  lemma {:induction false} SplitWhole(x: string)
    requires '/' !in x
    ensures Split(x, '/') == [x]
  {
    if x != [] {
      assert x[0] in x;
      SplitWhole(x[1..]);
      assert [x[0]] + x[1..] == x;
    }
  }

  lemma {:induction false} SplitJoin(xs: seq<string>)
    requires |xs| >= 1 && SlashFree(xs)
    ensures Split(Join(xs, '/'), '/') == xs
  {
    if |xs| == 1 {
      SplitWhole(xs[0]);
    } else {
      SplitJoin(xs[1..]);
      SplitAround(xs[0], Join(xs[1..], '/'));
      assert [xs[0]] + xs[1..] == xs;
      assert xs[0] + ['/'] + Join(xs[1..], '/') == xs[0] + "/" + Join(xs[1..], '/');
    }
  }

  lemma {:induction false} TrimmedStartsPlain(s: string)
    ensures TrimSlashes(s) != "" ==> TrimSlashes(s)[0] != '/'
  {
    if s != [] && s[0] == '/' {
      TrimmedStartsPlain(s[1..]);
    }
  }

  lemma FirstSegmentIsPlain(s: string)
    requires s != "" && s[0] != '/'
    ensures Split(s, '/')[0] != ""
  {
  }

  lemma PrefixSegmentsAreFixed(segs: seq<string>)
    requires PrefixSegments(segs).Some? && SlashFree(segs) && segs[0] != ""
    ensures
      var p := PrefixSegments(segs).value;
      PrefixSegments(p) == Some(p) && SlashFree(p) && p[0] != ""
  {
    var p := PrefixSegments(segs).value;
    if |segs| >= 5 && segs[..3] == ["api", "v1", "repos"] {
      assert p[..3] == segs[..3] && p[..5] == p && |p| == 5;
    } else if |segs| >= 3 && segs[0] == "repos" {
      assert p[0] == "repos";
      assert |p| == 3 && p[..3] == p;
    } else if |segs| >= 4 && segs[..3] == ["api", "v4", "projects"] {
      assert p[..3] == segs[..3] && |p| == 4 && p[..4] == p;
      assert p[0] == p[..3][0] && p[1] == p[..3][1];
    } else if |segs| >= 6 && segs[2..5] == ["_apis", "git", "repositories"] {
      assert p[2..5] == segs[2..5] && p[2] == p[2..5][0] && p[..6] == p && p[0] == segs[0];
      assert p[..3][2] == p[2];
    } else {
      assert p[..3] == ["api", "v1", "repos"] && |p| == 5 && p[..5] == p;
      assert forall i :: 0 <= i < |TrimEnd(segs[1], ".git")| ==> TrimEnd(segs[1], ".git")[i] == segs[1][i];
    }
  }

  lemma PrefixIsPlain(path: string)
    requires RepoPrefix(path).Some?
    ensures
      var p := PrefixSegments(Segments(path)).value;
      PrefixSegments(p) == Some(p) && SlashFree(p) && p[0] != ""
  {
    TrimmedStartsPlain(path);
    assert TrimSlashes(path) != "";
    FirstSegmentIsPlain(TrimSlashes(path));
    PrefixSegmentsAreFixed(Segments(path));
  }

  /** A path put together from plain segments is taken apart into them. */
  lemma SegmentsOfJoined(xs: seq<string>)
    requires |xs| >= 1 && SlashFree(xs) && xs[0] != ""
    ensures Segments("/" + Join(xs, '/')) == xs
  {
    var joined := Join(xs, '/');
    assert joined[0] == xs[0][0] && xs[0][0] in xs[0];
    assert "/" + joined == ['/'] + joined && ("/" + joined)[1..] == joined;
    assert TrimSlashes("/" + joined) == joined;
    SplitJoin(xs);
  }

  /** A prefix is its own prefix, and that of everything under it. */
  lemma PrefixIsFixed(path: string, more: seq<string>)
    requires RepoPrefix(path).Some? && SlashFree(more)
    ensures RepoPrefix(RepoPrefix(path).value) == RepoPrefix(path)
    ensures RepoPrefix("/" + Join(PrefixSegments(Segments(path)).value + more, '/')) == RepoPrefix(path)
  {
    var p := PrefixSegments(Segments(path)).value;
    PrefixIsPlain(path);
    SegmentsOfJoined(p);
    SegmentsOfJoined(p + more);
    PrefixStaysPrefix(p, more);
  }

  lemma PrefixStaysPrefix(p: seq<string>, more: seq<string>)
    requires PrefixSegments(p) == Some(p)
    ensures PrefixSegments(p + more) == Some(p)
  {
    var q := p + more;
    assert q[..|p|] == p;
    assert q[..3] == p[..3] && q[0] == p[0];
    if |p| >= 6 {
      assert q[2..5] == p[2..5];
    }
  }

  // ------------------------------------------------------------ which paths share a repository

  datatype Layout = ForgejoLike | GitHubLike | GitLabLike | AzureLike

  /** The layout a prefix is written in: each has a length of its own. */
  function LayoutOf(prefix: seq<string>): Layout {
    if |prefix| == 5 then ForgejoLike
    else if |prefix| == 3 then GitHubLike
    else if |prefix| == 4 then GitLabLike
    else AzureLike
  }

  /** The layout a path is written in; git's own paths count as the forge's this layer runs in front of. */
  predicate InLayout(segs: seq<string>, layout: Layout) {
    match layout
    case ForgejoLike =>
      (|segs| >= 5 && segs[..3] == ["api", "v1", "repos"]) || (|segs| >= 2 && EndsWith(segs[1], ".git"))
    case GitHubLike => |segs| >= 3 && segs[0] == "repos"
    case GitLabLike => |segs| >= 4 && segs[..3] == ["api", "v4", "projects"]
    case AzureLike => |segs| >= 6 && segs[2..5] == ["_apis", "git", "repositories"]
  }

  /**
   * Two paths open and meet the same windows exactly when they name the same repository in the same
   * layout: every forge's API keeps prefixes of its own.
   */
  lemma SamePrefixSameRepository(a: string, b: string)
    requires RepoPrefix(a).Some? && RepoPrefix(b).Some?
    ensures
      var p, q := PrefixSegments(Segments(a)).value, PrefixSegments(Segments(b)).value;
      && (RepoPrefix(a) == RepoPrefix(b) <==> p == q)
      && InLayout(Segments(a), LayoutOf(p)) && InLayout(Segments(b), LayoutOf(q))
      && (RepoPrefix(a) == RepoPrefix(b) ==> LayoutOf(p) == LayoutOf(q))
  {
    var p, q := PrefixSegments(Segments(a)).value, PrefixSegments(Segments(b)).value;
    PrefixIsPlain(a);
    PrefixIsPlain(b);
    SegmentsOfJoined(p);
    SegmentsOfJoined(q);
  }

  lemma {:induction false} TrimEndLeaves(s: string, end: string)
    requires |end| > 0
    ensures TrimEnd(s + end, end) == TrimEnd(s, end)
    ensures TrimEnd(s, end) == s <==> !EndsWith(s, end)
  {
    assert (s + end)[|s|..] == end && (s + end)[..|s|] == s;
    assert EndsWith(s + end, end);
  }

  lemma GitPrefixSegments(owner: string, repo: string, more: seq<string>)
    ensures PrefixSegments([owner, repo + ".git"] + more) == Some(["api", "v1", "repos", owner, repo]) <==>
      && !(owner == "repos" && more != [])
      && !(|more| >= 4 && more[..3] == ["_apis", "git", "repositories"])
      && !EndsWith(repo, ".git")
  {
    var segs := [owner, repo + ".git"] + more;
    TrimEndLeaves(repo, ".git");
    assert EndsWith(repo + ".git", ".git") by {
      assert (repo + ".git")[|repo|..] == ".git";
    }
    assert !EndsWith("v1", ".git") && !EndsWith("v4", ".git");
    assert |segs| >= 3 ==> segs[..3][1] == repo + ".git";
    assert |segs| >= 5 ==> segs[2..5] == more[..3];
  }

  /**
   * A git path and an API path in Forgejo's layout about one repository meet the same windows,
   * except under an owner called `repos`, beside an Azure DevOps tail, or for a repository whose
   * name itself ends in `.git`, and then they never do.
   */
  lemma GitPathsMeetApiPaths(owner: string, repo: string, gitTail: seq<string>, apiTail: seq<string>)
    requires owner != "" && '/' !in owner && '/' !in repo && SlashFree(gitTail) && SlashFree(apiTail)
    ensures
      var git := "/" + Join([owner, repo + ".git"] + gitTail, '/');
      var api := "/" + Join(["api", "v1", "repos", owner, repo] + apiTail, '/');
      RepoPrefix(git) == RepoPrefix(api) <==>
        && !(owner == "repos" && gitTail != [])
        && !(|gitTail| >= 4 && gitTail[..3] == ["_apis", "git", "repositories"])
        && !EndsWith(repo, ".git")
  {
    var x, y := [owner, repo + ".git"] + gitTail, ["api", "v1", "repos", owner, repo] + apiTail;
    SegmentsOfJoined(x);
    SegmentsOfJoined(y);
    GitPrefixSegments(owner, repo, gitTail);
    assert y[..3] == ["api", "v1", "repos"] && y[..5] == ["api", "v1", "repos", owner, repo];
    var git, api := "/" + Join(x, '/'), "/" + Join(y, '/');
    assert PrefixSegments(y) == Some(["api", "v1", "repos", owner, repo]);
    if PrefixSegments(x).Some? {
      SamePrefixSameRepository(git, api);
    }
  }
}
