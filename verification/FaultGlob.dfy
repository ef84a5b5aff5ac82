/** The fault rules' path globs: greedy segment matching and `**`, against what the wildcards mean. */
module FaultGlob {
  import opened Text

  // ---------------------------------------------------------------- one segment

  function Stars(pattern: string): nat {
    if pattern == [] then 0 else (if pattern[0] == '*' then 1 else 0) + Stars(pattern[1..])
  }

  /** The pattern with its stars replaced, left to right, by the given strings. */
  function Fill(pattern: string, ws: seq<string>): string
    requires |ws| == Stars(pattern)
  {
    if pattern == [] then ""
    else if pattern[0] == '*' then ws[0] + Fill(pattern[1..], ws[1..])
    else [pattern[0]] + Fill(pattern[1..], ws)
  }

  /** The meaning: each `*` can be replaced by some string to give the segment. */
  ghost predicate SegmentMeans(pattern: string, s: string) {
    exists ws: seq<string> :: |ws| == Stars(pattern) && Fill(pattern, ws) == s
  }

  /** `part` stands at `k` in `s`. */
  predicate At(s: string, part: string, k: int) {
    0 <= k && k + |part| <= |s| && s[k..k + |part|] == part
  }

  /** `at` is where `part` starts first in `s`, if anywhere. */
  ghost predicate Leftmost(s: string, part: string, at: Option<nat>) {
    match at
    case Some(i) => At(s, part, i) && forall k :: 0 <= k < i ==> !At(s, part, k)
    case None => forall k :: !At(s, part, k)
  }

  lemma AtInTail(s: string, part: string, i: nat, k: int)
    requires i <= |s| && 0 <= k
    ensures At(s[i..], part, k) <==> At(s, part, i + k)
  {
    if k + |part| <= |s| - i {
      assert s[i..][k..k + |part|] == s[i + k..i + k + |part|];
    }
  }

  /** Rust's `str::find`. */
  function Find(s: string, part: string): (r: Option<nat>)
    ensures Leftmost(s, part, r)
  {
    if At(s, part, 0) then Some(0)
    else if s == [] then None
    else
      var f := Find(s[1..], part);
      assert forall k :: 1 <= k ==> At(s, part, k) == At(s[1..], part, k - 1) by {
        forall k | 1 <= k ensures At(s, part, k) == At(s[1..], part, k - 1) {
          AtInTail(s, part, 1, k - 1);
        }
      }
      if f.Some? then Some(f.value + 1) else None
  }

  /** `ps` follow one another in `r`, each after any run of characters, the last one at the end. */
  ghost predicate Trail(ps: seq<string>, r: string)
    requires ps != []
    decreases |ps|
  {
    if |ps| == 1 then At(r, ps[0], |r| - |ps[0]|)
    else exists k :: At(r, ps[0], k) && Trail(ps[1..], r[k + |ps[0]|..])
  }

  /** A trail found later is a trail from earlier: what makes the leftmost choice safe. */
  lemma TrailFromEarlier(ps: seq<string>, r: string, i: nat)
    requires ps != [] && i <= |r| && Trail(ps, r[i..])
    ensures Trail(ps, r)
  {
    if |ps| == 1 {
      AtInTail(r, ps[0], i, |r| - i - |ps[0]|);
    } else {
      var k :| At(r[i..], ps[0], k) && Trail(ps[1..], r[i..][k + |ps[0]|..]);
      AtInTail(r, ps[0], i, k);
      assert r[i + k + |ps[0]|..] == r[i..][k + |ps[0]|..];
    }
  }

  /** Greedy is right: if any placement of the first part works, the leftmost one does. */
  lemma LeftmostSuffices(ps: seq<string>, r: string, at: Option<nat>)
    requires |ps| > 1 && Leftmost(r, ps[0], at)
    ensures Trail(ps, r) <==> at.Some? && Trail(ps[1..], r[at.value + |ps[0]|..])
  {
    if Trail(ps, r) {
      var k :| At(r, ps[0], k) && Trail(ps[1..], r[k + |ps[0]|..]);
      var i, n := at.value, |ps[0]|;
      assert r[i + n..][k - i..] == r[k + n..];
      TrailFromEarlier(ps[1..], r[i + n..], k - i);
    }
  }

  /** What the parts of a split pattern mean: the first at the start, the others as a trail. */
  ghost predicate PartsMean(parts: seq<string>, s: string)
    requires parts != []
  {
    if |parts| == 1 then s == parts[0]
    else At(s, parts[0], 0) && Trail(parts[1..], s[|parts[0]|..])
  }

  /** The parts, taken from `k` on and to the end of `s`. */
  ghost predicate PartsAt(ps: seq<string>, s: string, k: int)
    requires ps != []
  {
    At(s, ps[0], k) && (if |ps| == 1 then k == |s| - |ps[0]| else Trail(ps[1..], s[k + |ps[0]|..]))
  }

  lemma PartsMeanAt(ps: seq<string>, s: string, k: nat)
    requires ps != [] && k <= |s|
    ensures PartsMean(ps, s[k..]) <==> PartsAt(ps, s, k)
  {
    AtInTail(s, ps[0], k, 0);
    if k + |ps[0]| <= |s| {
      assert s[k..][|ps[0]|..] == s[k + |ps[0]|..];
    }
  }

  lemma TrailIsPartsSomewhere(ps: seq<string>, s: string)
    requires ps != []
    ensures Trail(ps, s) <==> exists k :: PartsAt(ps, s, k)
  {
    if |ps| == 1 {
      assert Trail(ps, s) ==> PartsAt(ps, s, |s| - |ps[0]|);
    } else if Trail(ps, s) {
      var k :| At(s, ps[0], k) && Trail(ps[1..], s[k + |ps[0]|..]);
      assert PartsAt(ps, s, k);
    }
  }

  lemma PartsAfterLiteral(parts: seq<string>, rest: seq<string>, s: string)
    requires rest != [] && s != [] && parts == [[s[0]] + rest[0]] + rest[1..]
    ensures PartsMean(parts, s) <==> PartsMean(rest, s[1..])
  {
    assert s == [s[0]] + s[1..];
    if |rest| > 1 {
      var m := |rest[0]|;
      assert parts[1..] == rest[1..];
      if m <= |s| - 1 {
        assert s[..m + 1] == [s[0]] + s[1..][..m];
        assert s[m + 1..] == s[1..][m..];
      }
    }
  }

  /** Splitting on the star loses nothing: the parts mean what the pattern means. */
  lemma {:induction false} SplitKeepsMeaning(pattern: string, s: string)
    ensures SegmentMeans(pattern, s) <==> PartsMean(Split(pattern, '*'), s)
    decreases |pattern|
  {
    var parts := Split(pattern, '*');
    if pattern == [] {
      assert Fill(pattern, []) == "";
    } else {
      var rest := Split(pattern[1..], '*');
      if pattern[0] == '*' {
        StarThenRest(pattern, s);
        forall k | 0 <= k <= |s| ensures SegmentMeans(pattern[1..], s[k..]) <==> PartsAt(rest, s, k) {
          SplitKeepsMeaning(pattern[1..], s[k..]);
          PartsMeanAt(rest, s, k);
        }
        TrailIsPartsSomewhere(rest, s);
        assert parts == [""] + rest && parts[1..] == rest && s[0..] == s;
      } else {
        LiteralThenRest(pattern, s);
        if s != [] && s[0] == pattern[0] {
          SplitKeepsMeaning(pattern[1..], s[1..]);
          PartsAfterLiteral(parts, rest, s);
        }
      }
    }
  }

  lemma StarThenRest(pattern: string, s: string)
    requires pattern != [] && pattern[0] == '*'
    ensures SegmentMeans(pattern, s) <==> exists k :: 0 <= k <= |s| && SegmentMeans(pattern[1..], s[k..])
  {
    if SegmentMeans(pattern, s) {
      var ws: seq<string> :| |ws| == Stars(pattern) && Fill(pattern, ws) == s;
      assert s[|ws[0]|..] == Fill(pattern[1..], ws[1..]);
    }
    if k :| 0 <= k <= |s| && SegmentMeans(pattern[1..], s[k..]) {
      var ws: seq<string> :| |ws| == Stars(pattern[1..]) && Fill(pattern[1..], ws) == s[k..];
      assert ([s[..k]] + ws)[1..] == ws;
      assert Fill(pattern, [s[..k]] + ws) == s[..k] + s[k..] == s;
    }
  }

  lemma LiteralThenRest(pattern: string, s: string)
    requires pattern != [] && pattern[0] != '*'
    ensures SegmentMeans(pattern, s) <==> s != [] && s[0] == pattern[0] && SegmentMeans(pattern[1..], s[1..])
  {
    if SegmentMeans(pattern, s) {
      var ws: seq<string> :| |ws| == Stars(pattern) && Fill(pattern, ws) == s;
      assert s[1..] == Fill(pattern[1..], ws);
    }
    if s != [] && s[0] == pattern[0] && SegmentMeans(pattern[1..], s[1..]) {
      var ws: seq<string> :| |ws| == Stars(pattern[1..]) && Fill(pattern[1..], ws) == s[1..];
      assert Fill(pattern, ws) == [s[0]] + s[1..] == s;
    }
  }

  lemma NoStarIsLiteral(pattern: string)
    requires '*' !in pattern
    ensures Split(pattern, '*') == [pattern]
  {
    if pattern != [] {
      assert pattern == [pattern[0]] + pattern[1..];
    }
  }

  lemma StarSplits(pattern: string)
    requires '*' in pattern
    ensures |Split(pattern, '*')| >= 2
  {
    if pattern[0] != '*' {
      assert pattern == [pattern[0]] + pattern[1..];
    }
  }

  /** The loop over the parts: greedy, leftmost. It decides exactly the meaning, for every input. */
  method SegmentMatches(pattern: string, seg: string) returns (r: bool)
    ensures r <==> SegmentMeans(pattern, seg)
  {
    SplitKeepsMeaning(pattern, seg);
    if '*' !in pattern {
      NoStarIsLiteral(pattern);
      return pattern == seg;
    }
    StarSplits(pattern);
    var parts := Split(pattern, '*');
    ghost var means := SegmentMeans(pattern, seg);
    var rest := seg;
    for i := 0 to |parts|
      invariant i == 0 ==> means == PartsMean(parts, rest)
      invariant 0 < i ==> i < |parts| && means == Trail(parts[i..], rest)
    {
      var part := parts[i];
      if i == 0 {
        if At(rest, part, 0) {
          rest := rest[|part|..];
        } else {
          return false;
        }
      } else if i == |parts| - 1 {
        return At(rest, part, |rest| - |part|);
      } else {
        var at := Find(rest, part);
        LeftmostSuffices(parts[i..], rest, at);
        assert parts[i..][1..] == parts[i + 1..];
        if at.None? {
          return false;
        }
        rest := rest[at.value + |part|..];
      }
    }
    r := true;
  }

  // ---------------------------------------------------------------- whole paths

  /** `segments_match`, with the segment matcher's meaning in its place. */
  ghost predicate SegmentsMatch(g: seq<string>, p: seq<string>)
    decreases |g|
  {
    if g == [] then p == []
    else if g[0] == "**" then exists i :: 0 <= i <= |p| && SegmentsMatch(g[1..], p[i..])
    else p != [] && SegmentMeans(g[0], p[0]) && SegmentsMatch(g[1..], p[1..])
  }

  function Flatten(xss: seq<seq<string>>): seq<string> {
    if xss == [] then [] else xss[0] + Flatten(xss[1..])
  }

  /** The meaning: each `**` is replaced by some segments, every other pattern by one it means. */
  ghost predicate PathMeans(g: seq<string>, p: seq<string>) {
    exists choice: seq<seq<string>> :: Chooses(g, p, choice)
  }

  ghost predicate Chooses(g: seq<string>, p: seq<string>, choice: seq<seq<string>>) {
    && |choice| == |g|
    && (forall i :: 0 <= i < |g| ==> Stands(g[i], choice[i]))
    && Flatten(choice) == p
  }

  /** A run of segments may stand for one segment pattern. */
  ghost predicate Stands(pattern: string, run: seq<string>) {
    pattern == "**" || (|run| == 1 && SegmentMeans(pattern, run[0]))
  }

  lemma ChoosesCons(g: seq<string>, p: seq<string>, i: nat, rest: seq<seq<string>>)
    requires g != [] && i <= |p| && Stands(g[0], p[..i]) && Chooses(g[1..], p[i..], rest)
    ensures PathMeans(g, p)
  {
    var choice := [p[..i]] + rest;
    assert choice[1..] == rest;
    assert p[..i] + p[i..] == p;
    assert Chooses(g, p, choice);
  }

  lemma ChoosesHead(g: seq<string>, p: seq<string>, choice: seq<seq<string>>)
    requires g != [] && Chooses(g, p, choice)
    ensures |choice[0]| <= |p| && p[..|choice[0]|] == choice[0]
    ensures Chooses(g[1..], p[|choice[0]|..], choice[1..])
  {
    assert p == choice[0] + Flatten(choice[1..]);
    assert p[|choice[0]|..] == Flatten(choice[1..]);
  }

  lemma {:induction false} MatchHasMeaning(g: seq<string>, p: seq<string>)
    requires SegmentsMatch(g, p)
    ensures PathMeans(g, p)
    decreases |g|
  {
    if g == [] {
      assert Chooses(g, p, []);
    } else {
      var i := 1;
      if g[0] == "**" {
        i :| 0 <= i <= |p| && SegmentsMatch(g[1..], p[i..]);
      }
      MatchHasMeaning(g[1..], p[i..]);
      var rest :| Chooses(g[1..], p[i..], rest);
      ChoosesCons(g, p, i, rest);
    }
  }

  lemma {:induction false} MeaningIsMatched(g: seq<string>, p: seq<string>, choice: seq<seq<string>>)
    requires Chooses(g, p, choice)
    ensures SegmentsMatch(g, p)
    decreases |g|
  {
    if g != [] {
      ChoosesHead(g, p, choice);
      assert Stands(g[0], choice[0]);
      MeaningIsMatched(g[1..], p[|choice[0]|..], choice[1..]);
    }
  }

  lemma SegmentsMatchIsExact(g: seq<string>, p: seq<string>)
    ensures SegmentsMatch(g, p) <==> PathMeans(g, p)
  {
    if SegmentsMatch(g, p) {
      MatchHasMeaning(g, p);
    }
    if choice :| Chooses(g, p, choice) {
      MeaningIsMatched(g, p, choice);
    }
  }

  /** The recursion as it runs: every split point of a `**` is tried in turn. */
  method MatchSegments(g: seq<string>, p: seq<string>) returns (r: bool)
    ensures r <==> PathMeans(g, p)
    decreases |g|
  {
    SegmentsMatchIsExact(g, p);
    if g == [] {
      return p == [];
    }
    if g[0] == "**" {
      for i := 0 to |p| + 1
        invariant forall j :: 0 <= j < i ==> !SegmentsMatch(g[1..], p[j..])
      {
        SegmentsMatchIsExact(g[1..], p[i..]);
        var found := MatchSegments(g[1..], p[i..]);
        if found {
          return true;
        }
      }
      return false;
    }
    if p == [] {
      return false;
    }
    r := SegmentMatches(g[0], p[0]);
    if r {
      SegmentsMatchIsExact(g[1..], p[1..]);
      r := MatchSegments(g[1..], p[1..]);
    }
  }

  function TrimSlashes(s: string): string {
    if s != [] && s[0] == '/' then TrimSlashes(s[1..]) else s
  }

  /** A glob covers a path when its segments do, leading slashes aside on both sides. */
  ghost predicate GlobMeans(glob: string, path: string) {
    PathMeans(Split(TrimSlashes(glob), '/'), Split(TrimSlashes(path), '/'))
  }

  method GlobMatches(glob: string, path: string) returns (r: bool)
    ensures r <==> GlobMeans(glob, path)
  {
    r := MatchSegments(Split(TrimSlashes(glob), '/'), Split(TrimSlashes(path), '/'));
  }
}
