/** Forgejo's branch-protection globs: the single-backtrack matcher against what `*` and `?` mean. */
module ForgejoGlob {
  import opened Text

  /** The meaning: `*` is any run of characters, `?` exactly one, anything else itself. */
  predicate Matches(p: string, t: string)
    decreases |p| + |t|
  {
    if p == [] then t == []
    else if p[0] == '*' then Matches(p[1..], t) || (t != [] && Matches(p, t[1..]))
    else t != [] && (p[0] == '?' || p[0] == t[0]) && Matches(p[1..], t[1..])
  }

  /** The meaning of a leading star, without recursion: some suffix matches the rest. */
  lemma {:induction false} StarMeansAnyRun(p: string, t: string)
    requires p != [] && p[0] == '*'
    ensures Matches(p, t) <==> exists k :: 0 <= k <= |t| && Matches(p[1..], t[k..])
    decreases |t|
  {
    assert t[0..] == t;
    if t != [] {
      StarMeansAnyRun(p, t[1..]);
      forall k | 0 <= k <= |t| - 1 ensures t[1..][k..] == t[k + 1..] {
      }
      if exists k :: 0 <= k <= |t| && Matches(p[1..], t[k..]) {
        var k :| 0 <= k <= |t| && Matches(p[1..], t[k..]);
        if k > 0 {
          assert t[1..][k - 1..] == t[k..];
        }
      }
    }
  }

  predicate AllStars(p: string) {
    forall i :: 0 <= i < |p| ==> p[i] == '*'
  }

  /** One state of the loop: the two cursors, the last star met and where it started to absorb. */
  predicate State(p: string, t: string, pi: nat, ti: nat, star: Option<nat>, mark: nat) {
    && pi <= |p| && ti <= |t|
    && (star.Some? ==> star.value < pi && p[star.value] == '*' && mark <= ti)
  }

  function AfterStar(star: Option<nat>): nat {
    if star.Some? then star.value + 1 else 0
  }

  /** What the loop answers from a given state, branch by branch. */
  function From(p: string, t: string, pi: nat, ti: nat, star: Option<nat>, mark: nat): bool
    requires State(p, t, pi, ti, star, mark)
    decreases |p| - AfterStar(star), |t| - (if star.Some? then mark else 0), |t| - ti
  {
    if ti == |t| then AllStars(p[pi..])
    else if pi < |p| && (p[pi] == '?' || p[pi] == t[ti]) then From(p, t, pi + 1, ti + 1, star, mark)
    else if pi < |p| && p[pi] == '*' then From(p, t, pi + 1, ti, Some(pi), ti)
    else if star.Some? then From(p, t, star.value + 1, mark + 1, star, mark + 1)
    else false
  }

  function Glob(p: string, t: string): bool {
    From(p, t, 0, 0, None, 0)
  }

  /** The loop itself. It terminates, and answers what `Glob` says. */
  method GlobMatch(p: string, t: string) returns (r: bool)
    ensures r == Glob(p, t)
  {
    var pi: nat, ti: nat, star: Option<nat>, mark: nat := 0, 0, None, 0;
    while ti < |t|
      invariant State(p, t, pi, ti, star, mark)
      invariant From(p, t, pi, ti, star, mark) == Glob(p, t)
      decreases |p| - AfterStar(star), |t| - (if star.Some? then mark else 0), |t| - ti
    {
      if pi < |p| && (p[pi] == '?' || p[pi] == t[ti]) {
        pi, ti := pi + 1, ti + 1;
      } else if pi < |p| && p[pi] == '*' {
        star, mark := Some(pi), ti;
        pi := pi + 1;
      } else if star.Some? {
        pi := star.value + 1;
        mark := mark + 1;
        ti := mark;
      } else {
        return false;
      }
    }
    while pi < |p| && p[pi] == '*'
      invariant pi <= |p|
      invariant AllStars(p[pi..]) == Glob(p, t)
    {
      assert p[pi..] == [p[pi]] + p[pi + 1..];
      pi := pi + 1;
    }
    if pi < |p| {
      assert p[pi..][0] == p[pi];
    }
    r := pi == |p|;
  }

  lemma {:induction false} EmptyText(p: string)
    ensures Matches(p, "") <==> AllStars(p)
  {
    if p != [] {
      EmptyText(p[1..]);
      assert p == [p[0]] + p[1..];
    }
  }

  /** A later suffix matched behind a star is matched by the star from any earlier point. */
  lemma {:induction false} StarAbsorbs(p: string, t: string, i: nat, k: nat)
    requires p != [] && p[0] == '*' && i <= k <= |t|
    requires Matches(p, t[k..])
    ensures Matches(p, t[i..])
    decreases k - i
  {
    if i < k {
      StarAbsorbs(p, t, i + 1, k);
      assert t[i..][1..] == t[i + 1..];
    }
  }

  /** What is still open in a state: the cursor's own match, or a later start for the last star. */
  predicate Open(p: string, t: string, pi: nat, ti: nat, star: Option<nat>, mark: nat)
    requires State(p, t, pi, ti, star, mark)
  {
    Matches(p[pi..], t[ti..]) || Retry(p, t, star, mark)
  }

  predicate Retry(p: string, t: string, star: Option<nat>, mark: nat)
    requires star.Some? ==> star.value < |p|
  {
    star.Some? && exists k :: mark < k <= |t| && Matches(p[star.value + 1..], t[k..])
  }

  /** Soundness, for every text: the loop never answers yes for a text the glob does not mean. */
  lemma {:induction false} LoopIsSound(p: string, t: string, pi: nat, ti: nat, star: Option<nat>, mark: nat)
    requires State(p, t, pi, ti, star, mark)
    requires From(p, t, pi, ti, star, mark)
    ensures Open(p, t, pi, ti, star, mark)
    decreases |p| - AfterStar(star), |t| - (if star.Some? then mark else 0), |t| - ti
  {
    if ti == |t| {
      EmptyText(p[pi..]);
    } else if pi < |p| && (p[pi] == '?' || p[pi] == t[ti]) {
      LoopIsSound(p, t, pi + 1, ti + 1, star, mark);
      assert p[pi..][1..] == p[pi + 1..] && t[ti..][1..] == t[ti + 1..];
      if Matches(p[pi + 1..], t[ti + 1..]) && p[pi] == '*' {
        assert Matches(p[pi..], t[ti + 1..]);
      }
    } else if pi < |p| && p[pi] == '*' {
      LoopIsSound(p, t, pi + 1, ti, Some(pi), ti);
      assert p[pi..][1..] == p[pi + 1..];
      if !Matches(p[pi + 1..], t[ti..]) {
        var k :| ti < k <= |t| && Matches(p[pi + 1..], t[k..]);
        assert Matches(p[pi..], t[k..]);
        StarAbsorbs(p[pi..], t, ti, k);
      }
    } else {
      LoopIsSound(p, t, star.value + 1, mark + 1, star, mark + 1);
    }
  }

  /** Since the last star, pattern and text have advanced together over characters that are no star. */
  predicate InStep(p: string, t: string, pi: nat, ti: nat, star: Option<nat>, mark: nat)
    requires State(p, t, pi, ti, star, mark)
  {
    star.Some? ==>
      && ti - mark == pi - (star.value + 1)
      && forall j :: star.value < j < pi ==> p[j] != '*'
  }

  /** Stepping over `n` pattern characters that are no star consumes exactly `n` characters. */
  lemma {:induction false} SkipLiterals(p: string, t: string, i: nat, k: nat, n: nat)
    requires i + n <= |p| && k <= |t|
    requires forall j :: i <= j < i + n ==> p[j] != '*'
    requires Matches(p[i..], t[k..])
    ensures k + n <= |t| && Matches(p[i + n..], t[k + n..])
    decreases n
  {
    if n > 0 {
      assert p[i..][1..] == p[i + 1..] && t[k..] != [] && t[k..][1..] == t[k + 1..];
      SkipLiterals(p, t, i + 1, k + 1, n - 1);
    }
  }

  /** One backtrack point is enough: an older star offers nothing the newest one does not. */
  lemma NewestStarSuffices(p: string, t: string, pi: nat, ti: nat, star: Option<nat>, mark: nat)
    requires State(p, t, pi, ti, star, mark) && InStep(p, t, pi, ti, star, mark)
    requires pi < |p| && p[pi] == '*' && Retry(p, t, star, mark)
    ensures Matches(p[pi..], t[ti..])
  {
    var k :| mark < k <= |t| && Matches(p[star.value + 1..], t[k..]);
    SkipLiterals(p, t, star.value + 1, k, pi - (star.value + 1));
    StarAbsorbs(p[pi..], t, ti, k + (ti - mark));
  }

  lemma OpenAtStar(p: string, t: string, pi: nat, ti: nat, star: Option<nat>, mark: nat)
    requires State(p, t, pi, ti, star, mark) && InStep(p, t, pi, ti, star, mark)
    requires pi < |p| && p[pi] == '*' && Open(p, t, pi, ti, star, mark)
    ensures Open(p, t, pi + 1, ti, Some(pi), ti)
  {
    hide Matches, InStep;
    if Retry(p, t, star, mark) {
      NewestStarSuffices(p, t, pi, ti, star, mark);
    }
    StarMeansAnyRun(p[pi..], t[ti..]);
    var k :| 0 <= k <= |t[ti..]| && Matches(p[pi..][1..], t[ti..][k..]);
    assert p[pi..][1..] == p[pi + 1..] && t[ti..][k..] == t[ti + k..];
  }

  lemma OpenAtEnd(p: string, t: string, pi: nat, star: Option<nat>, mark: nat)
    requires State(p, t, pi, |t|, star, mark) && InStep(p, t, pi, |t|, star, mark)
    requires Open(p, t, pi, |t|, star, mark)
    ensures AllStars(p[pi..])
  {
    if Retry(p, t, star, mark) {
      var k :| mark < k <= |t| && Matches(p[star.value + 1..], t[k..]);
      SkipLiterals(p, t, star.value + 1, k, pi - (star.value + 1));
    }
    EmptyText(p[pi..]);
  }

  lemma OpenAtCharacter(p: string, t: string, pi: nat, ti: nat, star: Option<nat>, mark: nat)
    requires '*' !in t
    requires State(p, t, pi, ti, star, mark) && InStep(p, t, pi, ti, star, mark)
    requires ti < |t| && pi < |p| && (p[pi] == '?' || p[pi] == t[ti]) && Open(p, t, pi, ti, star, mark)
    ensures Open(p, t, pi + 1, ti + 1, star, mark) && InStep(p, t, pi + 1, ti + 1, star, mark)
  {
    assert t[ti] in t;
    assert p[pi..][1..] == p[pi + 1..] && t[ti..][1..] == t[ti + 1..];
  }

  lemma OpenAtMismatch(p: string, t: string, pi: nat, ti: nat, star: Option<nat>, mark: nat)
    requires State(p, t, pi, ti, star, mark) && Open(p, t, pi, ti, star, mark)
    requires ti < |t| && (pi == |p| || (p[pi] != '?' && p[pi] != t[ti] && p[pi] != '*'))
    ensures star.Some? && Open(p, t, star.value + 1, mark + 1, star, mark + 1)
  {
    assert !Matches(p[pi..], t[ti..]);
    var k :| mark < k <= |t| && Matches(p[star.value + 1..], t[k..]);
  }

  /** Completeness for a text without a literal star. */
  lemma {:induction false} LoopIsComplete(p: string, t: string, pi: nat, ti: nat, star: Option<nat>, mark: nat)
    requires '*' !in t
    requires State(p, t, pi, ti, star, mark) && InStep(p, t, pi, ti, star, mark)
    requires Open(p, t, pi, ti, star, mark)
    ensures From(p, t, pi, ti, star, mark)
    decreases |p| - AfterStar(star), |t| - (if star.Some? then mark else 0), |t| - ti
  {
    hide Matches, Open, AllStars;
    if ti == |t| {
      OpenAtEnd(p, t, pi, star, mark);
    } else if pi < |p| && (p[pi] == '?' || p[pi] == t[ti]) {
      OpenAtCharacter(p, t, pi, ti, star, mark);
      LoopIsComplete(p, t, pi + 1, ti + 1, star, mark);
    } else if pi < |p| && p[pi] == '*' {
      OpenAtStar(p, t, pi, ti, star, mark);
      LoopIsComplete(p, t, pi + 1, ti, Some(pi), ti);
    } else {
      OpenAtMismatch(p, t, pi, ti, star, mark);
      LoopIsComplete(p, t, star.value + 1, mark + 1, star, mark + 1);
    }
  }

  /** For a text without a star the loop answers exactly what the glob means. */
  lemma GlobIsExact(p: string, t: string)
    ensures Glob(p, t) ==> Matches(p, t)
    ensures '*' !in t ==> (Glob(p, t) <==> Matches(p, t))
  {
    assert p[0..] == p && t[0..] == t;
    if Glob(p, t) {
      LoopIsSound(p, t, 0, 0, None, 0);
    }
    if '*' !in t && Matches(p, t) {
      LoopIsComplete(p, t, 0, 0, None, 0);
    }
  }

  function Repeat(c: char, n: nat): (r: string)
    ensures |r| == n && forall i :: 0 <= i < n ==> r[i] == c
  {
    seq(n, i => c)
  }

  lemma {:induction false} MarksMatch(t: string)
    ensures Matches(Repeat('?', |t|), t)
  {
    if t != [] {
      MarksMatch(t[1..]);
      assert Repeat('?', |t|)[1..] == Repeat('?', |t| - 1);
    }
  }

  /** The pattern that fails for a text whose first star is at `i`: a mark each, and one star there. */
  function Defeat(t: string, i: nat): string
    requires i < |t|
  {
    Repeat('?', i) + "*" + Repeat('?', |t| - i)
  }

  lemma {:induction false} DefeatMatches(t: string, i: nat, n: nat)
    requires n <= i < |t|
    ensures Matches(Defeat(t, i)[n..], t[n..])
    decreases i - n
  {
    var d := Defeat(t, i);
    assert d[n..][1..] == d[n + 1..] && t[n..][1..] == t[n + 1..];
    if n < i {
      DefeatMatches(t, i, n + 1);
    } else {
      assert d[i + 1..] == Repeat('?', |t[i..]|);
      MarksMatch(t[i..]);
    }
  }

  lemma {:induction false} DefeatLoops(t: string, i: nat, n: nat)
    requires i < |t| && t[i] == '*' && n <= |t|
    ensures !From(Defeat(t, i), t, n, n, None, 0)
    decreases |t| - n
  {
    var d := Defeat(t, i);
    if n < |t| {
      DefeatLoops(t, i, n + 1);
    } else {
      assert d[n..][0] == '?';
    }
  }

  /**
   * The exact condition, read off the text alone: the loop is right for every pattern if and only
   * if the text holds no star. Equality is tested before the star, so a star in the text swallows
   * a star of the pattern.
   */
  lemma RightForEveryPattern(t: string)
    ensures (forall p :: Glob(p, t) == Matches(p, t)) <==> '*' !in t
  {
    if '*' in t {
      var i :| 0 <= i < |t| && t[i] == '*';
      DefeatMatches(t, i, 0);
      DefeatLoops(t, i, 0);
      assert Defeat(t, i)[0..] == Defeat(t, i) && t[0..] == t;
      assert Glob(Defeat(t, i), t) != Matches(Defeat(t, i), t);
    } else {
      forall p ensures Glob(p, t) == Matches(p, t) {
        GlobIsExact(p, t);
      }
    }
  }
}
