/** Waiting for a forge to reflect a push, and reading what git says of its refs. */
module Ready {
  import opened Helpers
  import opened Text

  // ------------------------------------------------------------ waiting

  /** One look at a repository's branches: an error, or what was listed. */
  datatype Look = Failing | Listing(branches: seq<(string, string)>)

  datatype Wait = Ready | FleetTooSlow | NotReady(failing: bool)

  predicate Reports(look: Look, branch: string, sha: string) {
    look.Listing? && (branch, sha) in look.branches
  }

  const FIRST_PAUSE := 25

  /** Looks are counted from one. */
  function FromOne(took: nat -> nat): nat -> nat {
    (k: nat) => took(k + 1)
  }

  /**
   * Looks until the branch is reported at the commit, on the repository's own clock and the fleet's,
   * in milliseconds. `look(k)` is what the k-th look would say, and takes `took(k)`.
   */
  method WaitOne(branch: string, sha: string, start: nat, perRepo: nat, overall: nat, look: nat -> Look,
        took: nat -> nat, slowest: nat)
    returns (w: Wait, looks: nat, end: nat)
    requires forall k :: took(k) <= slowest
    ensures looks >= 1 && forall k :: 1 <= k < looks ==> !Reports(look(k), branch, sha)
    ensures w.Ready? <==> Reports(look(looks), branch, sha)
    ensures w.FleetTooSlow? <==> !Reports(look(looks), branch, sha) && end >= overall
    ensures w.NotReady? ==> start + perRepo <= end < overall && w.failing == look(looks).Failing?
    ensures end == start + LookClock(FIRST_PAUSE, FromOne(took), looks - 1)
    ensures forall k :: 0 <= k < looks - 1 ==>
      start + LookClock(FIRST_PAUSE, FromOne(took), k) < Min(start + perRepo, overall)
    ensures
      var limit := Min(start + perRepo, overall);
      end <= (if start <= limit then limit + LONGEST_PAUSE else start) + slowest
  {
    hide LookClock, DoubledPause;
    var deadline, now, pause := start + perRepo, start, FIRST_PAUSE;
    looks := 0;
    LooksBegin(FIRST_PAUSE, FromOne(took));
    while true
      invariant forall k :: 1 <= k <= looks ==> !Reports(look(k), branch, sha)
      invariant pause == DoubledPause(FIRST_PAUSE, looks)
      invariant now == start + if looks == 0 then 0
        else LookClock(FIRST_PAUSE, FromOne(took), looks - 1) + DoubledPause(FIRST_PAUSE, looks - 1)
      invariant forall k :: 0 <= k < looks ==>
        start + LookClock(FIRST_PAUSE, FromOne(took), k) < Min(deadline, overall)
      invariant looks > 0 ==> now < Min(deadline, overall) + LONGEST_PAUSE && start < Min(deadline, overall)
      decreases Min(deadline, overall) + LONGEST_PAUSE - now
    {
      LooksGoOn(FIRST_PAUSE, FromOne(took), looks);
      looks := looks + 1;
      var answer := look(looks);
      now := now + took(looks);
      end := now;
      if Reports(answer, branch, sha) {
        return Ready, looks, end;
      }
      if now >= overall {
        return FleetTooSlow, looks, end;
      }
      if now >= deadline {
        return NotReady(answer.Failing?), looks, end;
      }
      now := now + pause;
      pause := Min(2 * pause, LONGEST_PAUSE);
    }
  }

  // ------------------------------------------------------------ what git says

  /** One ref as git lists it; an annotated tag has a second line, peeled, for the commit it points to. */
  datatype Ref = Head(branch: string) | Tag(tag: string) | Peeled(tag: string) | OtherRef(name: string)

  const HEADS := "refs/heads/"
  const TAGS := "refs/tags/"
  const PEEL := "^{}"

  function Written(r: Ref): string {
    match r
    case Head(b) => HEADS + b
    case Tag(t) => TAGS + t
    case Peeled(t) => TAGS + t + PEEL
    case OtherRef(n) => n
  }

  function Recognised(s: string): Ref {
    if HEADS <= s then Head(s[|HEADS|..])
    else if EndsWith(s, PEEL) then
      var t := s[..|s| - |PEEL|];
      if TAGS <= t then Peeled(t[|TAGS|..]) else OtherRef(s)
    else if TAGS <= s then Tag(s[|TAGS|..])
    else OtherRef(s)
  }

  lemma NoCaretNoPeel(t: string)
    requires '^' !in t
    ensures !EndsWith(TAGS + t, PEEL)
  {
    var s := TAGS + t;
    var at := |s| - |PEEL|;
    assert s[at] == if at < |TAGS| then TAGS[at] else t[at - |TAGS|];
    assert s[at] != '^';
    assert s[at..][0] == s[at];
  }

  /** A ref name git allows holds no caret, so a peeled line is never mistaken for a tag's own. */
  lemma RecognisesWhatIsWritten(r: Ref)
    requires !r.OtherRef?
    requires r.Tag? ==> '^' !in r.tag
    ensures Recognised(Written(r)) == r
  {
    var s := Written(r);
    match r
    case Head(b) =>
      assert s[..|HEADS|] == HEADS && s[|HEADS|..] == b;
    case Tag(t) =>
      assert s[5] == 't';
      assert s[..|TAGS|] == TAGS && s[|TAGS|..] == t;
      NoCaretNoPeel(t);
    case Peeled(t) =>
      assert s[5] == 't';
      assert s[|s| - |PEEL|..] == PEEL && s[..|s| - |PEEL|] == TAGS + t;
      assert (TAGS + t)[|TAGS|..] == t;
  }

  datatype Line = Line(sha: string, ref: Ref)

  /** The last line that is about this ref, and the first. */
  function Last(lines: seq<Line>, ref: Ref): Option<string> {
    if lines == [] then None
    else
      var n := |lines| - 1;
      if lines[n].ref == ref then Some(lines[n].sha) else Last(lines[..n], ref)
  }

  function First(lines: seq<Line>, ref: Ref): Option<string> {
    if lines == [] then None
    else
      var n := |lines| - 1;
      var earlier := First(lines[..n], ref);
      if earlier.Some? then earlier else if lines[n].ref == ref then Some(lines[n].sha) else None
  }

  function Entry(m: map<string, string>, name: string): Option<string> {
    if name in m then Some(m[name]) else None
  }

  /** Where a tag points: at its commit if there is a peeled line for it, wherever that stands. */
  function TagAt(lines: seq<Line>, t: string): Option<string> {
    var peeled := Last(lines, Peeled(t));
    if peeled.Some? then peeled else First(lines, Tag(t))
  }

  /** Lines that have been cut at their tab, as the loop takes them. */
  method ParseRefs(lines: seq<(string, string)>) returns (branches: map<string, string>, tags: map<string, string>)
    ensures
      var read := Reading(lines);
      && (forall b :: Entry(branches, b) == Last(read, Head(b)))
      && (forall t :: Entry(tags, t) == TagAt(read, t))
  {
    branches, tags := map[], map[];
    for i := 0 to |lines|
      invariant forall b :: Entry(branches, b) == Last(Reading(lines[..i]), Head(b))
      invariant forall t :: Entry(tags, t) == TagAt(Reading(lines[..i]), t)
    {
      ReadingOneMore(lines, i);
      var (sha, r) := lines[i];
      TagOneMore(Reading(lines[..i]), Line(sha, Recognised(r)));
      match Recognised(r) {
        case Head(b) => branches := branches[b := sha];
        case Peeled(t) => tags := tags[t := sha];
        case Tag(t) =>
          if t !in tags {
            tags := tags[t := sha];
          }
        case OtherRef(_) =>
      }
    }
    assert lines[..|lines|] == lines;
  }

  lemma TagOneMore(lines: seq<Line>, l: Line)
    ensures forall b :: Last(lines + [l], Head(b)) == if l.ref == Head(b) then Some(l.sha) else Last(lines, Head(b))
    ensures forall t :: TagAt(lines + [l], t) == TagAfter(TagAt(lines, t), l, t)
  {
    assert (lines + [l])[..|lines|] == lines;
  }

  function TagAfter(before: Option<string>, l: Line, t: string): Option<string> {
    if l.ref == Peeled(t) || (l.ref == Tag(t) && before.None?) then Some(l.sha) else before
  }

  function Reading(lines: seq<(string, string)>): seq<Line> {
    seq(|lines|, i requires 0 <= i < |lines| => Line(lines[i].0, Recognised(lines[i].1)))
  }

  lemma ReadingOneMore(lines: seq<(string, string)>, n: nat)
    requires n < |lines|
    ensures Reading(lines[..n + 1]) == Reading(lines[..n]) + [Line(lines[n].0, Recognised(lines[n].1))]
    ensures Reading(lines[..n + 1])[..n] == Reading(lines[..n])
  {
  }

  /** What git writes for these lines. */
  function Printed(lines: seq<Line>): seq<(string, string)> {
    seq(|lines|, i requires 0 <= i < |lines| => (lines[i].sha, Written(lines[i].ref)))
  }

  /** One commit per ref and kind of line, as git lists them. */
  ghost predicate Consistent(lines: seq<Line>) {
    forall i, j :: 0 <= i < |lines| && 0 <= j < |lines| && lines[i].ref == lines[j].ref ==> lines[i].sha == lines[j].sha
  }

  lemma {:induction false} OneShaEach(lines: seq<Line>, i: nat)
    requires Consistent(lines) && i < |lines|
    ensures Last(lines, lines[i].ref) == First(lines, lines[i].ref) == Some(lines[i].sha)
  {
    var n := |lines| - 1;
    if i < n {
      OneShaEach(lines[..n], i);
    } else if k :| 0 <= k < n && lines[k].ref == lines[n].ref {
      OneShaEach(lines[..n], k);
    } else {
      NotThere(lines[..n], lines[n].ref);
    }
  }

  lemma {:induction false} NotThere(lines: seq<Line>, ref: Ref)
    requires forall i :: 0 <= i < |lines| ==> lines[i].ref != ref
    ensures Last(lines, ref).None? && First(lines, ref).None?
  {
    if lines != [] {
      NotThere(lines[..|lines| - 1], ref);
    }
  }

  /** Every line but of other refs, and every tag of a name git allows. */
  ghost predicate Listed(lines: seq<Line>) {
    forall k :: 0 <= k < |lines| ==> !lines[k].ref.OtherRef? && (lines[k].ref.Tag? ==> '^' !in lines[k].ref.tag)
  }

  lemma ReadsWhatIsPrinted(lines: seq<Line>)
    requires Listed(lines)
    ensures Reading(Printed(lines)) == lines
  {
    hide Recognised, Written;
    forall k | 0 <= k < |lines| ensures Recognised(Written(lines[k].ref)) == lines[k].ref {
      RecognisesWhatIsWritten(lines[k].ref);
    }
  }

  /**
   * What is parsed is what git listed, in whatever order: every branch at its commit, and every tag
   * at the commit it points to, annotated or not.
   */
  lemma {:induction false} ReadsTheListing(lines: seq<Line>, i: nat)
    requires Consistent(lines) && Listed(lines) && i < |lines|
    ensures Reading(Printed(lines)) == lines
    ensures lines[i].ref.Head? ==> Last(lines, lines[i].ref) == Some(lines[i].sha)
    ensures lines[i].ref.Peeled? ==> TagAt(lines, lines[i].ref.tag) == Some(lines[i].sha)
    ensures lines[i].ref.Tag? && (forall k :: 0 <= k < |lines| ==> lines[k].ref != Peeled(lines[i].ref.tag)) ==>
      TagAt(lines, lines[i].ref.tag) == Some(lines[i].sha)
  {
    hide Recognised, Written, Consistent, Listed, Last, First, Reading, Printed;
    ReadsWhatIsPrinted(lines);
    OneShaEach(lines, i);
    if lines[i].ref.Tag? && forall k :: 0 <= k < |lines| ==> lines[k].ref != Peeled(lines[i].ref.tag) {
      NotThere(lines, Peeled(lines[i].ref.tag));
    }
  }
}
