/** reset: the ordered repair of one repository, what it reaches, and what survives being killed. */
module Reset {
  import opened Text
  import opened ForgeModel
  import opened Compare

  function Push(want: LockRepo): Step {
    PushBaseline(want.defaultBranch, want.tags)
  }

  function Head(s: State): seq<Step>
    requires s.live.Some?
  {
    (if s.live.value.archived then [UNARCHIVE] else [])
    + (if s.refsDirty then [LiftIfRefused(Push(s.want)), Push(s.want)] else [])
    + (if s.refsDirty && !s.want.empty then [WaitPushed(s.want.defaultBranch, s.want.baseline)] else [])
  }

  function SettingsOf(want: LockRepo): Step {
    UpdateSettings(Settings(if want.empty then None else Some(want.defaultBranch), Some(want.visibility), None))
  }

  function Closes(ns: seq<Request>): seq<Step> {
    seq(|ns|, i requires 0 <= i < |ns| => CloseRequest(ns[i]))
  }

  function BranchDeletes(bs: seq<string>): seq<Step> {
    seq(|bs|, i requires 0 <= i < |bs| => DeleteBranch(bs[i]))
  }

  function TagDeletes(ts: seq<string>): seq<Step> {
    seq(|ts|, i requires 0 <= i < |ts| => DeleteTag(ts[i]))
  }

  function Tail(s: State): seq<Step> {
    [SetTopics(s.want.topics)] + (if s.want.archived then [ARCHIVE] else [])
  }

  /** Every write of one reset, in order, read off the comparison alone. */
  function ResetSteps(s: State): seq<Step>
    requires s.live.Some?
  {
    Head(s) + [SettingsOf(s.want)] + Closes(s.requests) + BranchDeletes(s.extraBranches) + TagDeletes(s.extraTags)
    + Tail(s)
  }

  // ------------------------------------------------------------ the writes, one loop at a time

  lemma {:induction false} ClosesRun(caps: Caps, ns: seq<Request>, r: Repo)
    requires !r.archived && Enumerates(ns, set n | n in ns) && (forall n :: n in ns ==> n in r.requests)
    ensures Run(caps, Closes(ns), r) == Outcome(true, r.(requests := r.requests - set n | n in ns))
  {
    if ns == [] {
      assert r.requests - (set n | n in ns) == r.requests;
    } else {
      assert Closes(ns)[1..] == Closes(ns[1..]);
      var next := r.(requests := r.requests - {ns[0]});
      forall n | n in ns[1..] ensures n in next.requests {
        var i :| 0 <= i < |ns[1..]| && ns[1..][i] == n;
        assert ns[0] != ns[i + 1];
      }
      ClosesRun(caps, ns[1..], next);
      assert r.requests - {ns[0]} - (set n | n in ns[1..]) == r.requests - set n | n in ns;
    }
  }

  lemma {:induction false} BranchDeletesRun(caps: Caps, bs: seq<string>, r: Repo)
    requires !r.archived && Enumerates(bs, set b | b in bs) && (forall b :: b in bs ==> Removable(r, b))
    ensures Run(caps, BranchDeletes(bs), r) == Outcome(true, r.(branches := r.branches - set b | b in bs))
  {
    if bs == [] {
      assert r.branches - (set b | b in bs) == r.branches;
    } else {
      assert BranchDeletes(bs)[1..] == BranchDeletes(bs[1..]);
      var next := r.(branches := r.branches - {bs[0]});
      forall b | b in bs[1..] ensures Removable(next, b) {
        var i :| 0 <= i < |bs[1..]| && bs[1..][i] == b;
        assert bs[0] != bs[i + 1] && bs[i + 1] in bs;
        assert Removable(r, b);
      }
      BranchDeletesRun(caps, bs[1..], next);
      assert r.branches - {bs[0]} - (set b | b in bs[1..]) == r.branches - set b | b in bs;
    }
  }

  lemma {:induction false} TagDeletesRun(caps: Caps, ts: seq<string>, r: Repo)
    requires !r.archived && Enumerates(ts, set t | t in ts) && (forall t :: t in ts ==> t in r.tags)
    ensures Run(caps, TagDeletes(ts), r) == Outcome(true, r.(tags := r.tags - set t | t in ts))
  {
    if ts == [] {
      assert r.tags - (set t | t in ts) == r.tags;
    } else {
      assert TagDeletes(ts)[1..] == TagDeletes(ts[1..]);
      var next := r.(tags := r.tags - {ts[0]});
      forall t | t in ts[1..] ensures t in next.tags {
        var i :| 0 <= i < |ts[1..]| && ts[1..][i] == t;
        assert ts[0] != ts[i + 1];
      }
      TagDeletesRun(caps, ts[1..], next);
      assert r.tags - {ts[0]} - (set t | t in ts[1..]) == r.tags - set t | t in ts;
    }
  }

  // ------------------------------------------------------------ the head: unarchive, push, wait

  function Rewound(want: LockRepo, r: Repo): Repo {
    var open := if Governed(r, want.defaultBranch) then Lifted(r, want.defaultBranch) else r;
    open.(branches := r.branches[want.defaultBranch := want.baseline],
          tags := Tagged(r.tags, want.tags, want.baseline), pending := false, empty := false)
  }

  function AfterHead(s: State): Repo
    requires s.live.Some?
  {
    var r := Unarchived(s.live.value);
    if s.refsDirty then Rewound(s.want, r) else r
  }

  lemma PushRuns(caps: Caps, want: LockRepo, r: Repo)
    requires '*' !in want.defaultBranch && !r.archived
    ensures
      var steps := [LiftIfRefused(Push(want)), Push(want), WaitPushed(want.defaultBranch, want.baseline)];
      if BaselineIntact(want, r) then Run(caps, steps, r) == Outcome(true, Rewound(want, r))
      else !Run(caps, steps, r).ok
  {
    var db := want.defaultBranch;
    var lift, push, wait := LiftIfRefused(Push(want)), Push(want), WaitPushed(db, want.baseline);
    LiftClearsTheWay(r, db);
    assert [lift, push, wait] == [lift] + ([push] + [wait]);
    RunAppend(caps, [lift], [push] + [wait], r);
    RunOne(caps, lift, r);
    var r1 := Do(caps, lift, r).repo;
    RunAppend(caps, [push], [wait], r1);
    RunOne(caps, push, r1);
    var r2 := Do(caps, push, r1).repo;
    RunOne(caps, wait, r2);
    assert r1.tags == r.tags && r1.branches == r.branches;
  }

  lemma HeadRuns(caps: Caps, s: State)
    requires s.live.Some? && '*' !in s.want.defaultBranch && (s.refsDirty ==> !s.want.empty)
    ensures
      if s.refsDirty && !BaselineIntact(s.want, s.live.value) then !Run(caps, Head(s), s.live.value).ok
      else Run(caps, Head(s), s.live.value) == Outcome(true, AfterHead(s))
  {
    var r := s.live.value;
    var first := if r.archived then [UNARCHIVE] else [];
    var rest := if s.refsDirty then
      [LiftIfRefused(Push(s.want)), Push(s.want), WaitPushed(s.want.defaultBranch, s.want.baseline)] else [];
    assert Head(s) == first + rest;
    RunAppend(caps, first, rest, r);
    RunOne(caps, UNARCHIVE, r);
    assert Run(caps, first, r) == Outcome(true, Unarchived(r));
    if s.refsDirty {
      PushRuns(caps, s.want, Unarchived(r));
    }
  }

  // ------------------------------------------------------------ the whole reset

  function WithSettings(caps: Caps, want: LockRepo, r: Repo): Repo {
    Effect(caps, SettingsOf(want), r)
  }

  function AfterReset(caps: Caps, s: State): Repo
    requires s.live.Some?
  {
    var r := WithSettings(caps, s.want, AfterHead(s));
    r.(requests := r.requests - (set n | n in s.requests),
       branches := r.branches - (set b | b in s.extraBranches),
       tags := r.tags - (set t | t in s.extraTags),
       topics := if caps.topics then s.want.topics else r.topics,
       archived := s.want.archived)
  }

  lemma TailRuns(caps: Caps, s: State, r: Repo)
    requires !r.archived && !r.pending
    ensures Run(caps, Tail(s), r) ==
      Outcome(true, r.(topics := if caps.topics then s.want.topics else r.topics, archived := s.want.archived))
  {
    var topics := SetTopics(s.want.topics);
    RunAppend(caps, [topics], if s.want.archived then [ARCHIVE] else [], r);
    RunOne(caps, topics, r);
    RunOne(caps, ARCHIVE, Do(caps, topics, r).repo);
  }

  /** What the loops after the settings write rely on: everything listed can go by then. */
  ghost predicate Deletable(s: State, r: Repo) {
    && !r.archived && !r.pending
    && Enumerates(s.requests, set n | n in s.requests)
    && (forall n :: n in s.requests ==> n in r.requests)
    && (s.extraBranches != [] ==> forall n :: n in r.requests ==> n in s.requests)
    && Enumerates(s.extraBranches, set b | b in s.extraBranches)
    && (forall b :: b in s.extraBranches ==> b in r.branches && b != r.defaultBranch)
    && Enumerates(s.extraTags, set t | t in s.extraTags)
    && (forall t :: t in s.extraTags ==> t in r.tags)
  }

  lemma RestRuns(caps: Caps, s: State, r: Repo)
    requires Deletable(s, r)
    ensures Run(caps, Closes(s.requests) + BranchDeletes(s.extraBranches) + TagDeletes(s.extraTags) + Tail(s), r) ==
      Outcome(true, r.(requests := r.requests - (set n | n in s.requests),
                       branches := r.branches - (set b | b in s.extraBranches),
                       tags := r.tags - (set t | t in s.extraTags),
                       topics := if caps.topics then s.want.topics else r.topics,
                       archived := s.want.archived))
  {
    var a, b, c, d := Closes(s.requests), BranchDeletes(s.extraBranches), TagDeletes(s.extraTags), Tail(s);
    RunAppend(caps, a + b + c, d, r);
    RunAppend(caps, a + b, c, r);
    RunAppend(caps, a, b, r);
    ClosesRun(caps, s.requests, r);
    var r1 := r.(requests := r.requests - set n | n in s.requests);
    assert forall x :: x in s.extraBranches ==> Removable(r1, x);
    BranchDeletesRun(caps, s.extraBranches, r1);
    var r2 := r1.(branches := r1.branches - set x | x in s.extraBranches);
    TagDeletesRun(caps, s.extraTags, r2);
    TailRuns(caps, s, r2.(tags := r2.tags - set t | t in s.extraTags));
  }

  /**
   * What the forge must hold for a reset to go through. It is about unreadable repositories only:
   * where the refs were read, nothing more is asked.
   */
  predicate Passes(sb: Sandbox, want: LockRepo, r: Repo) {
    !Blind(sb, r) || want.empty ||
    (if want.archived then want.defaultBranch in r.branches else BaselineIntact(want, r))
  }

  lemma RefusedInHead(caps: Caps, s: State)
    requires s.live.Some? && '*' !in s.want.defaultBranch && (s.refsDirty ==> !s.want.empty)
    requires s.refsDirty && !BaselineIntact(s.want, s.live.value)
    ensures !Run(caps, ResetSteps(s), s.live.value).ok
  {
    var rest := [SettingsOf(s.want)] + Closes(s.requests) + BranchDeletes(s.extraBranches)
      + TagDeletes(s.extraTags) + Tail(s);
    HeadRuns(caps, s);
    assert ResetSteps(s) == Head(s) + rest;
    RunAppend(caps, Head(s), rest, s.live.value);
  }

  lemma RunsPastHead(caps: Caps, s: State)
    requires s.live.Some? && '*' !in s.want.defaultBranch && (s.refsDirty ==> !s.want.empty)
    requires s.refsDirty ==> BaselineIntact(s.want, s.live.value)
    requires Deletable(s, WithSettings(caps, s.want, AfterHead(s)))
    ensures Run(caps, ResetSteps(s), s.live.value).ok <==>
      (s.want.empty || s.want.defaultBranch in AfterHead(s).branches)
    ensures Run(caps, ResetSteps(s), s.live.value).ok ==>
      Run(caps, ResetSteps(s), s.live.value).repo == AfterReset(caps, s)
  {
    var settings := SettingsOf(s.want);
    var rest := Closes(s.requests) + BranchDeletes(s.extraBranches) + TagDeletes(s.extraTags) + Tail(s);
    HeadRuns(caps, s);
    assert ResetSteps(s) == Head(s) + ([settings] + rest);
    RunAppend(caps, Head(s), [settings] + rest, s.live.value);
    RunAppend(caps, [settings], rest, AfterHead(s));
    RunOne(caps, settings, AfterHead(s));
    RestRuns(caps, s, WithSettings(caps, s.want, AfterHead(s)));
  }

  /**
   * The order of the writes is right: from every state the comparison does not guard, a reset
   * meets no refusal exactly when `Passes`, whatever order the comparison listed things in.
   */
  lemma ResetMeetsNoRefusal(sb: Sandbox, want: LockRepo, r: Repo, s: State)
    requires WellFormed(want) && Reports(sb, want, Some(r), s) && s.guards == []
    ensures Run(sb.caps, ResetSteps(s), r).ok <==> Passes(sb, want, r)
    ensures Passes(sb, want, r) ==> Run(sb.caps, ResetSteps(s), r).repo == AfterReset(sb.caps, s)
  {
    if s.refsDirty && !BaselineIntact(want, r) {
      RefusedInHead(sb.caps, s);
    } else {
      ListedIsDeletable(sb, want, r, s);
      RunsPastHead(sb.caps, s);
    }
  }

  lemma ListedIsDeletable(sb: Sandbox, want: LockRepo, r: Repo, s: State)
    requires WellFormed(want) && Reports(sb, want, Some(r), s) && s.guards == []
    requires s.refsDirty ==> BaselineIntact(want, r)
    ensures Deletable(s, WithSettings(sb.caps, want, AfterHead(s)))
  {
    if !RefsRead(sb, want, Some(r)) {
      NothingListed(sb, want, r, s);
    }
  }

  // ------------------------------------------------------------ what a reset reaches

  /** The marker is there, the baseline tag is where it was, and what holds commits reads so. */
  predicate GuardFree(sb: Sandbox, want: LockRepo, r: Repo) {
    && IsOurs(sb, r)
    && (if want.empty then r.empty else !r.empty && BaselineIntact(want, r))
  }

  ghost predicate NeedsPush(want: LockRepo, r: Repo) {
    !want.empty && (TagsDirty(want, r) || BranchDirty(want, r))
  }

  /** Where a repository belongs: all of it that the lock pins down, the rest as it is. */
  ghost function Target(sb: Sandbox, want: LockRepo, r: Repo): Repo {
    var t := r.(
      archived := want.archived,
      visibility := if sb.caps.visibility then want.visibility else r.visibility,
      topics := if sb.caps.topics then want.topics else r.topics,
      pending := false,
      rules := if NeedsPush(want, r) && Governed(r, want.defaultBranch)
               then Lifted(r, want.defaultBranch).rules else r.rules);
    if want.empty then t
    else t.(defaultBranch := want.defaultBranch, branches := map[want.defaultBranch := want.baseline],
            tags := BaselineTags(want), requests := map[])
  }

  lemma AfterResetTags(sb: Sandbox, want: LockRepo, r: Repo, s: State)
    requires WellFormed(want) && Reports(sb, want, Some(r), s) && s.guards == []
    requires GuardFree(sb, want, r) && !Blind(sb, r) && !want.empty
    ensures AfterReset(sb.caps, s).tags == BaselineTags(want)
  {
    var tags := AfterReset(sb.caps, s).tags;
    assert tags == AfterHead(s).tags - set t | t in s.extraTags;
    assert AfterHead(s).tags == if s.refsDirty then Tagged(r.tags, want.tags, want.baseline) else r.tags;
    forall x ensures x in tags <==> x in want.tags + [BASELINE_TAG] {
      assert !s.refsDirty && x in want.tags ==> !TagAmiss(want, r, want.tags, x);
      assert x in s.extraTags <==> x in ExtraTags(want, r);
    }
    forall x | x in tags ensures tags[x] == want.baseline {
      assert !s.refsDirty && x in want.tags ==> !TagAmiss(want, r, want.tags, x);
    }
  }

  lemma AfterResetBranches(sb: Sandbox, want: LockRepo, r: Repo, s: State)
    requires WellFormed(want) && Reports(sb, want, Some(r), s) && s.guards == []
    requires GuardFree(sb, want, r) && !Blind(sb, r) && !want.empty
    ensures AfterReset(sb.caps, s).branches == map[want.defaultBranch := want.baseline]
    ensures AfterReset(sb.caps, s).requests == map[]
  {
    hide Governed, TagsDirty;
    var branches := if s.refsDirty then r.branches[want.defaultBranch := want.baseline] else r.branches;
    assert AfterReset(sb.caps, s).branches == branches - set b | b in s.extraBranches;
    OnlyDefaultIsLeft(want, branches, s.extraBranches);
    assert r.requests - (set n | n in s.requests) == map[];
  }

  lemma OnlyDefaultIsLeft(want: LockRepo, branches: map<string, string>, extra: seq<string>)
    requires want.defaultBranch in branches && branches[want.defaultBranch] == want.baseline
    requires forall b :: b in extra <==> b in branches && b != want.defaultBranch
    ensures branches - (set b | b in extra) == map[want.defaultBranch := want.baseline]
  {
  }

  /** Without a readable ref there is nothing on the lists. */
  lemma NothingListed(sb: Sandbox, want: LockRepo, r: Repo, s: State)
    requires Reports(sb, want, Some(r), s) && s.guards == [] && !RefsRead(sb, want, Some(r))
    ensures s.requests == [] && s.extraBranches == [] && s.extraTags == []
  {
    FirstIsIn(s.requests);
    FirstIsIn(s.extraBranches);
    FirstIsIn(s.extraTags);
  }

  lemma AfterResetRules(sb: Sandbox, want: LockRepo, r: Repo, s: State)
    requires WellFormed(want) && Reports(sb, want, Some(r), s) && s.guards == []
    requires GuardFree(sb, want, r) && !Blind(sb, r)
    ensures AfterReset(sb.caps, s).rules == Target(sb, want, r).rules
    ensures AfterReset(sb.caps, s).empty == r.empty
  {
    var u := Unarchived(r);
    assert s.refsDirty == NeedsPush(want, r);
    assert Governed(u, want.defaultBranch) == Governed(r, want.defaultBranch);
    assert Lifted(u, want.defaultBranch).rules == Lifted(r, want.defaultBranch).rules;
  }

  lemma ResetReachesTarget(sb: Sandbox, want: LockRepo, r: Repo, s: State)
    requires WellFormed(want) && Reports(sb, want, Some(r), s) && s.guards == []
    requires GuardFree(sb, want, r) && !Blind(sb, r)
    ensures AfterReset(sb.caps, s) == Target(sb, want, r)
  {
    var got, t := AfterReset(sb.caps, s), Target(sb, want, r);
    AfterResetRules(sb, want, r, s);
    if want.empty {
      NothingListed(sb, want, r, s);
      assert got.branches == r.branches && got.tags == r.tags && got.requests == r.requests;
    } else {
      AfterResetTags(sb, want, r, s);
      AfterResetBranches(sb, want, r, s);
    }
  }

  lemma TargetIsAtBaseline(sb: Sandbox, want: LockRepo, r: Repo)
    requires WellFormed(want) && GuardFree(sb, want, r)
    ensures AtBaseline(sb, want, Target(sb, want, r)) && GuardFree(sb, want, Target(sb, want, r))
  {
    SortKeepsSorted(want.topics);
    assert BASELINE_TAG in want.tags + [BASELINE_TAG];
  }

  lemma CleanWhereItBelongs(sb: Sandbox, want: LockRepo, r: Repo)
    requires WellFormed(want) && GuardFree(sb, want, r) && AtBaseline(sb, want, r)
    ensures Clean(sb, want, r)
  {
    if Blind(sb, r) {
      assert !RefsRead(sb, want, Some(r)) || !Blind(sb, r);
    } else {
      CleanIsAtBaseline(sb, want, r);
    }
  }

  /**
   * Reset converges: from every readable repository the comparison does not guard, the steps go
   * through, reach exactly the target, and a second comparison finds neither guard nor drift.
   */
  lemma ResetConverges(sb: Sandbox, want: LockRepo, r: Repo, s: State)
    requires WellFormed(want) && Reports(sb, want, Some(r), s) && s.guards == []
    requires !Blind(sb, r)
    ensures Run(sb.caps, ResetSteps(s), r) == Outcome(true, Target(sb, want, r))
    ensures Clean(sb, want, Target(sb, want, r))
  {
    assert GuardFree(sb, want, r);
    ResetMeetsNoRefusal(sb, want, r, s);
    ResetReachesTarget(sb, want, r, s);
    TargetIsAtBaseline(sb, want, r);
    CleanWhereItBelongs(sb, want, Target(sb, want, r));
  }

  /** A readable repository without drift is already where it belongs. */
  lemma CleanIsTarget(sb: Sandbox, want: LockRepo, r: Repo)
    requires WellFormed(want) && GuardFree(sb, want, r) && AtBaseline(sb, want, r)
    ensures Canonical(Target(sb, want, r)) == Canonical(r)
  {
    hide Governed, Lifted;
    SortKeepsSorted(want.topics);
    if !want.empty {
      forall t ensures !TagAmiss(want, r, want.tags, t) {
        assert t in want.tags ==> t in want.tags + [BASELINE_TAG];
      }
      assert !NeedsPush(want, r);
    }
    hide NeedsPush, Sort, AtBaseline;
  }

  // ------------------------------------------------------------ killed anywhere, and run again

  /** A write that can only move a repository towards its target. */
  predicate Shape(want: LockRepo, step: Step) {
    match step
    case UpdateSettings(u) =>
      && (u.defaultBranch.Some? ==> !want.empty && u.defaultBranch.value == want.defaultBranch)
      && (u.visibility.Some? ==> u.visibility.value == want.visibility)
    case PushBaseline(_, _) => step == Push(want) && !want.empty
    case LiftIfRefused(push) => push == Push(want) && !want.empty
    case WaitPushed(_, _) => !want.empty
    case CloseRequest(_) => !want.empty
    case DeleteBranch(b) => !want.empty && b != want.defaultBranch
    case DeleteTag(t) => !want.empty && t != BASELINE_TAG && t !in want.tags
    case SetTopics(ts) => ts == want.topics
    case _ => false
  }

  lemma SameRefsSameNeed(want: LockRepo, a: Repo, b: Repo)
    requires forall t :: t in want.tags ==>
      (t in a.tags <==> t in b.tags) && (t in a.tags ==> a.tags[t] == b.tags[t])
    requires want.defaultBranch in a.branches <==> want.defaultBranch in b.branches
    requires want.defaultBranch in a.branches ==> a.branches[want.defaultBranch] == b.branches[want.defaultBranch]
    ensures NeedsPush(want, a) == NeedsPush(want, b)
  {
    forall t ensures TagAmiss(want, a, want.tags, t) == TagAmiss(want, b, want.tags, t) {
    }
  }

  lemma PushKeepsTarget(sb: Sandbox, want: LockRepo, r: Repo)
    requires WellFormed(want) && GuardFree(sb, want, r) && !want.empty
    ensures GuardFree(sb, want, Do(sb.caps, Push(want), r).repo)
    ensures Target(sb, want, Do(sb.caps, Push(want), r).repo) == Target(sb, want, r)
  {
    var next := Do(sb.caps, Push(want), r).repo;
    if Do(sb.caps, Push(want), r).ok {
      assert next.tags[BASELINE_TAG] == want.baseline;
      forall t ensures !TagAmiss(want, next, want.tags, t) {
      }
      assert !NeedsPush(want, next);
    }
  }

  lemma LiftKeepsTarget(sb: Sandbox, want: LockRepo, r: Repo)
    requires WellFormed(want) && GuardFree(sb, want, r) && NeedsPush(want, r)
    ensures GuardFree(sb, want, Do(sb.caps, LiftIfRefused(Push(want)), r).repo)
    ensures Target(sb, want, Do(sb.caps, LiftIfRefused(Push(want)), r).repo) == Target(sb, want, r)
  {
    var next := Do(sb.caps, LiftIfRefused(Push(want)), r).repo;
    SameRefsSameNeed(want, r, next);
    LiftClearsTheWay(r, want.defaultBranch);
  }

  /** What the target is made of, apart from what the lock overrides. */
  ghost predicate SameGround(sb: Sandbox, want: LockRepo, a: Repo, b: Repo) {
    && a.description == b.description && a.rules == b.rules && a.empty == b.empty
    && NeedsPush(want, a) == NeedsPush(want, b)
    && (!sb.caps.visibility ==> a.visibility == b.visibility)
    && (!sb.caps.topics ==> a.topics == b.topics)
    && (BaselineIntact(want, a) ==> BaselineIntact(want, b))
    && (want.empty ==>
          && a.defaultBranch == b.defaultBranch && a.branches == b.branches
          && a.tags == b.tags && a.requests == b.requests)
  }

  lemma SameGroundSameTarget(sb: Sandbox, want: LockRepo, a: Repo, b: Repo)
    requires GuardFree(sb, want, a) && SameGround(sb, want, a, b)
    ensures GuardFree(sb, want, b) && Target(sb, want, b) == Target(sb, want, a)
  {
    assert Governed(a, want.defaultBranch) == Governed(b, want.defaultBranch);
    assert Lifted(a, want.defaultBranch).rules == Lifted(b, want.defaultBranch).rules;
  }

  lemma SmallStepKeepsTarget(sb: Sandbox, want: LockRepo, step: Step, r: Repo)
    requires WellFormed(want) && GuardFree(sb, want, r) && Shape(want, step)
    requires !step.PushBaseline? && !step.LiftIfRefused?
    ensures GuardFree(sb, want, Do(sb.caps, step, r).repo)
    ensures Target(sb, want, Do(sb.caps, step, r).repo) == Target(sb, want, r)
  {
    var next := Do(sb.caps, step, r).repo;
    SameRefsSameNeed(want, r, next);
    assert SameGround(sb, want, r, next);
    SameGroundSameTarget(sb, want, r, next);
  }

  lemma StepKeepsTarget(sb: Sandbox, want: LockRepo, step: Step, r: Repo)
    requires WellFormed(want) && GuardFree(sb, want, r) && Shape(want, step)
    requires step.LiftIfRefused? ==> NeedsPush(want, r)
    ensures GuardFree(sb, want, Do(sb.caps, step, r).repo)
    ensures Target(sb, want, Do(sb.caps, step, r).repo) == Target(sb, want, r)
  {
    if step.PushBaseline? {
      PushKeepsTarget(sb, want, r);
    } else if step.LiftIfRefused? {
      LiftKeepsTarget(sb, want, r);
    } else {
      SmallStepKeepsTarget(sb, want, step, r);
    }
  }

  /** Nobody has pushed to a repository that is to stay empty. */
  predicate Undisturbed(want: LockRepo, r: Repo) {
    want.empty ==> !r.pending
  }

  lemma TimeKeepsTarget(sb: Sandbox, want: LockRepo, r: Repo)
    requires GuardFree(sb, want, r) && Undisturbed(want, r)
    ensures GuardFree(sb, want, Applied(r)) && Undisturbed(want, Applied(r))
    ensures Target(sb, want, Applied(r)) == Target(sb, want, r)
  {
    SameRefsSameNeed(want, r, Applied(r));
  }

  /** A repository but for its protections: a push sent unseen may lift one that is not in its way. */
  function Unruled(r: Repo): Repo {
    r.(rules := {})
  }

  /** Any write of the right shape, needed or not: at most the protections of the target change. */
  lemma StepKeepsAim(sb: Sandbox, want: LockRepo, step: Step, r: Repo)
    requires WellFormed(want) && GuardFree(sb, want, r) && Undisturbed(want, r) && Shape(want, step)
    ensures
      var next := Do(sb.caps, step, r).repo;
      && GuardFree(sb, want, next) && Undisturbed(want, next)
      && Unruled(Target(sb, want, next)) == Unruled(Target(sb, want, r))
  {
    hide Governed, Lifted;
    if step.LiftIfRefused? {
      var next := Do(sb.caps, step, r).repo;
      assert next == r || next == Lifted(r, want.defaultBranch);
      LiftingChangesRulesOnly(r, want.defaultBranch);
      SameRefsSameNeed(want, r, next);
    } else {
      hide Target, GuardFree, NeedsPush;
      StepKeepsTarget(sb, want, step, r);
    }
  }

  lemma LiftingChangesRulesOnly(r: Repo, branch: string)
    ensures Unruled(Lifted(r, branch)) == Unruled(r)
  {
  }

  lemma {:induction false} ShapeKeepsAim(sb: Sandbox, want: LockRepo, steps: seq<Step>, applies: seq<bool>, r: Repo)
    requires |applies| == |steps| && WellFormed(want) && GuardFree(sb, want, r) && Undisturbed(want, r)
    requires forall i :: 0 <= i < |steps| ==> Shape(want, steps[i])
    ensures
      var left := RunOn(sb.caps, steps, applies, r).repo;
      && GuardFree(sb, want, left) && Undisturbed(want, left)
      && Unruled(Target(sb, want, left)) == Unruled(Target(sb, want, r))
  {
    hide Do, Target, GuardFree, Undisturbed, Shape, Applied, Unruled;
    if steps != [] {
      var now := if applies[0] then Applied(r) else r;
      TimeKeepsTarget(sb, want, r);
      StepKeepsAim(sb, want, steps[0], now);
      var next := Do(sb.caps, steps[0], now);
      if next.ok {
        ShapeKeepsAim(sb, want, steps[1..], applies[1..], next.repo);
      }
    }
  }

  /** Steps of the right shape, where a protection is lifted only ahead of a push that is needed. */
  ghost predicate Script(want: LockRepo, steps: seq<Step>, r: Repo) {
    forall i :: 0 <= i < |steps| ==>
      && Shape(want, steps[i])
      && (steps[i].LiftIfRefused? ==> NeedsPush(want, r) && forall j :: 0 <= j < i ==> steps[j].UpdateSettings?)
  }

  lemma SettingsKeepTheNeed(sb: Sandbox, want: LockRepo, step: Step, r: Repo)
    requires step.UpdateSettings?
    ensures NeedsPush(want, Do(sb.caps, step, r).repo) == NeedsPush(want, r)
  {
    SameRefsSameNeed(want, r, Do(sb.caps, step, r).repo);
  }

  /** One step of a script: the target stays, and what follows is a script from the new state. */
  lemma ScriptStep(sb: Sandbox, want: LockRepo, steps: seq<Step>, r: Repo)
    requires WellFormed(want) && GuardFree(sb, want, r) && Undisturbed(want, r)
    requires steps != [] && Script(want, steps, r)
    ensures
      var next := Do(sb.caps, steps[0], r).repo;
      && GuardFree(sb, want, next) && Undisturbed(want, next)
      && Target(sb, want, next) == Target(sb, want, r)
      && Script(want, steps[1..], next)
  {
    hide Target, GuardFree, NeedsPush;
    StepKeepsTarget(sb, want, steps[0], r);
    if steps[0].UpdateSettings? {
      SettingsKeepTheNeed(sb, want, steps[0], r);
    }
  }

  lemma TimeKeepsScript(sb: Sandbox, want: LockRepo, steps: seq<Step>, r: Repo)
    requires GuardFree(sb, want, r) && Undisturbed(want, r) && Script(want, steps, r)
    ensures GuardFree(sb, want, Applied(r)) && Undisturbed(want, Applied(r))
    ensures Target(sb, want, Applied(r)) == Target(sb, want, r)
    ensures Script(want, steps, Applied(r))
  {
    hide Target;
    TimeKeepsTarget(sb, want, r);
    SameRefsSameNeed(want, r, Applied(r));
  }

  /** Whatever prefix runs, whenever the forge applies its pushes: no guard, and the same target. */
  lemma {:induction false} ScriptKeepsTarget(sb: Sandbox, want: LockRepo, steps: seq<Step>, applies: seq<bool>, r: Repo)
    requires |applies| == |steps| && WellFormed(want) && GuardFree(sb, want, r) && Undisturbed(want, r)
    requires Script(want, steps, r)
    ensures GuardFree(sb, want, RunOn(sb.caps, steps, applies, r).repo)
    ensures Undisturbed(want, RunOn(sb.caps, steps, applies, r).repo)
    ensures Target(sb, want, RunOn(sb.caps, steps, applies, r).repo) == Target(sb, want, r)
  {
    hide Do, Target, GuardFree, Undisturbed, Script, Applied;
    if steps != [] {
      var now := if applies[0] then Applied(r) else r;
      TimeKeepsScript(sb, want, steps, r);
      ScriptStep(sb, want, steps, now);
      var next := Do(sb.caps, steps[0], now);
      if next.ok {
        ScriptKeepsTarget(sb, want, steps[1..], applies[1..], next.repo);
      }
    }
  }

  lemma {:induction false} ScriptIsCareful(sb: Sandbox, want: LockRepo, steps: seq<Step>, r: Repo)
    requires WellFormed(want) && GuardFree(sb, want, r) && Undisturbed(want, r) && Script(want, steps, r)
    ensures Careful(sb.caps, steps, r)
  {
    hide Do, Target, Script;
    if steps != [] {
      ScriptStep(sb, want, steps, r);
      if Do(sb.caps, steps[0], r).ok {
        ScriptIsCareful(sb, want, steps[1..], Do(sb.caps, steps[0], r).repo);
      }
    }
  }

  lemma DeletesAreListed(s: State)
    ensures forall x :: x in Closes(s.requests) ==> x.CloseRequest? && x.request in s.requests
    ensures forall x :: x in BranchDeletes(s.extraBranches) ==> x.DeleteBranch? && x.branch in s.extraBranches
    ensures forall x :: x in TagDeletes(s.extraTags) ==> x.DeleteTag? && x.tag in s.extraTags
  {
  }

  /** The writes between the settings and the topics only remove what the lock does not name. */
  lemma RemovalsHaveShape(sb: Sandbox, want: LockRepo, r: Repo, s: State, x: Step)
    requires WellFormed(want) && Reports(sb, want, Some(r), s) && s.guards == []
    requires x in Closes(s.requests) || x in BranchDeletes(s.extraBranches) || x in TagDeletes(s.extraTags)
    ensures Shape(want, x) && !x.UpdateSettings? && !x.LiftIfRefused?
  {
    DeletesAreListed(s);
    if want.empty {
      NothingListed(sb, want, r, s);
    }
    if x.DeleteBranch? {
      assert x.branch in ExtraBranches(want, r);
    }
    if x.DeleteTag? {
      assert x.tag in ExtraTags(want, r);
    }
  }

  function Removals(s: State): seq<Step> {
    Closes(s.requests) + BranchDeletes(s.extraBranches) + TagDeletes(s.extraTags)
  }

  lemma HeadIsScript(want: LockRepo, s: State)
    requires s.live.Some? && s.want == want && (s.refsDirty ==> !want.empty)
    ensures
      var a := Head(s) + [SettingsOf(want)];
      forall i :: 0 <= i < |a| ==>
        && Shape(want, a[i]) && !Archives(a[i])
        && (a[i].LiftIfRefused? ==> s.refsDirty && forall j :: 0 <= j < i ==> a[j].UpdateSettings?)
  {
  }

  lemma RestHasShape(sb: Sandbox, want: LockRepo, r: Repo, s: State, i: nat)
    requires WellFormed(want) && Reports(sb, want, Some(r), s) && s.guards == []
    requires i < |Removals(s) + Tail(s)|
    ensures
      var rest := Removals(s) + Tail(s);
      && Shape(want, rest[i]) && !rest[i].LiftIfRefused? && (i < |rest| - 1 ==> !Archives(rest[i]))
  {
    if i < |Removals(s)| {
      RemovalsHaveShape(sb, want, r, s, Removals(s)[i]);
    }
  }

  lemma ResetHasShape(sb: Sandbox, want: LockRepo, r: Repo, s: State)
    requires WellFormed(want) && Reports(sb, want, Some(r), s) && s.guards == []
    ensures forall i :: 0 <= i < |ResetSteps(s)| ==> Shape(want, ResetSteps(s)[i])
  {
    var a, rest := Head(s) + [SettingsOf(s.want)], Removals(s) + Tail(s);
    assert ResetSteps(s) == a + rest;
    HeadIsScript(want, s);
    forall i | 0 <= i < |rest| ensures Shape(want, rest[i]) {
      RestHasShape(sb, want, r, s, i);
    }
    hide Reports, Shape, Head, Removals, Tail, SettingsOf;
  }

  lemma ResetIsScript(sb: Sandbox, want: LockRepo, r: Repo, s: State)
    requires WellFormed(want) && Reports(sb, want, Some(r), s) && s.guards == [] && !Blind(sb, r)
    ensures Script(want, ResetSteps(s), r)
    ensures forall i :: 0 <= i < |ResetSteps(s)| - 1 ==> !Archives(ResetSteps(s)[i])
  {
    var a, rest := Head(s) + [SettingsOf(s.want)], Removals(s) + Tail(s);
    assert ResetSteps(s) == a + rest;
    assert s.refsDirty == NeedsPush(want, r);
    HeadIsScript(want, s);
    forall i | 0 <= i < |rest|
      ensures Shape(want, rest[i]) && !rest[i].LiftIfRefused? && (i < |rest| - 1 ==> !Archives(rest[i]))
    {
      RestHasShape(sb, want, r, s, i);
    }
    hide Reports, NeedsPush, Shape, Archives, Head, Removals, Tail, SettingsOf;
    ScriptAppend(want, a, rest, r);
  }

  lemma ScriptAppend(want: LockRepo, a: seq<Step>, b: seq<Step>, r: Repo)
    requires Script(want, a, r)
    requires forall i :: 0 <= i < |b| ==> Shape(want, b[i]) && !b[i].LiftIfRefused?
    ensures Script(want, a + b, r)
  {
  }

  /** `later` is what a reset of `r` left when it was killed after some writes, at some time. */
  ghost predicate KilledAt(sb: Sandbox, want: LockRepo, r: Repo, later: Repo, s: State, applies: seq<bool>) {
    && Reports(sb, want, Some(r), s) && s.guards == [] && s.drift != []
    && |applies| <= |ResetSteps(s)|
    && (var left := RunOn(sb.caps, ResetSteps(s)[..|applies|], applies, r).repo;
        later == left || later == Applied(left))
  }

  ghost predicate Killed(sb: Sandbox, want: LockRepo, r: Repo, later: Repo) {
    exists s, applies :: KilledAt(sb, want, r, later, s, applies)
  }

  ghost predicate KilledTimes(sb: Sandbox, want: LockRepo, r: Repo, later: Repo, n: nat)
    decreases n
  {
    if n == 0 then later == r
    else exists mid :: Killed(sb, want, r, mid) && KilledTimes(sb, want, mid, later, n - 1)
  }

  /** A run that was not cut short is the whole reset, whenever the forge applied its pushes. */
  lemma WholeRunIsAtBaseline(sb: Sandbox, want: LockRepo, r: Repo, s: State, applies: seq<bool>)
    requires WellFormed(want) && GuardFree(sb, want, r) && Undisturbed(want, r) && !Blind(sb, r)
    requires Reports(sb, want, Some(r), s) && s.guards == [] && |applies| == |ResetSteps(s)|
    ensures
      var left := RunOn(sb.caps, ResetSteps(s), applies, r).repo;
      AtBaseline(sb, want, left) && AtBaseline(sb, want, Applied(left))
  {
    ResetIsScript(sb, want, r, s);
    ScriptIsCareful(sb, want, ResetSteps(s), r);
    ScheduleDoesNotMatter(sb.caps, ResetSteps(s), applies, r, r);
    ResetConverges(sb, want, r, s);
    TargetIsAtBaseline(sb, want, r);
    var left := RunOn(sb.caps, ResetSteps(s), applies, r).repo;
    AheadDiffersInTimeOnly(Target(sb, want, r), left);
  }

  lemma UnreadableOnlyWhenDone(sb: Sandbox, want: LockRepo, r: Repo, s: State, applies: seq<bool>)
    requires WellFormed(want) && GuardFree(sb, want, r) && Undisturbed(want, r) && !Blind(sb, r)
    requires Reports(sb, want, Some(r), s) && s.guards == [] && |applies| <= |ResetSteps(s)|
    ensures
      var left := RunOn(sb.caps, ResetSteps(s)[..|applies|], applies, r).repo;
      Blind(sb, left) ==> AtBaseline(sb, want, left) && AtBaseline(sb, want, Applied(left))
  {
    var done := ResetSteps(s)[..|applies|];
    if |applies| < |ResetSteps(s)| {
      ResetIsScript(sb, want, r, s);
      if !r.archived {
        StaysReadable(sb.caps, done, applies, r);
      }
    } else {
      assert done == ResetSteps(s);
      WholeRunIsAtBaseline(sb, want, r, s, applies);
    }
  }

  /** Free of guards, and readable unless the reset is done with it. */
  predicate OnTheWay(sb: Sandbox, want: LockRepo, r: Repo) {
    GuardFree(sb, want, r) && Undisturbed(want, r) && (Blind(sb, r) ==> AtBaseline(sb, want, r))
  }

  /**
   * What kills leave of `r`: no guard, and the same target but for the protections; exactly the
   * same target where every push so far was known to be needed.
   */
  ghost predicate StillAims(sb: Sandbox, want: LockRepo, r: Repo, later: Repo) {
    && GuardFree(sb, want, later) && Undisturbed(want, later)
    && Unruled(Target(sb, want, later)) == Unruled(Target(sb, want, r))
    && (OnTheWay(sb, want, r) ==>
          OnTheWay(sb, want, later) && Target(sb, want, later) == Target(sb, want, r))
  }

  lemma KillKeepsExactTarget(sb: Sandbox, want: LockRepo, r: Repo, later: Repo)
    requires WellFormed(want) && OnTheWay(sb, want, r) && Killed(sb, want, r, later)
    ensures OnTheWay(sb, want, later)
    ensures Target(sb, want, later) == Target(sb, want, r)
  {
    hide Target, GuardFree, AtBaseline, RunOn;
    if Blind(sb, r) {
      DoneIsNotTouched(sb, want, r);
    }
    var s, applies :| KilledAt(sb, want, r, later, s, applies);
    var done := ResetSteps(s)[..|applies|];
    var left := RunOn(sb.caps, done, applies, r).repo;
    ResetIsScript(sb, want, r, s);
    ScriptKeepsTarget(sb, want, done, applies, r);
    TimeKeepsTarget(sb, want, left);
    UnreadableOnlyWhenDone(sb, want, r, s, applies);
  }

  lemma KillKeepsTarget(sb: Sandbox, want: LockRepo, r: Repo, later: Repo)
    requires WellFormed(want) && GuardFree(sb, want, r) && Undisturbed(want, r) && Killed(sb, want, r, later)
    ensures StillAims(sb, want, r, later)
  {
    hide Target, GuardFree, AtBaseline, RunOn, Shape, Undisturbed, Unruled;
    var s, applies :| KilledAt(sb, want, r, later, s, applies);
    var done := ResetSteps(s)[..|applies|];
    ResetHasShape(sb, want, r, s);
    ShapeKeepsAim(sb, want, done, applies, r);
    TimeKeepsTarget(sb, want, RunOn(sb.caps, done, applies, r).repo);
    if OnTheWay(sb, want, r) {
      KillKeepsExactTarget(sb, want, r, later);
    }
  }

  /** A repository without drift is never written. */
  lemma CleanIsNotTouched(sb: Sandbox, want: LockRepo, r: Repo)
    requires Clean(sb, want, r)
    ensures forall later :: !Killed(sb, want, r, later)
  {
    forall later, s, applies ensures !KilledAt(sb, want, r, later, s, applies) {
      FirstIsIn(s.drift);
    }
  }

  lemma DoneIsNotTouched(sb: Sandbox, want: LockRepo, r: Repo)
    requires WellFormed(want) && GuardFree(sb, want, r) && AtBaseline(sb, want, r)
    ensures forall later :: !Killed(sb, want, r, later)
  {
    CleanWhereItBelongs(sb, want, r);
    CleanIsNotTouched(sb, want, r);
  }

  /**
   * Reset is re-runnable: killed after any of its writes, any number of times, with the forge
   * applying pushes whenever it likes, a repository, unreadable at first or not, stays free of
   * guards and keeps its target.
   */
  lemma {:induction false} ResetSurvivesKills(sb: Sandbox, want: LockRepo, r: Repo, later: Repo, n: nat)
    requires WellFormed(want) && GuardFree(sb, want, r) && Undisturbed(want, r)
    requires KilledTimes(sb, want, r, later, n)
    ensures StillAims(sb, want, r, later)
    decreases n
  {
    hide Target, OnTheWay, Killed, WellFormed, GuardFree, Undisturbed, Unruled;
    if n > 0 {
      var mid :| Killed(sb, want, r, mid) && KilledTimes(sb, want, mid, later, n - 1);
      KillKeepsTarget(sb, want, r, mid);
      ResetSurvivesKills(sb, want, mid, later, n - 1);
    }
  }

  /**
   * One more compare-and-reset of a readable repository ends at its target, clean; where it shows
   * no drift the repository is there already.
   */
  ghost predicate FinishesNow(sb: Sandbox, want: LockRepo, r: Repo, s: State) {
    && s.live == Some(r) && s.guards == []
    && Run(sb.caps, ResetSteps(s), r) == Outcome(true, Target(sb, want, r))
    && Clean(sb, want, Target(sb, want, r))
    && (s.drift == [] ==> Canonical(r) == Canonical(Target(sb, want, r)))
  }

  /** One opens the repository, whatever it finds, and one more finishes it with the target it had. */
  ghost predicate FinishesNext(sb: Sandbox, want: LockRepo, r: Repo, s: State) {
    && s.live == Some(r) && s.guards == []
    && Run(sb.caps, ResetSteps(s), r).ok
    && var mid := Run(sb.caps, ResetSteps(s), r).repo;
    && GuardFree(sb, want, mid) && !Blind(sb, mid)
    && Unruled(Target(sb, want, mid)) == Unruled(Target(sb, want, r))
    && forall s' :: Reports(sb, want, Some(mid), s') ==> FinishesNow(sb, want, mid, s')
  }

  /** One puts right what can be seen, exactly where the forge knows the default branch to set. */
  ghost predicate FinishesUnseen(sb: Sandbox, want: LockRepo, r: Repo, s: State) {
    && s.live == Some(r) && s.guards == []
    && (Run(sb.caps, ResetSteps(s), r).ok <==> want.empty || want.defaultBranch in r.branches)
    && (Run(sb.caps, ResetSteps(s), r).ok ==> Clean(sb, want, Run(sb.caps, ResetSteps(s), r).repo))
  }

  lemma ReadableFinishesNow(sb: Sandbox, want: LockRepo, r: Repo, s: State)
    requires WellFormed(want) && GuardFree(sb, want, r) && !Blind(sb, r) && Reports(sb, want, Some(r), s)
    ensures FinishesNow(sb, want, r, s)
  {
    ResetConverges(sb, want, r, s);
    if s.drift == [] {
      forall d ensures !Differs(sb, want, r, d) {
        assert d in s.drift <==> Differs(sb, want, r, d);
      }
      CleanIsAtBaseline(sb, want, r);
      CleanIsTarget(sb, want, r);
    }
  }

  /**
   * An unreadable repository that is to be readable: the first reset opens it and rewinds its
   * refs unseen, and at most one more compare-and-reset finishes it.
   */
  lemma UnreadableNeedsAtMostOneMore(sb: Sandbox, want: LockRepo, r: Repo, s: State)
    requires WellFormed(want) && GuardFree(sb, want, r) && Blind(sb, r) && !want.archived
    requires Reports(sb, want, Some(r), s)
    ensures FinishesNext(sb, want, r, s)
  {
    hide FinishesNow, Governed, Lifted;
    ResetMeetsNoRefusal(sb, want, r, s);
    var mid := AfterReset(sb.caps, s);
    UnseenKeepsAim(sb, want, r, s);
    forall s' | Reports(sb, want, Some(mid), s') ensures FinishesNow(sb, want, mid, s') {
      ReadableFinishesNow(sb, want, mid, s');
    }
  }

  lemma UnseenKeepsAim(sb: Sandbox, want: LockRepo, r: Repo, s: State)
    requires WellFormed(want) && GuardFree(sb, want, r) && Blind(sb, r) && !want.archived
    requires Reports(sb, want, Some(r), s)
    ensures
      var mid := AfterReset(sb.caps, s);
      && GuardFree(sb, want, mid) && !Blind(sb, mid)
      && Unruled(Target(sb, want, mid)) == Unruled(Target(sb, want, r))
  {
    hide Governed, Lifted;
    NothingListed(sb, want, r, s);
    LiftingChangesRulesOnly(Unarchived(r), want.defaultBranch);
    var mid := AfterReset(sb.caps, s);
    assert mid.tags == if want.empty then r.tags else Tagged(r.tags, want.tags, want.baseline);
  }

  /**
   * An unreadable repository that is to stay so: what can be seen of it is put right, exactly when
   * the forge takes the settings.
   */
  lemma UnreadableStaysSo(sb: Sandbox, want: LockRepo, r: Repo, s: State)
    requires WellFormed(want) && IsOurs(sb, r) && Blind(sb, r) && want.archived
    requires Reports(sb, want, Some(r), s)
    ensures FinishesUnseen(sb, want, r, s)
  {
    ResetMeetsNoRefusal(sb, want, r, s);
    SortKeepsSorted(want.topics);
  }

  /**
   * And the compare-and-reset that comes after the kills ends where an uninterrupted one would
   * have: at once if it can read the repository, else the one after it does, unless the repository
   * is to stay unreadable.
   */
  lemma ResumedResetReachesTarget(sb: Sandbox, want: LockRepo, r: Repo, later: Repo, n: nat, s: State)
    requires WellFormed(want) && GuardFree(sb, want, r) && Undisturbed(want, r)
    requires KilledTimes(sb, want, r, later, n) && Reports(sb, want, Some(later), s)
    ensures Unruled(Target(sb, want, later)) == Unruled(Target(sb, want, r))
    ensures !Blind(sb, r) ==> Target(sb, want, later) == Target(sb, want, r)
    ensures !Blind(sb, later) ==> FinishesNow(sb, want, later, s)
    ensures Blind(sb, later) && !want.archived ==> FinishesNext(sb, want, later, s)
    ensures Blind(sb, later) && !Blind(sb, r) ==>
      s.guards == [] && s.drift == [] && Canonical(later) == Canonical(Target(sb, want, r))
    ensures Blind(sb, later) && want.archived ==> FinishesUnseen(sb, want, later, s)
  {
    hide Target, FinishesNow, FinishesNext, FinishesUnseen, Unruled, ResetSteps, Reports, Canonical;
    ResetSurvivesKills(sb, want, r, later, n);
    if !Blind(sb, later) {
      ReadableFinishesNow(sb, want, later, s);
    } else if !want.archived {
      UnreadableNeedsAtMostOneMore(sb, want, later, s);
    } else {
      UnreadableStaysSo(sb, want, later, s);
      if !Blind(sb, r) {
        CleanIsTarget(sb, want, later);
        CleanWhereItBelongs(sb, want, later);
        CleanShowsNothing(sb, want, later, s);
      }
    }
  }

  lemma CleanShowsNothing(sb: Sandbox, want: LockRepo, r: Repo, s: State)
    requires Reports(sb, want, Some(r), s) && Clean(sb, want, r)
    ensures s.guards == [] && s.drift == []
  {
    FirstIsIn(s.drift);
  }

  /**
   * The one refusal `Passes` leaves cannot happen on a forge that has neither topics nor
   * visibility where archived means unreadable: such a repository shows no drift while archived.
   */
  lemma UnreadableByDesignIsLeftAlone(sb: Sandbox, want: LockRepo, r: Repo, s: State)
    requires sb.caps.archivedUnreadable ==> !sb.caps.topics && !sb.caps.visibility
    requires Reports(sb, want, Some(r), s) && s.guards == [] && Blind(sb, r) && want.archived
    ensures s.drift == []
  {
    FirstIsIn(s.drift);
  }

  // ------------------------------------------------------------ settings and pending pushes

  lemma HeadIsQuiet(caps: Caps, s: State)
    requires s.live.Some? && !s.live.value.pending && (s.refsDirty ==> !s.want.empty)
    ensures Quiet(caps, Head(s), s.live.value)
    ensures Run(caps, Head(s), s.live.value).ok ==> !Run(caps, Head(s), s.live.value).repo.pending
  {
    var r := s.live.value;
    if !s.refsDirty {
      NoPushIsQuiet(caps, Head(s), r);
    } else {
      var a := (if r.archived then [UNARCHIVE] else []) + [LiftIfRefused(Push(s.want))];
      var push, wait := Push(s.want), WaitPushed(s.want.defaultBranch, s.want.baseline);
      assert Head(s) == a + ([push] + [wait]);
      QuietAppend(caps, a, [push] + [wait], r);
      RunAppend(caps, a, [push] + [wait], r);
      NoPushIsQuiet(caps, a, r);
      var r1 := Run(caps, a, r).repo;
      QuietAppend(caps, [push], [wait], r1);
      RunAppend(caps, [push], [wait], r1);
      RunOne(caps, push, r1);
      RunOne(caps, wait, Do(caps, push, r1).repo);
      assert forall x: Repo :: Quiet(caps, [push][1..], x) && Quiet(caps, [wait][1..], x);
    }
  }

  lemma RestPushesNothing(s: State)
    ensures forall i :: 0 <= i < |Rest(s)| ==> !Pushes(Rest(s)[i])
  {
    var a, b, c := Closes(s.requests), BranchDeletes(s.extraBranches), TagDeletes(s.extraTags);
    assert forall x :: x in a || x in b || x in c ==> !Pushes(x);
    assert forall x :: x in Rest(s) ==> x == SettingsOf(s.want) || x in a || x in b || x in c || x in Tail(s);
    forall i | 0 <= i < |Rest(s)| ensures !Pushes(Rest(s)[i]) {
      assert Rest(s)[i] in Rest(s);
    }
  }

  function Rest(s: State): seq<Step> {
    [SettingsOf(s.want)] + Removals(s) + Tail(s)
  }

  lemma ResetIsQuiet(sb: Sandbox, want: LockRepo, r: Repo, s: State)
    requires Reports(sb, want, Some(r), s) && s.guards == [] && !r.pending
    ensures Quiet(sb.caps, ResetSteps(s), r)
  {
    assert ResetSteps(s) == Head(s) + Rest(s);
    HeadIsQuiet(sb.caps, s);
    QuietAppend(sb.caps, Head(s), Rest(s), r);
    RestPushesNothing(s);
    if Run(sb.caps, Head(s), r).ok {
      NoPushIsQuiet(sb.caps, Rest(s), Run(sb.caps, Head(s), r).repo);
    }
  }

  /**
   * On a forge that applies pushes whenever it likes, no reset writes settings while a push of its
   * own is pending, and none, finished or killed, leaves a repository that reads as empty.
   */
  lemma ResetKeepsSettingsClearOfPushes(sb: Sandbox, want: LockRepo, r: Repo, s: State)
    requires Reports(sb, want, Some(r), s) && s.guards == [] && !r.pending
    ensures forall applies: seq<bool> | |applies| == |ResetSteps(s)| :: QuietOn(sb.caps, ResetSteps(s), applies, r)
    ensures !Stuck(r) ==> forall applies: seq<bool> | |applies| <= |ResetSteps(s)| ::
      !Stuck(RunOn(sb.caps, ResetSteps(s)[..|applies|], applies, r).repo)
  {
    var steps := ResetSteps(s);
    ResetIsQuiet(sb, want, r, s);
    QuietOnEverySchedule(sb.caps, steps, r);
    QuietIsCareful(sb.caps, steps, r);
    if !Stuck(r) {
      forall applies: seq<bool> | |applies| <= |steps|
        ensures !Stuck(RunOn(sb.caps, steps[..|applies|], applies, r).repo)
      {
        CarefulPrefixNeverSticks(sb.caps, steps, applies, r);
      }
    }
  }
}
