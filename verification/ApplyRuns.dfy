/** apply as a run of writes: what it reaches, when it is refused, and what survives being killed. */
module ApplyRuns {
  import opened Text
  import opened ForgeModel
  import opened Compare
  import opened Apply

  /** Every write of a run is one that leaves the goal where it is. */
  predicate LawfulRun(sb: Sandbox, want: LockRepo, prev: Option<LockRepo>, steps: seq<Step>, r: Repo) {
    steps == [] ||
    (&& Lawful(sb, want, prev, steps[0], r)
     && (Do(sb.caps, steps[0], r).ok ==> LawfulRun(sb, want, prev, steps[1..], Do(sb.caps, steps[0], r).repo)))
  }

  /** An old default branch that is still there and that an open request points at: it cannot go. */
  predicate Blocked(want: LockRepo, prev: Option<LockRepo>, r: Repo) {
    exists b :: b in r.branches && OldBranch(want, prev, b) && PointedAt(r, b)
  }

  lemma StepKeepsBlocked(sb: Sandbox, want: LockRepo, prev: Option<LockRepo>, step: Step, r: Repo)
    requires Lawful(sb, want, prev, step, r)
    ensures Blocked(want, prev, Do(sb.caps, step, r).repo) == Blocked(want, prev, r)
  {
    var next := Do(sb.caps, step, r).repo;
    assert next.requests == r.requests;
    forall b ensures PointedAt(next, b) == PointedAt(r, b) {
    }
    forall b | b in r.branches && OldBranch(want, prev, b) && PointedAt(r, b) ensures b in next.branches {
      if step.DeleteRefs? && b in step.oldBranches {
        assert !Removable(r, b);
      }
    }
    assert !OldBranch(want, prev, want.defaultBranch);
  }

  lemma {:induction false} LawfulAppend(sb: Sandbox, want: LockRepo, prev: Option<LockRepo>, a: seq<Step>, b: seq<Step>,
        r: Repo)
    ensures LawfulRun(sb, want, prev, a + b, r) <==>
      && LawfulRun(sb, want, prev, a, r)
      && (Run(sb.caps, a, r).ok ==> LawfulRun(sb, want, prev, b, Run(sb.caps, a, r).repo))
  {
    hide Lawful, Do;
    if a == [] {
      assert a + b == b;
    } else {
      assert (a + b)[1..] == a[1..] + b;
      LawfulAppend(sb, want, prev, a[1..], b, Do(sb.caps, a[0], r).repo);
    }
  }

  lemma {:induction false} LawfulRunKeepsGoal(sb: Sandbox, want: LockRepo, prev: Option<LockRepo>, steps: seq<Step>,
        r: Repo)
    requires WellFormed(want) && LegalPrevious(prev) && Sound(sb, want, r) && LawfulRun(sb, want, prev, steps, r)
    ensures Sound(sb, want, Run(sb.caps, steps, r).repo)
    ensures Goal(sb, want, prev, Run(sb.caps, steps, r).repo) == Goal(sb, want, prev, r)
    ensures Blocked(want, prev, Run(sb.caps, steps, r).repo) == Blocked(want, prev, r)
    ensures Careful(sb.caps, steps, r)
  {
    hide Do, Goal, Sound, WellFormed, LegalPrevious, Blocked;
    if steps != [] {
      var next := Do(sb.caps, steps[0], r).repo;
      StepKeepsGoal(sb, want, prev, steps[0], r);
      StepKeepsBlocked(sb, want, prev, steps[0], r);
      if Do(sb.caps, steps[0], r).ok {
        LawfulRunKeepsGoal(sb, want, prev, steps[1..], next);
      }
    }
  }

  lemma AheadKeepsBlocked(want: LockRepo, prev: Option<LockRepo>, a: Repo, b: Repo)
    requires Ahead(a, b)
    ensures Blocked(want, prev, a) == Blocked(want, prev, b)
  {
    AheadDiffersInTimeOnly(a, b);
    assert forall x :: PointedAt(a, x) == PointedAt(b, x);
  }

  /** `later` is what a run left when it was killed after some writes, at some time. */
  predicate Left(caps: Caps, steps: seq<Step>, applies: seq<bool>, r: Repo, later: Repo) {
    && |applies| <= |steps|
    && (var left := RunOn(caps, steps[..|applies|], applies, r).repo;
        later == left || later == Applied(left))
  }

  /** Any part of a lawful run, on any schedule, leaves a sound repository with the same goal. */
  lemma LawfulSurvives(sb: Sandbox, want: LockRepo, prev: Option<LockRepo>, steps: seq<Step>, applies: seq<bool>,
        r: Repo, later: Repo)
    requires WellFormed(want) && LegalPrevious(prev) && Sound(sb, want, r) && LawfulRun(sb, want, prev, steps, r)
    requires Left(sb.caps, steps, applies, r, later)
    ensures Sound(sb, want, later) && Goal(sb, want, prev, later) == Goal(sb, want, prev, r)
    ensures Blocked(want, prev, later) == Blocked(want, prev, r)
    ensures Ahead(Run(sb.caps, steps[..|applies|], r).repo, later)
  {
    hide Goal, Sound, WellFormed, LegalPrevious, Blocked, LawfulRun;
    var done, rest := steps[..|applies|], steps[|applies|..];
    assert steps == done + rest;
    LawfulAppend(sb, want, prev, done, rest, r);
    LawfulRunKeepsGoal(sb, want, prev, done, r);
    ScheduleDoesNotMatter(sb.caps, done, applies, r, r);
    var canonical := Run(sb.caps, done, r).repo;
    assert Ahead(canonical, later);
    AheadKeepsGoal(sb, want, prev, canonical, later);
    AheadKeepsBlocked(want, prev, canonical, later);
  }

  /** A part of a run: lawful, never refused, and ending in `next`. */
  predicate Goes(sb: Sandbox, want: LockRepo, prev: Option<LockRepo>, steps: seq<Step>, r: Repo, next: Repo) {
    LawfulRun(sb, want, prev, steps, r) && Run(sb.caps, steps, r) == Outcome(true, next)
  }

  lemma GoesOne(sb: Sandbox, want: LockRepo, prev: Option<LockRepo>, step: Step, r: Repo)
    requires Lawful(sb, want, prev, step, r) && Accepts(step, r)
    ensures Goes(sb, want, prev, [step], r, Effect(sb.caps, step, r))
  {
    RunOne(sb.caps, step, r);
    assert LawfulRun(sb, want, prev, [step][1..], Effect(sb.caps, step, r));
  }

  lemma GoesOn(sb: Sandbox, want: LockRepo, prev: Option<LockRepo>, a: seq<Step>, b: seq<Step>, r: Repo, mid: Repo)
    requires Goes(sb, want, prev, a, r, mid)
    ensures LawfulRun(sb, want, prev, b, mid) ==> LawfulRun(sb, want, prev, a + b, r)
    ensures Run(sb.caps, a + b, r) == Run(sb.caps, b, mid)
    ensures Quiet(sb.caps, a + b, r) <==> Quiet(sb.caps, a, r) && Quiet(sb.caps, b, mid)
  {
    hide LawfulRun, Quiet;
    LawfulAppend(sb, want, prev, a, b, r);
    RunAppend(sb.caps, a, b, r);
    QuietAppend(sb.caps, a, b, r);
  }

  lemma QuietOne(caps: Caps, step: Step, r: Repo)
    ensures Quiet(caps, [step], r) <==> (step.UpdateSettings? ==> !r.pending)
  {
    assert [step][1..] == [];
  }

  // ------------------------------------------------------------ the first half: unarchive and push

  function AfterFirst(caps: Caps, c: Change, r: Repo): Repo {
    var u := Unarchived(r);
    if PushesSeed(c, r) then
      Effect(caps, Seed(c.want), if Governed(u, c.want.defaultBranch) then Lifted(u, c.want.defaultBranch) else u)
    else u
  }

  /** The change is about this repository: found so, or created so a moment ago. */
  predicate About(c: Change, r: Repo) {
    c.live == Some(r) || (c.live.None? && !r.archived)
  }

  lemma UnarchiveGoes(sb: Sandbox, want: LockRepo, prev: Option<LockRepo>, c: Change, r: Repo)
    requires About(c, r) && Sound(sb, want, r)
    ensures
      var steps := if c.live.Some? && c.live.value.archived then [UNARCHIVE] else [];
      Goes(sb, want, prev, steps, r, Unarchived(r)) && (!r.pending ==> Quiet(sb.caps, steps, r))
  {
    if r.archived {
      GoesOne(sb, want, prev, UNARCHIVE, r);
      QuietOne(sb.caps, UNARCHIVE, r);
    }
  }

  lemma PushGoes(sb: Sandbox, want: LockRepo, prev: Option<LockRepo>, u: Repo)
    requires WellFormed(want) && !u.archived && NeedsSeed(want, u)
    ensures
      var steps := [LiftIfRefused(Seed(want)), Seed(want)];
      var open := if Governed(u, want.defaultBranch) then Lifted(u, want.defaultBranch) else u;
      Goes(sb, want, prev, steps, u, Effect(sb.caps, Seed(want), open)) && Quiet(sb.caps, steps, u)
  {
    hide Run, LawfulRun, Quiet;
    var lift, push := LiftIfRefused(Seed(want)), Seed(want);
    var open := if Governed(u, want.defaultBranch) then Lifted(u, want.defaultBranch) else u;
    LiftClearsTheWay(u, want.defaultBranch);
    GoesOne(sb, want, prev, lift, u);
    assert Effect(sb.caps, lift, u) == open;
    assert NeedsSeed(want, open) by {
      LiftedKeepsRefs(u, want.defaultBranch);
    }
    GoesOne(sb, want, prev, push, open);
    assert [lift, push] == [lift] + [push];
    GoesOn(sb, want, prev, [lift], [push], u, open);
    QuietOne(sb.caps, lift, u);
    QuietOne(sb.caps, push, open);
  }

  lemma FirstHalfGoes(sb: Sandbox, prev: Option<LockRepo>, c: Change, r: Repo)
    requires WellFormed(c.want) && About(c, r) && Sound(sb, c.want, r)
    requires PushesSeed(c, r) ==> NeedsSeed(c.want, r)
    ensures Goes(sb, c.want, prev, FirstHalf(c, r), r, AfterFirst(sb.caps, c, r))
    ensures !r.pending ==> Quiet(sb.caps, FirstHalf(c, r), r)
  {
    hide Run, LawfulRun, Quiet, Effect, Sound, Governed, Lifted;
    var want, u := c.want, Unarchived(r);
    var a := if c.live.Some? && c.live.value.archived then [UNARCHIVE] else [];
    var b := if PushesSeed(c, r) then [LiftIfRefused(Seed(want)), Seed(want)] else [];
    UnarchiveGoes(sb, want, prev, c, r);
    assert FirstHalf(c, r) == a + b;
    GoesOn(sb, want, prev, a, b, r, u);
    if PushesSeed(c, r) {
      PushGoes(sb, want, prev, u);
    } else {
      NothingGoes(sb, want, prev, u);
    }
  }

  lemma NothingGoes(sb: Sandbox, want: LockRepo, prev: Option<LockRepo>, r: Repo)
    ensures Goes(sb, want, prev, [], r, r) && Quiet(sb.caps, [], r)
  {
  }

  // ------------------------------------------------------------ the second half

  /** What was read back is this repository, before or after its push: all it is read for is the same. */
  predicate ReadBack(current: Option<Repo>, r: Repo) {
    current.Some? ==>
      && current.value.defaultBranch == r.defaultBranch && current.value.visibility == r.visibility
      && current.value.topics == r.topics
  }

  /** The stale refs of a change are all there, and are all there are. */
  ghost predicate ListsStale(want: LockRepo, prev: Option<LockRepo>, c: Change, r: Repo) {
    && (forall t :: t in c.staleTags <==> t in r.tags && OldTag(want, prev, t))
    && (forall b :: b in c.staleBranches <==> b in r.branches && OldBranch(want, prev, b))
  }

  /** What the first half leaves for the second. */
  ghost predicate Settleable(want: LockRepo, prev: Option<LockRepo>, c: Change, pushed: bool, r: Repo) {
    && !r.archived
    && (want.empty ==> !pushed && r.empty && c.staleTags + c.staleBranches == [])
    && (!want.empty ==> Seeded(want, r) && !Applied(r).empty)
    && (pushed ==> Lists(Applied(r), want.defaultBranch, want.baseline))
    && (!pushed ==> !(r.pending && r.empty))
    && (c.staleTags + c.staleBranches != [] ==> !r.empty)
    && ListsStale(want, prev, c, r)
  }

  function Waits(sb: Sandbox, want: LockRepo, pushed: bool, current: Option<Repo>): seq<Step> {
    if (SettlingSettings(sb, want, current) != NO_SETTINGS || want.archived) && pushed
    then [WaitPushed(want.defaultBranch, want.baseline)] else []
  }

  function SettingsSteps(sb: Sandbox, want: LockRepo, current: Option<Repo>): seq<Step> {
    var settings := SettlingSettings(sb, want, current);
    if settings != NO_SETTINGS then [UpdateSettings(settings)] else []
  }

  function TopicsSteps(sb: Sandbox, want: LockRepo, current: Option<Repo>): seq<Step> {
    if sb.caps.topics && (current.None? || Sort(current.value.topics) != want.topics)
    then [SetTopics(want.topics)] else []
  }

  function RemovalSteps(c: Change): seq<Step> {
    if c.staleTags + c.staleBranches != [] then [DeleteRefs(c.staleBranches, c.staleTags)] else []
  }

  function ArchiveSteps(want: LockRepo): seq<Step> {
    if want.archived then [ARCHIVE] else []
  }

  function AfterWaits(sb: Sandbox, want: LockRepo, pushed: bool, current: Option<Repo>, r: Repo): Repo {
    if Waits(sb, want, pushed, current) != [] then Applied(r) else r
  }

  function AfterSettings(sb: Sandbox, want: LockRepo, current: Option<Repo>, r: Repo): Repo {
    if SettingsSteps(sb, want, current) != [] then Effect(sb.caps, SettingsSteps(sb, want, current)[0], r) else r
  }

  function AfterTopics(sb: Sandbox, want: LockRepo, current: Option<Repo>, r: Repo): Repo {
    if TopicsSteps(sb, want, current) != [] then r.(topics := want.topics) else r
  }

  function AfterRemoval(caps: Caps, c: Change, r: Repo): Repo {
    if RemovalSteps(c) != [] then Effect(caps, RemovalSteps(c)[0], r) else r
  }

  function AfterSecond(sb: Sandbox, c: Change, pushed: bool, current: Option<Repo>, r: Repo): Repo {
    var w := AfterWaits(sb, c.want, pushed, current, r);
    var t := AfterTopics(sb, c.want, current, AfterSettings(sb, c.want, current, w));
    var d := AfterRemoval(sb.caps, c, t);
    if c.want.archived then d.(archived := true, pending := false) else d
  }

  /** After the settings the repository is what they say; only archiving still needs the push applied. */
  ghost predicate Settled(sb: Sandbox, want: LockRepo, prev: Option<LockRepo>, c: Change, r: Repo) {
    && !r.archived && (want.archived ==> !(r.pending && r.empty))
    && (!want.empty ==> r.defaultBranch == want.defaultBranch)
    && (c.staleTags + c.staleBranches != [] ==> !r.empty && !want.empty)
    && ListsStale(want, prev, c, r)
  }

  lemma WaitsGo(sb: Sandbox, prev: Option<LockRepo>, c: Change, pushed: bool, current: Option<Repo>, r: Repo)
    requires pushed ==> !c.want.empty && Lists(Applied(r), c.want.defaultBranch, c.want.baseline)
    ensures
      var next := AfterWaits(sb, c.want, pushed, current, r);
      && Goes(sb, c.want, prev, Waits(sb, c.want, pushed, current), r, next)
      && Quiet(sb.caps, Waits(sb, c.want, pushed, current), r)
  {
    var wait := WaitPushed(c.want.defaultBranch, c.want.baseline);
    if Waits(sb, c.want, pushed, current) != [] {
      GoesOne(sb, c.want, prev, wait, r);
      QuietOne(sb.caps, wait, r);
    }
  }

  lemma SettingsGo(sb: Sandbox, prev: Option<LockRepo>, c: Change, pushed: bool, current: Option<Repo>, r: Repo)
    requires Settleable(c.want, prev, c, pushed, r) && ReadBack(current, r)
    ensures
      var w := AfterWaits(sb, c.want, pushed, current, r);
      var next := AfterSettings(sb, c.want, current, w);
      && Goes(sb, c.want, prev, SettingsSteps(sb, c.want, current), w, next)
      && Settled(sb, c.want, prev, c, next)
      && (pushed || !r.pending ==>
            Quiet(sb.caps, SettingsSteps(sb, c.want, current), w) && (c.want.archived ==> !next.pending))
  {
    hide Run, LawfulRun, Quiet;
    var w := AfterWaits(sb, c.want, pushed, current, r);
    if SettingsSteps(sb, c.want, current) != [] {
      var step := SettingsSteps(sb, c.want, current)[0];
      GoesOne(sb, c.want, prev, step, w);
      QuietOne(sb.caps, step, w);
    } else {
      NothingGoes(sb, c.want, prev, w);
    }
  }

  lemma TopicsGo(sb: Sandbox, want: LockRepo, prev: Option<LockRepo>, current: Option<Repo>, r: Repo)
    requires !r.archived
    ensures Goes(sb, want, prev, TopicsSteps(sb, want, current), r, AfterTopics(sb, want, current, r))
    ensures Quiet(sb.caps, TopicsSteps(sb, want, current), r)
  {
    hide Run, LawfulRun, Quiet;
    if TopicsSteps(sb, want, current) != [] {
      GoesOne(sb, want, prev, SetTopics(want.topics), r);
      QuietOne(sb.caps, SetTopics(want.topics), r);
    } else {
      NothingGoes(sb, want, prev, r);
    }
  }

  lemma TopicsStaySettled(sb: Sandbox, prev: Option<LockRepo>, c: Change, current: Option<Repo>, r: Repo)
    requires Settled(sb, c.want, prev, c, r)
    ensures Settled(sb, c.want, prev, c, AfterTopics(sb, c.want, current, r))
  {
  }

  /** The one refusal an apply can meet, and it is known before the first write. */
  lemma RemovalGoes(sb: Sandbox, prev: Option<LockRepo>, c: Change, r: Repo)
    requires Settled(sb, c.want, prev, c, r)
    ensures LawfulRun(sb, c.want, prev, RemovalSteps(c), r) && Quiet(sb.caps, RemovalSteps(c), r)
    ensures Run(sb.caps, RemovalSteps(c), r).ok <==> !Blocked(c.want, prev, r)
    ensures !Blocked(c.want, prev, r) ==> Run(sb.caps, RemovalSteps(c), r).repo == AfterRemoval(sb.caps, c, r)
  {
    if RemovalSteps(c) != [] {
      var step := RemovalSteps(c)[0];
      assert RemovalSteps(c) == [step];
      RunOne(sb.caps, step, r);
      QuietOne(sb.caps, step, r);
      assert [step][1..] == [];
      assert Lawful(sb, c.want, prev, step, r);
      assert Accepts(step, r) <==> !Blocked(c.want, prev, r);
    } else {
      assert c.staleBranches == [] by {
        FirstIsIn(c.staleBranches);
      }
    }
  }

  lemma ArchiveGoes(sb: Sandbox, want: LockRepo, prev: Option<LockRepo>, r: Repo)
    requires !r.archived && (want.archived ==> !(r.pending && r.empty))
    ensures
      Goes(sb, want, prev, ArchiveSteps(want), r, if want.archived then r.(archived := true, pending := false) else r)
    ensures Quiet(sb.caps, ArchiveSteps(want), r) <==> (want.archived ==> !r.pending)
  {
    hide Run, LawfulRun, Quiet;
    if want.archived {
      GoesOne(sb, want, prev, ARCHIVE, r);
      QuietOne(sb.caps, ARCHIVE, r);
    } else {
      NothingGoes(sb, want, prev, r);
    }
  }

  /** Archiving over the push that removes stale refs is the only settings write that meets one. */
  predicate ArchivesOverRemoval(prev: Option<LockRepo>, c: Change, r: Repo) {
    c.want.archived && RemovalSteps(c) != [] && !Blocked(c.want, prev, r)
  }

  lemma RestGoes(sb: Sandbox, prev: Option<LockRepo>, c: Change, r: Repo)
    requires Settled(sb, c.want, prev, c, r)
    ensures
      var steps := RemovalSteps(c) + ArchiveSteps(c.want);
      var d := AfterRemoval(sb.caps, c, r);
      && LawfulRun(sb, c.want, prev, steps, r)
      && (Run(sb.caps, steps, r).ok <==> !Blocked(c.want, prev, r))
      && (!Blocked(c.want, prev, r) ==>
            Run(sb.caps, steps, r).repo == if c.want.archived then d.(archived := true, pending := false) else d)
      && ((c.want.archived ==> !r.pending) ==>
            (Quiet(sb.caps, steps, r) <==> !ArchivesOverRemoval(prev, c, r)))
  {
    hide Run, LawfulRun, Quiet, Blocked, ListsStale;
    var a, b, d := RemovalSteps(c), ArchiveSteps(c.want), AfterRemoval(sb.caps, c, r);
    RemovalGoes(sb, prev, c, r);
    LawfulAppend(sb, c.want, prev, a, b, r);
    RunAppend(sb.caps, a, b, r);
    QuietAppend(sb.caps, a, b, r);
    ArchiveGoes(sb, c.want, prev, d);
  }

  predicate SameRefs(a: Repo, b: Repo) {
    a.branches == b.branches && a.tags == b.tags && a.requests == b.requests
  }

  lemma SettlingKeepsRefs(sb: Sandbox, want: LockRepo, pushed: bool, current: Option<Repo>, r: Repo)
    ensures SameRefs(AfterWaits(sb, want, pushed, current, r), r)
    ensures SameRefs(AfterSettings(sb, want, current, r), r)
    ensures SameRefs(AfterTopics(sb, want, current, r), r)
  {
  }

  lemma SameRefsSameBlock(want: LockRepo, prev: Option<LockRepo>, a: Repo, b: Repo)
    requires SameRefs(a, b)
    ensures Blocked(want, prev, a) == Blocked(want, prev, b)
  {
    assert forall x :: PointedAt(a, x) == PointedAt(b, x);
  }

  lemma SecondHalfGoes(sb: Sandbox, prev: Option<LockRepo>, c: Change, pushed: bool, current: Option<Repo>, r: Repo)
    requires Settleable(c.want, prev, c, pushed, r) && ReadBack(current, r)
    ensures LawfulRun(sb, c.want, prev, SecondHalf(sb, c, pushed, current), r)
    ensures Run(sb.caps, SecondHalf(sb, c, pushed, current), r).ok <==> !Blocked(c.want, prev, r)
    ensures !Blocked(c.want, prev, r) ==>
      Run(sb.caps, SecondHalf(sb, c, pushed, current), r).repo == AfterSecond(sb, c, pushed, current, r)
    ensures pushed || !r.pending ==>
      (Quiet(sb.caps, SecondHalf(sb, c, pushed, current), r) <==> !ArchivesOverRemoval(prev, c, r))
  {
    hide Run, LawfulRun, Quiet, Blocked, Settled, Settleable, AfterWaits, AfterSettings, AfterTopics, ReadBack;
    hide Waits, SettingsSteps, TopicsSteps;
    var want := c.want;
    var w := AfterWaits(sb, want, pushed, current, r);
    var s := AfterSettings(sb, want, current, w);
    var t := AfterTopics(sb, want, current, s);
    var a, b, d := Waits(sb, want, pushed, current), SettingsSteps(sb, want, current), TopicsSteps(sb, want, current);
    var rest := RemovalSteps(c) + ArchiveSteps(want);
    SecondHalfIs(sb, c, pushed, current);
    SettleableIsPushed(c, prev, pushed, r);
    WaitsGo(sb, prev, c, pushed, current, r);
    SettingsGo(sb, prev, c, pushed, current, r);
    assert !s.archived by {
      SettledIsOpen(sb, prev, c, s);
    }
    TopicsGo(sb, want, prev, current, s);
    TopicsStaySettled(sb, prev, c, current, s);
    RestGoes(sb, prev, c, t);
    SettlingKeepsRefs(sb, want, pushed, current, r);
    SettlingKeepsRefs(sb, want, pushed, current, w);
    SettlingKeepsRefs(sb, want, pushed, current, s);
    SameRefsSameBlock(want, prev, r, t);
    TopicsKeepPending(sb, want, current, s);
    GoesOn(sb, want, prev, d, rest, s, t);
    GoesOn(sb, want, prev, b, d + rest, w, s);
    GoesOn(sb, want, prev, a, b + (d + rest), r, w);
  }

  lemma SettledIsOpen(sb: Sandbox, prev: Option<LockRepo>, c: Change, r: Repo)
    requires Settled(sb, c.want, prev, c, r)
    ensures !r.archived
  {
  }

  lemma SettleableIsPushed(c: Change, prev: Option<LockRepo>, pushed: bool, r: Repo)
    requires Settleable(c.want, prev, c, pushed, r)
    ensures pushed ==> !c.want.empty && Lists(Applied(r), c.want.defaultBranch, c.want.baseline)
  {
  }

  lemma TopicsKeepPending(sb: Sandbox, want: LockRepo, current: Option<Repo>, r: Repo)
    ensures AfterTopics(sb, want, current, r).pending == r.pending
  {
  }

  /** The whole run of a change, whatever was read back in between. */
  function Steps(sb: Sandbox, c: Change, current: Option<Repo>, r: Repo): seq<Step> {
    FirstHalf(c, r) + SecondHalf(sb, c, PushesSeed(c, r), current)
  }

  lemma SecondHalfIs(sb: Sandbox, c: Change, pushed: bool, current: Option<Repo>)
    ensures SecondHalf(sb, c, pushed, current) ==
      Waits(sb, c.want, pushed, current)
      + (SettingsSteps(sb, c.want, current)
         + (TopicsSteps(sb, c.want, current) + (RemovalSteps(c) + ArchiveSteps(c.want))))
  {
    hide SettlingSettings;
  }
}
