/** What a run of apply comes to, for a repository found or one just made, finished or killed. */
module ApplyConverges {
  import opened Text
  import opened ForgeModel
  import opened Compare
  import opened Apply
  import opened ApplyRuns
  import opened ApplyUnread

  /** All that apply owns is as the fleet declares it, and what the previous lock left is gone. */
  ghost predicate AtGoal(sb: Sandbox, want: LockRepo, prev: Option<LockRepo>, r: Repo) {
    && IsOurs(sb, r)
    && SettingsAsDeclared(sb, want, r)
    && r.empty == want.empty
    && (!want.empty ==> r.defaultBranch == want.defaultBranch && Seeded(want, r))
    && NothingOld(want, prev, r)
  }

  predicate SettingsAsDeclared(sb: Sandbox, want: LockRepo, r: Repo) {
    && r.archived == want.archived
    && (sb.caps.visibility ==> r.visibility == want.visibility)
    && (sb.caps.topics ==> Sort(r.topics) == want.topics)
  }

  ghost predicate NothingOld(want: LockRepo, prev: Option<LockRepo>, r: Repo) {
    && (forall t :: t in r.tags ==> !OldTag(want, prev, t))
    && (forall b :: b in r.branches ==> !OldBranch(want, prev, b))
  }

  lemma NoNotesWhenAsDeclared(sb: Sandbox, want: LockRepo, r: Repo)
    ensures SettingsNotes(sb, want, r) == [] <==> SettingsAsDeclared(sb, want, r)
  {
  }

  lemma NothingOldNothingStale(want: LockRepo, prev: LockRepo, r: Repo)
    ensures
      StaleTags(want, prev, r, |prev.tags|) + StaleBranches(want, prev, r) == [] <==> NothingOld(want, Some(prev), r)
  {
    var stale := StaleTags(want, prev, r, |prev.tags|);
    assert prev.tags[..|prev.tags|] == prev.tags;
    FirstIsIn(stale);
    assert forall t :: t in stale <==> t in r.tags && OldTag(want, Some(prev), t);
  }

  lemma NothingOldInNothing(want: LockRepo, prev: Option<LockRepo>, r: Repo)
    requires prev.None? || (r.branches == map[] && r.tags == map[])
    ensures NothingOld(want, prev, r)
  {
  }

  /** Apply plans nothing for a readable repository exactly when it is at its goal. */
  lemma NothingNeededAtGoal(sb: Sandbox, want: LockRepo, prev: Option<LockRepo>, r: Repo)
    requires Sound(sb, want, r)
    ensures Diff(sb, want, prev, Some(r)).Plan?
    ensures !Blind(sb, r) ==>
      (!Needed(Diff(sb, want, prev, Some(r)).change) <==> AtGoal(sb, want, prev, r))
    ensures AtGoal(sb, want, prev, r) ==> !Needed(Diff(sb, want, prev, Some(r)).change)
  {
    hide SettingsNotes, StaleTags, StaleBranches, Seeded, NothingOld, BaselineTags;
    NoNotesWhenAsDeclared(sb, want, r);
    if prev.Some? {
      NothingOldNothingStale(want, prev.value, r);
    }
    if prev.None? || want.empty {
      NothingOldInNothing(want, prev, r);
    }
  }

  /** A repository at its goal is the goal, topics compared sorted. */
  lemma AtGoalIsGoal(sb: Sandbox, want: LockRepo, prev: Option<LockRepo>, r: Repo)
    requires WellFormed(want) && Sound(sb, want, r) && AtGoal(sb, want, prev, r)
    ensures Canonical(Goal(sb, want, prev, r)) == Canonical(r)
  {
    SortKeepsSorted(want.topics);
    AtGoalKeepsRefs(sb, want, prev, r);
    hide GoalBranches, GoalTags, GoalRules, Seeded, NothingOld, Sorted;
  }

  lemma AtGoalKeepsRefs(sb: Sandbox, want: LockRepo, prev: Option<LockRepo>, r: Repo)
    requires AtGoal(sb, want, prev, r)
    ensures GoalBranches(want, prev, r) == r.branches && GoalTags(want, prev, r) == r.tags
    ensures GoalRules(want, r) == r.rules
  {
    hide Seeded, OldTag, OldBranch, Governed, Lifted, SettingsAsDeclared;
    assert !NeedsSeed(want, r);
  }

  // ------------------------------------------------------------ from the plan to the two halves

  lemma FirstHalfKeeps(sb: Sandbox, c: Change, r: Repo)
    requires Sound(sb, c.want, r) && (PushesSeed(c, r) ==> NeedsSeed(c.want, r))
    ensures
      var next := AfterFirst(sb.caps, c, r);
      && !next.archived && next.requests == r.requests && next.defaultBranch == r.defaultBranch
      && next.visibility == r.visibility && next.topics == r.topics && next.empty == r.empty
      && next.description == r.description
      && (forall t :: t in next.tags <==> t in r.tags || (PushesSeed(c, r) && t in c.want.tags + [BASELINE_TAG]))
      && (forall b :: b in next.branches <==> b in r.branches || (PushesSeed(c, r) && b == c.want.defaultBranch))
  {
    LiftedKeepsRefs(Unarchived(r), c.want.defaultBranch);
    hide Lifted, Governed;
  }

  lemma FirstHalfSeeds(sb: Sandbox, c: Change, r: Repo)
    requires WellFormed(c.want) && Sound(sb, c.want, r) && (PushesSeed(c, r) <==> NeedsSeed(c.want, r))
    ensures
      var next := AfterFirst(sb.caps, c, r);
      && (!c.want.empty ==> Seeded(c.want, next) && !Applied(next).empty)
      && (PushesSeed(c, r) ==> Lists(Applied(next), c.want.defaultBranch, c.want.baseline) && next.pending)
      && (!PushesSeed(c, r) ==> !(next.pending && next.empty) && (!r.pending ==> !next.pending))
  {
    LiftedKeepsRefs(Unarchived(r), c.want.defaultBranch);
    hide Lifted, Governed;
  }

  /** No tag of the seed is an old one, nor is the branch. */
  lemma SeedIsNotOld(want: LockRepo, prev: Option<LockRepo>)
    requires LegalPrevious(prev)
    ensures forall t :: t in want.tags + [BASELINE_TAG] ==> !OldTag(want, prev, t)
    ensures !OldBranch(want, prev, want.defaultBranch)
  {
  }

  /** What a change says of the repository it is about, as `DiffOne` or a creation leaves it. */
  ghost predicate Fits(sb: Sandbox, prev: Option<LockRepo>, c: Change, r: Repo) {
    && About(c, r)
    && (PushesSeed(c, r) <==> NeedsSeed(c.want, r))
    && ListsStale(c.want, prev, c, r)
    && (c.staleTags + c.staleBranches != [] ==> !r.empty)
  }

  lemma EmptyHasNothingOld(sb: Sandbox, want: LockRepo, prev: Option<LockRepo>, r: Repo)
    requires LegalPrevious(prev) && Sound(sb, want, r) && r.empty
    ensures NothingOld(want, prev, r)
  {
    SeedIsNotOld(want, prev);
  }

  lemma StaleIsListed(want: LockRepo, prev: LockRepo, r: Repo)
    ensures forall t :: t in StaleTags(want, prev, r, |prev.tags|) <==> t in r.tags && OldTag(want, Some(prev), t)
    ensures forall b :: b in StaleBranches(want, prev, r) <==> b in r.branches && OldBranch(want, Some(prev), b)
  {
    assert prev.tags[..|prev.tags|] == prev.tags;
  }

  lemma PlanListsStale(sb: Sandbox, want: LockRepo, prev: Option<LockRepo>, r: Repo)
    requires LegalPrevious(prev) && Sound(sb, want, r) && !Blind(sb, r)
    ensures Diff(sb, want, prev, Some(r)).Plan?
    ensures ListsStale(want, prev, Diff(sb, want, prev, Some(r)).change, r)
  {
    hide Seeded, StaleTags, StaleBranches, SettingsNotes, OldTag, OldBranch, BaselineTags;
    if prev.Some? {
      StaleIsListed(want, prev.value, r);
    } else {
      NothingOldInNothing(want, prev, r);
    }
    if r.empty {
      EmptyHasNothingOld(sb, want, prev, r);
    }
  }

  lemma PlanFits(sb: Sandbox, want: LockRepo, prev: Option<LockRepo>, r: Repo)
    requires LegalPrevious(prev) && Sound(sb, want, r) && !Blind(sb, r)
    ensures Diff(sb, want, prev, Some(r)).Plan?
    ensures Diff(sb, want, prev, Some(r)).change.want == want
    ensures Fits(sb, prev, Diff(sb, want, prev, Some(r)).change, r)
  {
    hide Seeded, StaleTags, StaleBranches, SettingsNotes, ListsStale, BaselineTags;
    PlanListsStale(sb, want, prev, r);
  }

  lemma FirstHalfStillFits(sb: Sandbox, prev: Option<LockRepo>, c: Change, r: Repo)
    requires LegalPrevious(prev) && Sound(sb, c.want, r) && Fits(sb, prev, c, r)
    ensures ListsStale(c.want, prev, c, AfterFirst(sb.caps, c, r))
  {
    hide AfterFirst, Sound, NeedsSeed, PushesSeed, OldTag, OldBranch;
    FirstHalfKeeps(sb, c, r);
    SeedIsNotOld(c.want, prev);
  }

  lemma FirstHalfSettles(sb: Sandbox, prev: Option<LockRepo>, c: Change, r: Repo)
    requires WellFormed(c.want) && LegalPrevious(prev) && Sound(sb, c.want, r) && Fits(sb, prev, c, r)
    ensures Settleable(c.want, prev, c, PushesSeed(c, r), AfterFirst(sb.caps, c, r))
    ensures !r.pending && !PushesSeed(c, r) ==> !AfterFirst(sb.caps, c, r).pending
    ensures Blocked(c.want, prev, AfterFirst(sb.caps, c, r)) == Blocked(c.want, prev, r)
  {
    FirstHalfGoes(sb, prev, c, r);
    FirstHalfKeeps(sb, c, r);
    FirstHalfSeeds(sb, c, r);
    FirstHalfStillFits(sb, prev, c, r);
    hide AfterFirst, Seeded, Applied, Lists, ListsStale, Blocked, BaselineTags, WellFormed, LegalPrevious;
    LawfulRunKeepsGoal(sb, c.want, prev, FirstHalf(c, r), r);
  }

  // ------------------------------------------------------------ the whole run

  lemma ReadBackStill(caps: Caps, sb: Sandbox, c: Change, current: Option<Repo>, r: Repo)
    requires Sound(sb, c.want, r) && (PushesSeed(c, r) ==> NeedsSeed(c.want, r)) && ReadBack(current, r)
    ensures ReadBack(current, AfterFirst(sb.caps, c, r))
  {
    hide AfterFirst, Sound, NeedsSeed, PushesSeed;
    FirstHalfKeeps(sb, c, r);
  }

  /**
   * The whole run is lawful. It is refused only when an old default branch has an open request on
   * it, and it keeps settings clear of its own pushes unless it archives after removing stale refs.
   */
  lemma RunGoes(sb: Sandbox, prev: Option<LockRepo>, c: Change, current: Option<Repo>, r: Repo)
    requires WellFormed(c.want) && LegalPrevious(prev) && Sound(sb, c.want, r) && Fits(sb, prev, c, r)
    requires ReadBack(current, r)
    ensures LawfulRun(sb, c.want, prev, Steps(sb, c, current, r), r)
    ensures Run(sb.caps, Steps(sb, c, current, r), r).ok <==> !Blocked(c.want, prev, r)
    ensures !Blocked(c.want, prev, r) ==>
      Run(sb.caps, Steps(sb, c, current, r), r).repo
        == AfterSecond(sb, c, PushesSeed(c, r), current, AfterFirst(sb.caps, c, r))
    ensures !r.pending ==> (Quiet(sb.caps, Steps(sb, c, current, r), r) <==> !ArchivesOverRemoval(prev, c, r))
  {
    var a, b, mid := FirstHalf(c, r), SecondHalf(sb, c, PushesSeed(c, r), current), AfterFirst(sb.caps, c, r);
    FirstHalfGoes(sb, prev, c, r);
    FirstHalfSettles(sb, prev, c, r);
    ReadBackStill(sb.caps, sb, c, current, r);
    hide FirstHalf, SecondHalf, AfterFirst, AfterSecond, Run, LawfulRun, Quiet, Blocked, Settleable, ReadBack, Sound;
    hide WellFormed, LegalPrevious, NeedsSeed, PushesSeed, ListsStale;
    SecondHalfGoes(sb, prev, c, PushesSeed(c, r), current, mid);
    GoesOn(sb, c.want, prev, a, b, r, mid);
  }

  /** It reads as holding commits, or soon will, exactly when it should. */
  predicate Filled(want: LockRepo, r: Repo) {
    if want.empty then r.empty && !r.pending else !(r.empty && !r.pending)
  }

  lemma SettingsAreWritten(sb: Sandbox, prev: Option<LockRepo>, c: Change, pushed: bool, current: Option<Repo>, r: Repo)
    requires Settleable(c.want, prev, c, pushed, r) && ReadBack(current, r) && Filled(c.want, r)
    ensures
      var s := AfterSettings(sb, c.want, current, AfterWaits(sb, c.want, pushed, current, r));
      && (sb.caps.visibility ==> s.visibility == c.want.visibility)
      && (!c.want.empty ==> s.defaultBranch == c.want.defaultBranch)
      && s.topics == r.topics && s.description == r.description && Filled(c.want, s)
  {
    hide ListsStale, Seeded;
  }

  lemma TopicsAreWritten(sb: Sandbox, want: LockRepo, current: Option<Repo>, r: Repo)
    requires WellFormed(want) && (current.Some? ==> current.value.topics == r.topics)
    ensures sb.caps.topics ==> Sort(AfterTopics(sb, want, current, r).topics) == want.topics
    ensures AfterTopics(sb, want, current, r) == r.(topics := AfterTopics(sb, want, current, r).topics)
  {
    SortKeepsSorted(want.topics);
    hide Sort, WellFormed, Insert, Sorted;
    assert TopicsSteps(sb, want, current) == [] ==> current.Some? || !sb.caps.topics;
  }

  lemma StaleIsGone(sb: Sandbox, prev: Option<LockRepo>, c: Change, r: Repo)
    requires LegalPrevious(prev) && Settled(sb, c.want, prev, c, r) && Filled(c.want, r)
    requires !c.want.empty ==> Seeded(c.want, r)
    ensures
      var d := AfterRemoval(sb.caps, c, r);
      && NothingOld(c.want, prev, d) && (!c.want.empty ==> Seeded(c.want, d)) && Filled(c.want, d)
      && d == r.(branches := d.branches, tags := d.tags, pending := d.pending)
      && (c.want.archived ==> !(d.pending && d.empty))
  {
    SeedIsNotOld(c.want, prev);
    hide OldTag, OldBranch;
    FirstIsIn(c.staleTags);
    FirstIsIn(c.staleBranches);
  }

  lemma SeededByRefs(want: LockRepo, prev: Option<LockRepo>, a: Repo, b: Repo)
    requires a.branches == b.branches && a.tags == b.tags
    ensures Seeded(want, a) == Seeded(want, b) && NothingOld(want, prev, a) == NothingOld(want, prev, b)
  {
  }

  /** Run to its end, the repository is at its goal as soon as everything is applied. */
  lemma SecondHalfEndsAtGoal(sb: Sandbox, prev: Option<LockRepo>, c: Change, pushed: bool, current: Option<Repo>,
        r: Repo)
    requires WellFormed(c.want) && LegalPrevious(prev) && IsOurs(sb, r)
    requires Settleable(c.want, prev, c, pushed, r) && ReadBack(current, r) && Filled(c.want, r)
    ensures AtGoal(sb, c.want, prev, Applied(AfterSecond(sb, c, pushed, current, r)))
  {
    var want := c.want;
    var w := AfterWaits(sb, want, pushed, current, r);
    var s := AfterSettings(sb, want, current, w);
    var t := AfterTopics(sb, want, current, s);
    var d := AfterRemoval(sb.caps, c, t);
    var end := AfterSecond(sb, c, pushed, current, r);
    SettingsGo(sb, prev, c, pushed, current, r);
    TopicsStaySettled(sb, prev, c, current, s);
    SettingsAreWritten(sb, prev, c, pushed, current, r);
    TopicsAreWritten(sb, want, current, s);
    SettlingKeepsRefs(sb, want, pushed, current, r);
    SettlingKeepsRefs(sb, want, pushed, current, w);
    SettlingKeepsRefs(sb, want, pushed, current, s);
    SeededByRefs(want, prev, r, t);
    StaleIsGone(sb, prev, c, t);
    SeededByRefs(want, prev, d, Applied(end));
    hide AfterWaits, AfterSettings, AfterTopics, AfterRemoval, Seeded, NothingOld, ListsStale, Quiet, Goes, Lists;
    hide LegalPrevious, Waits, SettingsSteps, TopicsSteps, RemovalSteps;
  }

  lemma FirstHalfFills(sb: Sandbox, prev: Option<LockRepo>, c: Change, r: Repo)
    requires WellFormed(c.want) && Sound(sb, c.want, r) && Fits(sb, prev, c, r)
    ensures Filled(c.want, AfterFirst(sb.caps, c, r)) && IsOurs(sb, AfterFirst(sb.caps, c, r))
  {
    FirstHalfKeeps(sb, c, r);
    FirstHalfSeeds(sb, c, r);
    hide AfterFirst, Seeded, ListsStale, BaselineTags;
  }

  lemma RunEndsAtGoal(sb: Sandbox, prev: Option<LockRepo>, c: Change, current: Option<Repo>, r: Repo)
    requires WellFormed(c.want) && LegalPrevious(prev) && Sound(sb, c.want, r) && Fits(sb, prev, c, r)
    requires ReadBack(current, r) && !Blocked(c.want, prev, r)
    ensures
      var end := Applied(Run(sb.caps, Steps(sb, c, current, r), r).repo);
      && AtGoal(sb, c.want, prev, end) && Sound(sb, c.want, end)
      && Goal(sb, c.want, prev, end) == Goal(sb, c.want, prev, r)
      && Canonical(end) == Canonical(Goal(sb, c.want, prev, r))
  {
    hide AfterFirst, AfterSecond, Settleable, ReadBack, Filled, Fits, Sound, LawfulRun, Run, Quiet, Steps, AtGoal;
    hide Goal, WellFormed, LegalPrevious, Blocked, Canonical, IsOurs, PushesSeed;
    var mid, end := AfterFirst(sb.caps, c, r), Run(sb.caps, Steps(sb, c, current, r), r).repo;
    RunGoes(sb, prev, c, current, r);
    FirstHalfSettles(sb, prev, c, r);
    FirstHalfFills(sb, prev, c, r);
    assert ReadBack(current, mid) by {
      FitsMeansNeed(sb, prev, c, r);
      ReadBackStill(sb.caps, sb, c, current, r);
    }
    SecondHalfEndsAtGoal(sb, prev, c, PushesSeed(c, r), current, mid);
    LawfulRunKeepsGoal(sb, c.want, prev, Steps(sb, c, current, r), r);
    AheadKeepsGoal(sb, c.want, prev, end, Applied(end));
    AtGoalIsGoal(sb, c.want, prev, Applied(end));
  }

  lemma FitsMeansNeed(sb: Sandbox, prev: Option<LockRepo>, c: Change, r: Repo)
    requires Fits(sb, prev, c, r)
    ensures PushesSeed(c, r) <==> NeedsSeed(c.want, r)
  {
  }

  // ------------------------------------------------------------ the main results

  /** Nothing is stale against the lock an apply writes. */
  lemma GoalHoldsForItsOwnLock(sb: Sandbox, want: LockRepo, prev: Option<LockRepo>, r: Repo)
    requires AtGoal(sb, want, prev, r)
    ensures AtGoal(sb, want, Some(want), r)
  {
  }

  /**
   * Apply to a readable repository: it is refused exactly when an old default branch that must go
   * has an open request on it; otherwise it ends at the goal, and a plan against the lock it then
   * writes needs nothing.
   */
  lemma ApplyReachesGoal(sb: Sandbox, want: LockRepo, prev: Option<LockRepo>, r: Repo)
    requires WellFormed(want) && LegalPrevious(prev) && Sound(sb, want, r) && !Blind(sb, r)
    ensures Diff(sb, want, prev, Some(r)).Plan?
    ensures
      var steps := ApplySteps(sb, Diff(sb, want, prev, Some(r)).change, r);
      && (Run(sb.caps, steps, r).ok <==> !Blocked(want, prev, r))
      && (Run(sb.caps, steps, r).ok ==>
            var end := Applied(Run(sb.caps, steps, r).repo);
            && Canonical(end) == Canonical(Goal(sb, want, prev, r))
            && Diff(sb, want, Some(want), Some(end)).Plan?
            && !Needed(Diff(sb, want, Some(want), Some(end)).change))
  {
    hide Sound, Goal, Blocked, WellFormed, LegalPrevious, Diff, Fits, AtGoal, Canonical, Blind, Quiet;
    PlanFits(sb, want, prev, r);
    var c := Diff(sb, want, prev, Some(r)).change;
    RunGoes(sb, prev, c, Some(r), r);
    if !Blocked(want, prev, r) {
      var end := Applied(Run(sb.caps, ApplySteps(sb, c, r), r).repo);
      RunEndsAtGoal(sb, prev, c, Some(r), r);
      GoalHoldsForItsOwnLock(sb, want, prev, end);
      NothingNeededAtGoal(sb, want, Some(want), end);
    }
  }

  /** What apply leaves of a repository when it is killed after some of its writes. */
  predicate KilledAt(sb: Sandbox, want: LockRepo, prev: Option<LockRepo>, r: Repo, later: Repo, applies: seq<bool>) {
    var p := Diff(sb, want, prev, Some(r));
    p.Plan? && Needed(p.change) && Left(sb.caps, ApplySteps(sb, p.change, r), applies, r, later)
  }

  ghost predicate KilledTimes(sb: Sandbox, want: LockRepo, prev: Option<LockRepo>, r: Repo, later: Repo, n: nat)
    decreases n
  {
    if n == 0 then later == r
    else exists mid, applies ::
      KilledAt(sb, want, prev, r, mid, applies) && KilledTimes(sb, want, prev, mid, later, n - 1)
  }

  /** Sound, and unreadable only once everything is done. */
  ghost predicate OnTheWay(sb: Sandbox, want: LockRepo, prev: Option<LockRepo>, r: Repo) {
    Sound(sb, want, r) && (Blind(sb, r) ==> AtGoal(sb, want, prev, r))
  }

  predicate NoneArchives(steps: seq<Step>) {
    forall i :: 0 <= i < |steps| ==> !Archives(steps[i])
  }

  lemma PartsBeforeTheLast(sb: Sandbox, c: Change, pushed: bool, current: Option<Repo>, r: Repo)
    ensures NoneArchives(FirstHalf(c, r)) && NoneArchives(Waits(sb, c.want, pushed, current))
    ensures NoneArchives(SettingsSteps(sb, c.want, current)) && NoneArchives(TopicsSteps(sb, c.want, current))
    ensures NoneArchives(RemovalSteps(c))
  {
    hide PushesSeed;
  }

  lemma OnlyTheLastArchives(sb: Sandbox, c: Change, pushed: bool, current: Option<Repo>, r: Repo)
    ensures
      var steps := FirstHalf(c, r) + SecondHalf(sb, c, pushed, current);
      && (forall i :: 0 <= i < |steps| - 1 ==> !Archives(steps[i]))
      && (!c.want.archived ==> NoneArchives(steps))
  {
    SecondHalfIs(sb, c, pushed, current);
    PartsBeforeTheLast(sb, c, pushed, current, r);
    hide Waits, SettingsSteps, TopicsSteps, RemovalSteps, SecondHalf, FirstHalf, Archives;
    var a, b := FirstHalf(c, r), Waits(sb, c.want, pushed, current);
    var d, e, f := SettingsSteps(sb, c.want, current), TopicsSteps(sb, c.want, current), RemovalSteps(c);
    assert NoneArchives(a + b) && NoneArchives(d + e);
    assert NoneArchives(a + b + (d + e));
    assert NoneArchives(a + b + (d + e) + f);
    assert a + SecondHalf(sb, c, pushed, current) == (a + b + (d + e) + f) + ArchiveSteps(c.want);
  }

  /** A whole run that ends archived has nothing pending: no schedule can tell it apart. */
  lemma ArchivedIsDone(sb: Sandbox, prev: Option<LockRepo>, c: Change, current: Option<Repo>, r: Repo,
        applies: seq<bool>, later: Repo)
    requires WellFormed(c.want) && LegalPrevious(prev) && Sound(sb, c.want, r) && Fits(sb, prev, c, r)
    requires ReadBack(current, r) && !r.archived
    requires Left(sb.caps, Steps(sb, c, current, r), applies, r, later) && later.archived
    ensures AtGoal(sb, c.want, prev, later)
  {
    var steps := Steps(sb, c, current, r);
    var done := steps[..|applies|];
    OnlyTheLastArchives(sb, c, PushesSeed(c, r), current, r);
    if |applies| < |steps| || !c.want.archived {
      StaysReadable(sb.caps, done, applies, r);
      assert false;
    } else {
      assert done == steps;
      ArchivedMeansDone(sb.caps, steps, applies, r);
      RunGoes(sb, prev, c, current, r);
      WholeRunArchivedIsDone(sb, prev, c, current, r, applies, later);
    }
  }

  lemma WholeRunArchivedIsDone(sb: Sandbox, prev: Option<LockRepo>, c: Change, current: Option<Repo>, r: Repo,
        applies: seq<bool>, later: Repo)
    requires WellFormed(c.want) && LegalPrevious(prev) && Sound(sb, c.want, r) && Fits(sb, prev, c, r)
    requires ReadBack(current, r) && c.want.archived
    requires |applies| == |Steps(sb, c, current, r)| && RunOn(sb.caps, Steps(sb, c, current, r), applies, r).ok
    requires Left(sb.caps, Steps(sb, c, current, r), applies, r, later)
    ensures AtGoal(sb, c.want, prev, later)
  {
    hide WellFormed, LegalPrevious, Sound, Fits, ReadBack, LawfulRun, Quiet, AtGoal, Goal;
    hide Blocked, RunOn, Run, Steps, Careful;
    hide AfterFirst;
    var steps := Steps(sb, c, current, r);
    RunGoes(sb, prev, c, current, r);
    LawfulRunKeepsGoal(sb, c.want, prev, steps, r);
    ScheduleDoesNotMatter(sb.caps, steps, applies, r, r);
    assert steps[..|applies|] == steps;
    RunEndsAtGoal(sb, prev, c, current, r);
    LawfulSurvives(sb, c.want, prev, steps, applies, r, later);
    var end := Run(sb.caps, steps, r).repo;
    assert !end.pending;
    AheadDiffersInTimeOnly(end, later);
    assert later == end == Applied(end);
  }

  /** Readable or not, the writes planned for a repository are lawful. */
  lemma PlannedRunIsLawful(sb: Sandbox, want: LockRepo, prev: Option<LockRepo>, r: Repo)
    requires WellFormed(want) && LegalPrevious(prev) && Sound(sb, want, r)
    ensures Diff(sb, want, prev, Some(r)).Plan?
    ensures LawfulRun(sb, want, prev, ApplySteps(sb, Diff(sb, want, prev, Some(r)).change, r), r)
  {
    assert IsOurs(sb, r);
    hide WellFormed, LegalPrevious, Sound, Diff, LawfulRun, Fits, Quiet, Goal;
    hide Blocked, Unread, DefaultKnown, PushesSeed;
    if Blind(sb, r) {
      UnreadPlan(sb, want, prev, r);
      UnreadRunGoes(sb, prev, Diff(sb, want, prev, Some(r)).change, Some(r), r);
    } else {
      PlanFits(sb, want, prev, r);
      RunGoes(sb, prev, Diff(sb, want, prev, Some(r)).change, Some(r), r);
    }
  }

  lemma KillKeepsGoal(sb: Sandbox, want: LockRepo, prev: Option<LockRepo>, r: Repo, later: Repo, applies: seq<bool>)
    requires WellFormed(want) && LegalPrevious(prev) && Sound(sb, want, r)
    requires KilledAt(sb, want, prev, r, later, applies)
    ensures Sound(sb, want, later)
    ensures Goal(sb, want, prev, later) == Goal(sb, want, prev, r)
    ensures Blocked(want, prev, later) == Blocked(want, prev, r)
    ensures OnTheWay(sb, want, prev, r) ==> OnTheWay(sb, want, prev, later)
  {
    hide WellFormed, LegalPrevious, Sound, Goal, Blocked, Left, AtGoal, Diff, LawfulRun, Fits, Quiet, Needed;
    var c := Diff(sb, want, prev, Some(r)).change;
    PlannedRunIsLawful(sb, want, prev, r);
    LawfulSurvives(sb, want, prev, ApplySteps(sb, c, r), applies, r, later);
    NothingNeededAtGoal(sb, want, prev, r);
    if !Blind(sb, r) && Blind(sb, later) {
      PlanFits(sb, want, prev, r);
      ArchivedIsDone(sb, prev, c, Some(r), r, applies, later);
    }
  }

  /**
   * Apply survives being killed between any two writes, any number of times, whenever the forge
   * applies its pushes: the repository, unreadable at first or not, stays sound, keeps its goal, and
   * is refused later exactly if it would have been. One that could be read is unreadable only when done.
   */
  lemma {:induction false} ApplySurvivesKills(sb: Sandbox, want: LockRepo, prev: Option<LockRepo>, r: Repo, later: Repo,
        n: nat)
    requires WellFormed(want) && LegalPrevious(prev) && Sound(sb, want, r)
    requires KilledTimes(sb, want, prev, r, later, n)
    ensures Sound(sb, want, later)
    ensures Goal(sb, want, prev, later) == Goal(sb, want, prev, r)
    ensures Blocked(want, prev, later) == Blocked(want, prev, r)
    ensures OnTheWay(sb, want, prev, r) ==> OnTheWay(sb, want, prev, later)
    decreases n
  {
    hide WellFormed, LegalPrevious, OnTheWay, Goal, Blocked, KilledAt, Sound;
    if n > 0 {
      var mid, applies :| KilledAt(sb, want, prev, r, mid, applies) && KilledTimes(sb, want, prev, mid, later, n - 1);
      KillKeepsGoal(sb, want, prev, r, mid, applies);
      ApplySurvivesKills(sb, want, prev, mid, later, n - 1);
    }
  }

  /** Planned for and run once more, it is at `goal`; or nothing is planned, and it is there. */
  ghost predicate FinishesAt(sb: Sandbox, want: LockRepo, prev: Option<LockRepo>, r: Repo, goal: Repo) {
    var p := Diff(sb, want, prev, Some(r));
    && p.Plan?
    && if Needed(p.change) then
         var run := Run(sb.caps, ApplySteps(sb, p.change, r), r);
         run.ok && Canonical(Applied(run.repo)) == Canonical(goal)
       else Canonical(r) == Canonical(goal)
  }

  lemma ReadableFinishes(sb: Sandbox, want: LockRepo, prev: Option<LockRepo>, r: Repo)
    requires WellFormed(want) && LegalPrevious(prev) && OnTheWay(sb, want, prev, r) && !Blocked(want, prev, r)
    ensures FinishesAt(sb, want, prev, r, Goal(sb, want, prev, r))
  {
    hide Sound, Goal, Blocked, WellFormed, LegalPrevious, Diff, AtGoal, Canonical, Run, ApplySteps, Needed;
    NothingNeededAtGoal(sb, want, prev, r);
    if Blind(sb, r) {
      AtGoalIsGoal(sb, want, prev, r);
    } else {
      ApplyReachesGoal(sb, want, prev, r);
      if !Needed(Diff(sb, want, prev, Some(r)).change) {
        AtGoalIsGoal(sb, want, prev, r);
      }
    }
  }

  /** And re-running reaches what an uninterrupted run would have, or finds it reached already. */
  lemma ResumedApplyReachesGoal(sb: Sandbox, want: LockRepo, prev: Option<LockRepo>, r: Repo, later: Repo, n: nat)
    requires WellFormed(want) && LegalPrevious(prev) && Sound(sb, want, r) && !Blocked(want, prev, r)
    requires KilledTimes(sb, want, prev, r, later, n)
    ensures !Blind(sb, later) || !Blind(sb, r) ==> FinishesAt(sb, want, prev, later, Goal(sb, want, prev, r))
    ensures Blind(sb, later) && Blind(sb, r) && !want.archived ==>
      OpensFirst(sb, want, prev, later, Goal(sb, want, prev, r))
  {
    hide Sound, Goal, Blocked, WellFormed, LegalPrevious, AtGoal, FinishesAt, OpensFirst, KilledTimes;
    ApplySurvivesKills(sb, want, prev, r, later, n);
    if !Blind(sb, later) || !Blind(sb, r) {
      ReadableFinishes(sb, want, prev, later);
    } else if !want.archived {
      UnreadOpensFirst(sb, want, prev, later);
    }
  }

  /**
   * Unreadable and to be readable: there is something to do, and from its first write on, however the
   * run goes, refused or killed included, the repository is readable and one more run finishes it.
   */
  ghost predicate OpensFirst(sb: Sandbox, want: LockRepo, prev: Option<LockRepo>, r: Repo, goal: Repo) {
    var p := Diff(sb, want, prev, Some(r));
    && p.Plan? && Needed(p.change)
    && forall next, applies :: KilledAt(sb, want, prev, r, next, applies) && applies != [] ==>
         !Blind(sb, next) && FinishesAt(sb, want, prev, next, goal)
  }

  lemma FirstWriteOpens(sb: Sandbox, c: Change, r: Repo, applies: seq<bool>, later: Repo)
    requires Unread(c, r) && !c.want.archived && applies != []
    requires Left(sb.caps, ApplySteps(sb, c, r), applies, r, later)
    ensures !later.archived
  {
    hide SettlingSettings, PushesSeed, SecondHalf, Sort;
    var done := ApplySteps(sb, c, r)[..|applies|];
    OnlyTheLastArchives(sb, c, PushesSeed(c, r), Some(r), r);
    assert done[0] == UNARCHIVE;
    var first := Do(sb.caps, UNARCHIVE, if applies[0] then Applied(r) else r).repo;
    StaysReadable(sb.caps, done[1..], applies[1..], first);
  }

  lemma UnreadOpensFirst(sb: Sandbox, want: LockRepo, prev: Option<LockRepo>, r: Repo)
    requires WellFormed(want) && LegalPrevious(prev) && Sound(sb, want, r) && !Blocked(want, prev, r)
    requires Blind(sb, r) && !want.archived
    ensures OpensFirst(sb, want, prev, r, Goal(sb, want, prev, r))
  {
    UnreadNeedsSomething(sb, want, prev, r);
    hide Sound, Goal, Blocked, WellFormed, LegalPrevious, AtGoal, FinishesAt, Diff, Left, Unread, ApplySteps, Needed;
    forall next, applies | KilledAt(sb, want, prev, r, next, applies) && applies != []
      ensures !Blind(sb, next) && FinishesAt(sb, want, prev, next, Goal(sb, want, prev, r))
    {
      FirstWriteOpens(sb, Diff(sb, want, prev, Some(r)).change, r, applies, next);
      KillKeepsGoal(sb, want, prev, r, next, applies);
      ReadableFinishes(sb, want, prev, next);
    }
  }

  lemma UnreadNeedsSomething(sb: Sandbox, want: LockRepo, prev: Option<LockRepo>, r: Repo)
    requires Sound(sb, want, r) && Blind(sb, r) && !want.archived
    ensures Diff(sb, want, prev, Some(r)).Plan? && Needed(Diff(sb, want, prev, Some(r)).change)
    ensures Unread(Diff(sb, want, prev, Some(r)).change, r) && Diff(sb, want, prev, Some(r)).change.want == want
  {
    UnreadPlan(sb, want, prev, r);
    assert ArchivedNote in SettingsNotes(sb, want, r);
  }

  /** Unreadable and to stay so: once its settings are taken, nothing more is planned. */
  lemma UnreadStaysUnread(sb: Sandbox, want: LockRepo, prev: Option<LockRepo>, r: Repo)
    requires WellFormed(want) && Sound(sb, want, r) && Blind(sb, r) && want.archived
    ensures Diff(sb, want, prev, Some(r)).Plan?
    ensures
      var run := Run(sb.caps, ApplySteps(sb, Diff(sb, want, prev, Some(r)).change, r), r);
      && (run.ok <==> Settles(want, r))
      && (run.ok ==>
            && Blind(sb, run.repo) && Diff(sb, want, prev, Some(run.repo)).Plan?
            && !Needed(Diff(sb, want, prev, Some(run.repo)).change))
  {
    hide Settles;
    UnreadIsRefusedWhen(sb, want, prev, r);
    UnreadPlan(sb, want, prev, r);
    var c := Diff(sb, want, prev, Some(r)).change;
    UnreadRunGoes(sb, prev, c, Some(r), r);
    var run := Run(sb.caps, ApplySteps(sb, c, r), r);
    if run.ok {
      UnreadEndsAsDeclared(sb, prev, c, r);
      NoNotesWhenAsDeclared(sb, want, run.repo);
    }
  }

  lemma UnreadEndsAsDeclared(sb: Sandbox, prev: Option<LockRepo>, c: Change, r: Repo)
    requires WellFormed(c.want) && Sound(sb, c.want, r) && Unread(c, r) && c.want.archived
    ensures
      var end := AfterSecond(sb, c, PushesSeed(c, r), Some(r), AfterFirst(sb.caps, c, r));
      SettingsAsDeclared(sb, c.want, end) && end.description == r.description && end.archived
  {
    var mid := AfterFirst(sb.caps, c, r);
    var s := AfterSettings(sb, c.want, Some(r), mid);
    assert !PushesSeed(c, r) && mid == Unarchived(r);
    TopicsAreWritten(sb, c.want, Some(r), s);
    hide Sort, Sorted, Insert;
  }

  // ------------------------------------------------------------ a repository that has to be created

  /** As a create leaves it, with or without its topics, and whatever default branch it adopted. */
  predicate JustMade(sb: Sandbox, r: Repo) {
    && IsOurs(sb, r) && !r.archived && r.empty && !r.pending
    && r.branches == map[] && r.tags == map[] && r.requests == map[]
  }

  lemma CreationFits(sb: Sandbox, want: LockRepo, prev: Option<LockRepo>, r: Repo)
    requires WellFormed(want) && JustMade(sb, r)
    ensures Sound(sb, want, r) && Diff(sb, want, prev, None).Plan? && !Blocked(want, prev, r)
    ensures Fits(sb, prev, Diff(sb, want, prev, None).change, r) && Diff(sb, want, prev, None).change.want == want
  {
  }

  /** A creation ends at the goal too, whether or not the repository could be read back. */
  lemma CreationReachesGoal(sb: Sandbox, want: LockRepo, prev: Option<LockRepo>, r: Repo, current: Option<Repo>)
    requires WellFormed(want) && LegalPrevious(prev) && JustMade(sb, r) && ReadBack(current, r)
    ensures Diff(sb, want, prev, None).Plan?
    ensures
      var steps := Steps(sb, Diff(sb, want, prev, None).change, current, r);
      var end := Applied(Run(sb.caps, steps, r).repo);
      && Run(sb.caps, steps, r).ok
      && Canonical(end) == Canonical(Goal(sb, want, prev, r))
      && Diff(sb, want, Some(want), Some(end)).Plan?
      && !Needed(Diff(sb, want, Some(want), Some(end)).change)
  {
    CreationFits(sb, want, prev, r);
    hide Sound, Goal, Blocked, WellFormed, LegalPrevious, Diff, Fits, AtGoal;
    hide Canonical, Quiet, LawfulRun, JustMade, Run;
    var c := Diff(sb, want, prev, None).change;
    var end := Applied(Run(sb.caps, Steps(sb, c, current, r), r).repo);
    RunGoes(sb, prev, c, current, r);
    RunEndsAtGoal(sb, prev, c, current, r);
    GoalHoldsForItsOwnLock(sb, want, prev, end);
    NothingNeededAtGoal(sb, want, Some(want), end);
  }

  /** Killed at any write after the create, it is on its way: what follows is an ordinary apply. */
  lemma CreationSurvivesKills(sb: Sandbox, want: LockRepo, prev: Option<LockRepo>, r: Repo, current: Option<Repo>,
        later: Repo, applies: seq<bool>)
    requires WellFormed(want) && LegalPrevious(prev) && JustMade(sb, r) && ReadBack(current, r)
    requires Diff(sb, want, prev, None).Plan?
    requires Left(sb.caps, Steps(sb, Diff(sb, want, prev, None).change, current, r), applies, r, later)
    ensures OnTheWay(sb, want, prev, later) && !Blocked(want, prev, later)
    ensures Goal(sb, want, prev, later) == Goal(sb, want, prev, r)
  {
    CreationFits(sb, want, prev, r);
    assert !r.archived;
    hide Sound, Goal, Blocked, WellFormed, LegalPrevious, Diff, Fits, AtGoal, Canonical;
    hide Quiet, LawfulRun, JustMade, Run, Left;
    var c := Diff(sb, want, prev, None).change;
    RunGoes(sb, prev, c, current, r);
    LawfulSurvives(sb, want, prev, Steps(sb, c, current, r), applies, r, later);
    if Blind(sb, later) {
      ArchivedIsDone(sb, prev, c, current, r, applies, later);
    }
  }

  // ------------------------------------------------------------ settings and pending pushes

  /**
   * No settings are written over a push of the same run, whatever the forge's schedule, exactly
   * when the run does not archive after removing stale refs. Even then nothing is lost for good:
   * finished or killed, it never leaves a repository that holds commits and reads as empty.
   */
  lemma ApplyKeepsSettingsClearOfPushes(sb: Sandbox, prev: Option<LockRepo>, c: Change, current: Option<Repo>, r: Repo)
    requires WellFormed(c.want) && LegalPrevious(prev) && Sound(sb, c.want, r) && Fits(sb, prev, c, r)
    requires ReadBack(current, r) && !r.pending
    ensures
      var steps := Steps(sb, c, current, r);
      && ((forall applies: seq<bool> | |applies| == |steps| :: QuietOn(sb.caps, steps, applies, r))
            <==> !ArchivesOverRemoval(prev, c, r))
      && forall applies: seq<bool> | |applies| <= |steps| ::
           !Stuck(RunOn(sb.caps, steps[..|applies|], applies, r).repo)
  {
    assert !Stuck(r);
    hide WellFormed, LegalPrevious, Sound, Fits, ReadBack, LawfulRun, Quiet, Goal, Blocked;
    hide RunOn, Run, Steps, Careful, Stuck;
    hide AfterFirst, AfterSecond, ArchivesOverRemoval;
    var steps := Steps(sb, c, current, r);
    RunGoes(sb, prev, c, current, r);
    QuietOnEverySchedule(sb.caps, steps, r);
    LawfulRunKeepsGoal(sb, c.want, prev, steps, r);
    forall applies: seq<bool> | |applies| <= |steps|
      ensures !Stuck(RunOn(sb.caps, steps[..|applies|], applies, r).repo)
    {
      CarefulPrefixNeverSticks(sb.caps, steps, applies, r);
    }
  }

  /** A repository at its baseline, not archived yet, but for one tag the fleet no longer declares. */
  function OneTagTooMany(sb: Sandbox, want: LockRepo, tag: string): Repo {
    Repo(sb.marker, false, want.visibility, want.topics, want.defaultBranch, false, false,
         map[want.defaultBranch := want.baseline], BaselineTags(want)[tag := want.baseline], map[], {})
  }

  /**
   * It does happen: a fixture that becomes archived and loses a tag in the same edit is archived
   * while the push that deletes the tag is still pending, on a forge that has not applied it yet.
   */
  lemma ArchivingMeetsItsOwnRemoval(sb: Sandbox, want: LockRepo, tag: string)
    requires WellFormed(want) && want.archived && !want.empty && tag !in want.tags && tag != BASELINE_TAG
    ensures
      var prev, r := Some(want.(tags := want.tags + [tag])), OneTagTooMany(sb, want, tag);
      && LegalPrevious(prev) && Sound(sb, want, r) && !Blind(sb, r) && Diff(sb, want, prev, Some(r)).Plan?
      && (var steps := ApplySteps(sb, Diff(sb, want, prev, Some(r)).change, r);
          exists applies: seq<bool> | |applies| == |steps| :: !QuietOn(sb.caps, steps, applies, r))
  {
    var prev, r := Some(want.(tags := want.tags + [tag])), OneTagTooMany(sb, want, tag);
    PlanFits(sb, want, prev, r);
    var c := Diff(sb, want, prev, Some(r)).change;
    assert OldTag(want, prev, tag) && tag in r.tags;
    assert tag in c.staleTags;
    assert ArchivesOverRemoval(prev, c, r);
    hide Diff, Fits, Sound, QuietOn, ArchivesOverRemoval, Blocked;
    assert Steps(sb, c, Some(r), r) == ApplySteps(sb, c, r);
    ApplyKeepsSettingsClearOfPushes(sb, prev, c, Some(r), r);
  }
}
