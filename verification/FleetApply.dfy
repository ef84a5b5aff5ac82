/**
 * apply over a whole fleet, each repository in one go or all of them in two phases: what it may
 * change on a forge that may miss reads and fail writes, and what it has come to once it writes the lock.
 */
module FleetApply {
  import opened Text
  import opened ForgeModel
  import opened Compare
  import opened Reset
  import opened Apply
  import opened ApplyRuns
  import opened ApplyUnread
  import opened ApplyConverges
  import opened ForgeApi
  import opened Requests
  import opened Creating
  import opened Commands
  import opened FleetReset

  lemma FollowsFirst(f: Forge, a: seq<Step>, b: seq<Step>, from: Repo, now: Repo)
    requires Follows(f, a, from, now, false)
    ensures Follows(f, a + b, from, now, false)
  {
    hide Run;
    var n :| 0 <= n <= |a| && Run(f.caps, a[..n], from).repo == now;
    assert (a + b)[..n] == a[..n];
    RunAppend(f.caps, a, b, from);
  }

  lemma FollowsBoth(f: Forge, a: seq<Step>, b: seq<Step>, from: Repo, mid: Repo, now: Repo, ok: bool)
    requires Run(f.caps, a, from) == Outcome(true, mid) && Follows(f, b, mid, now, ok)
    ensures Follows(f, a + b, from, now, ok)
  {
    hide Run;
    var n :| 0 <= n <= |b| && Run(f.caps, b[..n], mid).repo == now;
    assert (a + b)[..|a| + n] == a + b[..n];
    RunAppend(f.caps, a, b[..n], from);
    RunAppend(f.caps, a, b, from);
  }

  /** A repository that is there, both halves in one go: it follows `ApplySteps` as far as it gets. */
  method ApplyFound(f: Forge, sb: Sandbox, c: Change) returns (ok: bool)
    requires c.want.name in f.world.repos && c.live == Some(f.world.repos[c.want.name]) && '*' !in c.want.defaultBranch
    modifies f
    ensures OnlyRepo(old(f.world), f.world, c.want.name)
    ensures Follows(f, ApplySteps(sb, c, c.live.value), c.live.value, f.world.repos[c.want.name], ok)
  {
    hide Follows, Run, FirstHalf, SecondHalf;
    var pushed;
    ghost var from := f.world.repos[c.want.name];
    ok, pushed := ApplyOne(f, c);
    ghost var mid := f.world.repos[c.want.name];
    if !ok {
      FollowsFirst(f, FirstHalf(c, from), SecondHalf(sb, c, PushesSeed(c, from), c.live), from, mid);
      return;
    }
    assert Run(f.caps, FirstHalf(c, from), from) == Outcome(true, mid) by {
      FollowedMeansRun(f, FirstHalf(c, from), from, mid);
    }
    ok := SettleOne(f, sb, c, pushed, c.live);
    FollowsBoth(f, FirstHalf(c, from), SecondHalf(sb, c, pushed, c.live), from, mid, f.world.repos[c.want.name], ok);
  }

  lemma FollowedMeansRun(f: Forge, plan: seq<Step>, from: Repo, now: Repo)
    requires Follows(f, plan, from, now, true)
    ensures Run(f.caps, plan, from) == Outcome(true, now)
  {
  }

  /**
   * On a forge that answers as things went, an apply to a readable repository succeeds exactly when
   * no open request holds an old default branch, and then the repository is at its goal.
   */
  method ApplyToGoal(f: Forge, sb: Sandbox, want: LockRepo, prev: Option<LockRepo>) returns (ok: bool)
    requires f.caps == sb.caps && f.reliable && want.name in f.world.repos
    requires WellFormed(want) && LegalPrevious(prev)
    requires Sound(sb, want, f.world.repos[want.name]) && !Blind(sb, f.world.repos[want.name])
    modifies f
    ensures OnlyRepo(old(f.world), f.world, want.name)
    ensures ok <==> !Blocked(want, prev, old(f.world).repos[want.name])
    ensures ok ==>
      Canonical(Applied(f.world.repos[want.name])) == Canonical(Goal(sb, want, prev, old(f.world).repos[want.name]))
  {
    hide Goal, Canonical, Blocked, Sound, Blind, WellFormed, LegalPrevious, ApplySteps, Run, Diff, Needed;
    var r := f.world.repos[want.name];
    ApplyReachesGoal(sb, want, prev, r);
    assert '*' !in want.defaultBranch by {
      StarFree(want);
    }
    PlanIsAbout(sb, want, prev, r);
    var p := DiffOne(sb, want, Some(r), prev);
    ok := ApplyFound(f, sb, p.change);
  }

  lemma PlanIsAbout(sb: Sandbox, want: LockRepo, prev: Option<LockRepo>, r: Repo)
    ensures
      var p := Diff(sb, want, prev, Some(r));
      p.Plan? ==> p.change.live == Some(r) && p.change.want == want && !p.change.create
  {
    hide StaleTags, StaleBranches, Seeded, SettingsNotes;
  }

  // ------------------------------------------------------------ apply

  lemma StepKeepsDescription(caps: Caps, step: Step, r: Repo)
    ensures Do(caps, step, r).repo.description == r.description
  {
  }

  lemma {:induction false} RunKeepsDescription(caps: Caps, steps: seq<Step>, r: Repo)
    ensures Run(caps, steps, r).repo.description == r.description
  {
    hide Do;
    if steps != [] {
      StepKeepsDescription(caps, steps[0], r);
      RunKeepsDescription(caps, steps[1..], Do(caps, steps[0], r).repo);
    }
  }

  lemma FollowingKeepsOurs(f: Forge, sb: Sandbox, plan: seq<Step>, from: Repo, now: Repo, ok: bool)
    requires Follows(f, plan, from, now, ok)
    ensures IsOurs(sb, now) == IsOurs(sb, from)
  {
    hide Run;
    var n :| 0 <= n <= |plan| && Run(f.caps, plan[..n], from).repo == now;
    RunKeepsDescription(f.caps, plan[..n], from);
  }

  lemma WritingToOursIsOnlyThis(f: Forge, sb: Sandbox, name: string, a: World, b: World, c: World)
    requires OnlyThis(f, sb, name, a, b) && OnlyRepo(b, c, name)
    requires IsOurs(sb, b.repos[name]) && IsOurs(sb, c.repos[name])
    requires name in a.repos ==> IsOurs(sb, a.repos[name])
    ensures OnlyThis(f, sb, name, a, c)
  {
  }

  lemma ItselfIsOnlyThis(f: Forge, sb: Sandbox, name: string, w: World)
    ensures OnlyThis(f, sb, name, w, w)
  {
  }

  /** There, and not forgelab's. */
  predicate SomebodyElses(sb: Sandbox, w: World, name: string) {
    name in w.repos && !IsOurs(sb, w.repos[name])
  }

  lemma OnePromise(f: Forge, sb: Sandbox, want: LockRepo, pushFollows: bool, a: World, b: World, log: seq<Event>,
        sent: seq<Event>, r: Result)
    requires Promises(f, sb, want, pushFollows, a, b, sent, r) && StartsWithACreate(sent, want.name) && sent != []
    ensures OnlyThis(f, sb, want.name, a, b)
    ensures r == Done ==> want.name in b.repos && IsOurs(sb, b.repos[want.name])
    ensures r == Done && want.name in a.repos ==> IsOurs(sb, a.repos[want.name])
    ensures r == Done && want.name !in a.repos ==> f.Fresh(sb.marker, b.repos[want.name])
    ensures r == NeverAdopts ==> SomebodyElses(sb, a, want.name)
    ensures Attempted(log, log + sent, want.name) && WellOrHindered(log, log + sent, r != Failed)
    ensures r == Done && !pushFollows ==> FoundIn(log, log + sent, want.name)
  {
    if r == Done && !pushFollows {
      var last := sent[|sent| - 1];
      if last.Looked? {
        assert Finds((log + sent)[|log + sent| - 1], want.name);
      } else {
        assert last.Wrote? && Finds(sent[..|sent| - 1][|sent| - 2], want.name);
        assert Finds((log + sent)[|log + sent| - 2], want.name);
      }
    }
    assert ChangesIt((log + sent)[|log|], want.name);
    if r == Failed {
      assert Hinders((log + sent)[|log + sent| - 1]);
    }
  }

  /** A creation of a change, followed by both halves: as the goal of a repository just made. */
  ghost predicate MadeToGoal(sb: Sandbox, want: LockRepo, prev: Option<LockRepo>, now: Repo) {
    exists made :: JustMade(sb, made) && Canonical(Applied(now)) == Canonical(Goal(sb, want, prev, made))
  }

  /**
   * A change whose first half went through: `made` is what that half found, the repository read for
   * the plan or the one it created.
   */
  ghost predicate HalfwayFrom(f: Forge, sb: Sandbox, c: Change, pushed: bool, was: Option<Repo>, made: Repo, now: Repo)
  {
    && Follows(f, FirstHalf(c, made), made, now, true) && pushed == PushesSeed(c, made)
    && (c.live.Some? ==> c.live == Some(made))
    && (was.None? ==> f.Fresh(sb.marker, made))
  }

  ghost predicate Halfway(f: Forge, sb: Sandbox, c: Change, pushed: bool, was: Option<Repo>, now: Repo) {
    IsOurs(sb, now) && (was.Some? ==> IsOurs(sb, was.value))
    && exists made :: HalfwayFrom(f, sb, c, pushed, was, made, now)
  }

  /** Where a planned change stands after its first half: through it, or as far as an apply ever gets. */
  ghost predicate FirstDone(f: Forge, sb: Sandbox, want: LockRepo, prev: Option<LockRepo>, c: Change, result: Result,
        pushed: bool, was: Option<Repo>, now: Option<Repo>)
  {
    && (result == Done ==> now.Some? && Halfway(f, sb, c, pushed, was, now.value))
    && (f.reliable && f.truthful ==>
          && now.Some? && (was.None? ==> result == Done)
          && (result != Done ==> ApplyDone(sb, want, prev, was, now.value))
          && (was.Some? && Sound(sb, want, was.value) ==> result == Done))
  }

  /** The first half writes something, whatever the forge answers: a create, or what makes it readable and seeded. */
  predicate Opens(c: Change) {
    c.live.None? || FirstHalf(c, c.live.value) != []
  }

  /** The first half of one change: created if planned so, readable, and pushed. */
  method ApplyFirst(f: Forge, sb: Sandbox, want: LockRepo, c: Change, took: nat -> nat, ghost prev: Option<LockRepo>)
    returns (result: Result, pushed: bool)
    requires f.caps == sb.caps && WellFormed(want) && LegalPrevious(prev)
    requires PlannedAt(f, sb, want, prev, f.world, Plan(c)) && Needed(c)
    modifies f
    ensures OnlyThis(f, sb, want.name, old(f.world), f.world)
    ensures result == NeverAdopts ==> !f.truthful && SomebodyElses(sb, old(f.world), want.name)
    ensures FirstDone(f, sb, want, prev, c, result, pushed, Lookup(old(f.world), want.name), Lookup(f.world, want.name))
    ensures WellOrHindered(old(f.log), f.log, result != Failed)
    ensures Opens(c) || result != Done ==> Attempted(old(f.log), f.log, want.name)
    ensures c.live.None? && want.empty && result == Done ==> FoundIn(old(f.log), f.log, want.name)
  {
    hide OnlyThis, Promises, Follows, FirstHalf, IsOurs, WellFormed, LegalPrevious;
    hide Diff, SomebodyElses, Needed, FirstDone, WellOrHindered, Attempted, Reported, StartsChanging, FoundIn;
    var name := want.name;
    ghost var before, was, start := f.world, Lookup(f.world, name), f.log;
    PlanIsOf(f, sb, want, prev, before, c);
    StarFree(want);
    ItselfIsOnlyThis(f, sb, name, before);
    NothingHinders(start);
    result, pushed := Done, false;
    if c.live.None? {
      ghost var sent;
      result, sent := CreateVerified(f, sb, want, !want.empty, took);
      OnePromise(f, sb, want, !want.empty, before, f.world, start, sent, result);
      if result != Done {
        NotMade(f, sb, want, prev, c, result, was, Lookup(f.world, name));
        return;
      }
    }
    ghost var made, mid, log := f.world.repos[name], f.world, f.log;
    var ok;
    ok, pushed := ApplyOne(f, c);
    FollowingKeepsOurs(f, sb, FirstHalf(c, made), made, f.world.repos[name], ok);
    WritingToOursIsOnlyThis(f, sb, name, before, mid, f.world);
    result := if ok then Done else Failed;
    FirstIsDone(f, sb, want, prev, c, ok, pushed, was, made, f.world.repos[name]);
    WellOneMore(start, log, f.log, true, ok);
    OpensWithAChange(c, start, log, f.log, name, ok);
    FoundEarlier(start, log, f.log, name);
  }

  lemma OpensWithAChange(c: Change, a: seq<Event>, b: seq<Event>, d: seq<Event>, name: string, ok: bool)
    requires WellOrHindered(a, b, true) && Reported(b, d, ok) && StartsChanging(b, d, name)
    requires if c.live.None? then Attempted(a, b, name) else FirstHalf(c, c.live.value) != [] ==> d != b
    ensures Opens(c) || !ok ==> Attempted(a, d, name)
  {
    hide FirstHalf;
    if c.live.None? {
      AttemptedEarlier(a, b, d, name);
    } else if d != b {
      ChangesOn(b, d, d, name);
      AttemptedLater(a, b, d, name);
    }
  }

  lemma PlanIsOf(f: Forge, sb: Sandbox, want: LockRepo, prev: Option<LockRepo>, w: World, c: Change)
    requires PlannedAt(f, sb, want, prev, w, Plan(c))
    ensures c.want == want && (c.create <==> c.live.None?)
    ensures c.live.Some? ==> Lookup(w, want.name) == c.live && IsOurs(sb, c.live.value)
    ensures f.truthful ==> c.live == Lookup(w, want.name)
    ensures Diff(sb, want, prev, c.live) == Plan(c)
  {
    DiffKeepsItsSubject(sb, want, prev, c.live);
    DiffKeepsItsSubject(sb, want, prev, Lookup(w, want.name));
    hide Diff;
  }

  lemma NotMade(f: Forge, sb: Sandbox, want: LockRepo, prev: Option<LockRepo>, c: Change, result: Result,
        was: Option<Repo>, now: Option<Repo>)
    requires result != Done && !(f.reliable && f.truthful)
    ensures FirstDone(f, sb, want, prev, c, result, false, was, now)
  {
  }

  lemma FirstIsDone(f: Forge, sb: Sandbox, want: LockRepo, prev: Option<LockRepo>, c: Change, ok: bool, pushed: bool,
        was: Option<Repo>, made: Repo, now: Repo)
    requires f.caps == sb.caps && WellFormed(want) && LegalPrevious(prev) && Diff(sb, want, prev, c.live) == Plan(c)
    requires c.want == want && IsOurs(sb, now) && (was.Some? ==> IsOurs(sb, was.value))
    requires Follows(f, FirstHalf(c, made), made, now, ok) && (ok ==> pushed == PushesSeed(c, made))
    requires c.live.Some? ==> c.live == Some(made) && was == c.live
    requires f.truthful ==> c.live == was
    requires was.None? ==> f.Fresh(sb.marker, made)
    ensures FirstDone(f, sb, want, prev, c, if ok then Done else Failed, pushed, was, Some(now))
  {
    hide Follows, FirstHalf, Diff, WellFormed, LegalPrevious, Sound, ApplyDone, SecondHalf;
    if ok {
      assert HalfwayFrom(f, sb, c, pushed, was, made, now);
    }
    if f.reliable && f.truthful {
      if was.None? {
        NewIsNotRefused(f, sb, c, prev, made, now, ok);
      } else {
        if !ok {
          FollowsFirst(f, FirstHalf(c, made), SecondHalf(sb, c, PushesSeed(c, made), c.live), made, now);
          FollowedToGoal(f, sb, want, prev, made, now, false);
        }
        if Sound(sb, want, made) {
          FoundIsNotRefused(f, sb, want, prev, c, made, now, ok);
        }
      }
    }
  }

  /** The first half meets no refusal on any repository that apply itself could have left. */
  lemma FoundIsNotRefused(f: Forge, sb: Sandbox, want: LockRepo, prev: Option<LockRepo>, c: Change, r: Repo, now: Repo,
        ok: bool)
    requires f.caps == sb.caps && f.reliable && WellFormed(want) && LegalPrevious(prev) && Sound(sb, want, r)
    requires Diff(sb, want, prev, Some(r)) == Plan(c) && Follows(f, FirstHalf(c, r), r, now, ok)
    ensures ok
  {
    PushesOnlyWhatIsNeeded(sb, want, prev, c, r);
    hide Run, Sound, WellFormed, LegalPrevious, Diff, FirstHalf, AfterFirst;
    FirstHalfGoes(sb, prev, c, r);
  }

  lemma PushesOnlyWhatIsNeeded(sb: Sandbox, want: LockRepo, prev: Option<LockRepo>, c: Change, r: Repo)
    requires LegalPrevious(prev) && Sound(sb, want, r) && Diff(sb, want, prev, Some(r)) == Plan(c)
    ensures c.want == want && About(c, r) && (PushesSeed(c, r) ==> NeedsSeed(want, r))
  {
    assert IsOurs(sb, r);
    hide Diff, Sound, LegalPrevious, BaselineIntact, NeedsSeed, ListsStale;
    if Blind(sb, r) {
      UnreadPlan(sb, want, prev, r);
      RecheckedIsNeeded(c, r);
    } else {
      PlanFits(sb, want, prev, r);
    }
  }

  /** Whether the forge takes all that is planned for a repository that is there. */
  predicate Takes(sb: Sandbox, want: LockRepo, prev: Option<LockRepo>, r: Repo) {
    if Blind(sb, r) then Settles(want, r) else !Blocked(want, prev, r)
  }

  /** What the second half goes by: the repository as planned for, or the created one as read back, if it showed. */
  predicate Current(f: Forge, c: Change, half: Repo, current: Option<Repo>) {
    if c.live.Some? then current == c.live else current.Some? || f.truthful ==> current == Some(half)
  }

  /**
   * The whole of a change went through: `made` is what was found or created, `current` what the second
   * half went by, and the run of its writes from there leads here without a refusal.
   */
  ghost predicate WentThroughFrom(f: Forge, sb: Sandbox, c: Change, was: Option<Repo>, made: Repo,
        current: Option<Repo>, now: Repo)
  {
    && (c.live.Some? ==> c.live == Some(made)) && (was.None? ==> JustMade(sb, made))
    && Current(f, c, Run(sb.caps, FirstHalf(c, made), made).repo, current)
    && Run(sb.caps, Steps(sb, c, current, made), made) == Outcome(true, now)
  }

  ghost predicate WentThrough(f: Forge, sb: Sandbox, c: Change, was: Option<Repo>, now: Repo) {
    exists made, current :: WentThroughFrom(f, sb, c, was, made, current, now)
  }

  /** Where a change stands after its second half, gone well or not. */
  ghost predicate SecondDone(f: Forge, sb: Sandbox, want: LockRepo, prev: Option<LockRepo>, c: Change,
        was: Option<Repo>, now: Repo, ok: bool)
  {
    && IsOurs(sb, now) && (ok ==> WentThrough(f, sb, c, was, now))
    && (f.reliable && f.truthful ==> ApplyDone(sb, want, prev, was, now))
    && (f.reliable && f.truthful && (was.Some? ==> Sound(sb, want, was.value)) ==>
          (ok <==> was.None? || Takes(sb, want, prev, was.value)))
  }

  /** The second half of one change, with the repository as last read. */
  method ApplySecond(f: Forge, sb: Sandbox, want: LockRepo, c: Change, pushed: bool, current: Option<Repo>,
        ghost prev: Option<LockRepo>, ghost was: Option<Repo>)
    returns (ok: bool)
    requires f.caps == sb.caps && WellFormed(want) && LegalPrevious(prev)
    requires c.want == want && Diff(sb, want, prev, c.live) == Plan(c) && (f.truthful ==> c.live == was)
    requires want.name in f.world.repos && Halfway(f, sb, c, pushed, was, f.world.repos[want.name])
    requires Current(f, c, f.world.repos[want.name], current)
    modifies f
    ensures OnlyRepo(old(f.world), f.world, want.name)
    ensures SecondDone(f, sb, want, prev, c, was, f.world.repos[want.name], ok)
    ensures f.reliable ==>
      (ok <==> Run(f.caps, SecondHalf(sb, c, pushed, current), old(f.world).repos[want.name]).ok)
    ensures WellOrHindered(old(f.log), f.log, ok)
    ensures NoLooks(old(f.log), f.log)
    ensures Closes(sb, c, pushed, current) ==> Attempted(old(f.log), f.log, want.name)
  {
    hide Follows, FirstHalf, SecondHalf, IsOurs, WellFormed, LegalPrevious, Diff, ApplyDone, PushesSeed, SecondDone;
    hide Run, WellOrHindered, Attempted, Reported, StartsChanging, Current;
    ghost var half := f.world.repos[want.name];
    ghost var made :| HalfwayFrom(f, sb, c, pushed, was, made, half);
    ok := SettleOne(f, sb, c, pushed, current);
    FollowingKeepsOurs(f, sb, SecondHalf(sb, c, pushed, current), half, f.world.repos[want.name], ok);
    SecondIsDone(f, sb, want, prev, c, pushed, current, was, made, half, f.world.repos[want.name], ok);
    SecondTells(old(f.log), f.log, want.name, ok);
  }

  /** The second half begins with a change, whatever the forge answers. */
  predicate Closes(sb: Sandbox, c: Change, pushed: bool, current: Option<Repo>) {
    !pushed && SecondHalf(sb, c, pushed, current) != []
  }

  lemma SecondTells(a: seq<Event>, b: seq<Event>, name: string, ok: bool)
    requires Reported(a, b, ok)
    ensures WellOrHindered(a, b, ok) && NoLooks(a, b)
    ensures StartsChanging(a, b, name) && b != a ==> Attempted(a, b, name)
  {
    if !ok {
      LastHinders(a, b);
    }
    if StartsChanging(a, b, name) && b != a {
      ChangesOn(a, b, b, name);
    }
  }

  lemma SecondIsDone(f: Forge, sb: Sandbox, want: LockRepo, prev: Option<LockRepo>, c: Change, pushed: bool,
        current: Option<Repo>, was: Option<Repo>, made: Repo, half: Repo, now: Repo, ok: bool)
    requires f.caps == sb.caps && WellFormed(want) && LegalPrevious(prev) && IsOurs(sb, now)
    requires c.want == want && Diff(sb, want, prev, c.live) == Plan(c) && (f.truthful ==> c.live == was)
    requires Current(f, c, half, current) && HalfwayFrom(f, sb, c, pushed, was, made, half)
    requires Follows(f, SecondHalf(sb, c, pushed, current), half, now, ok)
    ensures SecondDone(f, sb, want, prev, c, was, now, ok)
    ensures f.reliable ==> (ok <==> Run(f.caps, SecondHalf(sb, c, pushed, current), half).ok)
  {
    hide FirstHalf, SecondHalf, WellFormed, LegalPrevious, Diff, PushesSeed, MadeToGoal, Sound, Goal;
    hide Blocked, Settles, FinishesAt, Takes, Run, JustMade, CutShort;
    FollowsBoth(f, FirstHalf(c, made), SecondHalf(sb, c, pushed, current), made, half, now, ok);
    if was.None? {
      FreshIsJustMade(f, sb, made);
    }
    assert ok ==> WentThroughFrom(f, sb, c, was, made, current, now);
    if f.reliable && f.truthful {
      if was.None? {
        NewReachesGoal(f, sb, c, prev, made, half, current, now, ok);
      } else {
        FollowedToGoal(f, sb, want, prev, made, now, ok);
      }
    }
  }

  lemma FreshIsJustMade(f: Forge, sb: Sandbox, r: Repo)
    requires f.caps == sb.caps && f.Fresh(sb.marker, r)
    ensures JustMade(sb, r)
  {
  }

  lemma NewIsNotRefused(f: Forge, sb: Sandbox, c: Change, prev: Option<LockRepo>, made: Repo, half: Repo, ok: bool)
    requires f.caps == sb.caps && f.reliable && WellFormed(c.want) && LegalPrevious(prev)
    requires Diff(sb, c.want, prev, None) == Plan(c) && f.Fresh(sb.marker, made)
    requires Follows(f, FirstHalf(c, made), made, half, ok)
    ensures ok
  {
    FreshIsJustMade(f, sb, made);
    CreationFits(sb, c.want, prev, made);
    hide Run, Sound, WellFormed, LegalPrevious, Diff, FirstHalf, AfterFirst;
    FirstHalfGoes(sb, prev, c, made);
  }

  lemma NewReachesGoal(f: Forge, sb: Sandbox, c: Change, prev: Option<LockRepo>, made: Repo, half: Repo,
        current: Option<Repo>, now: Repo, ok: bool)
    requires f.caps == sb.caps && f.reliable && WellFormed(c.want) && LegalPrevious(prev)
    requires Diff(sb, c.want, prev, None) == Plan(c) && f.Fresh(sb.marker, made)
    requires Follows(f, FirstHalf(c, made), made, half, true) && Current(f, c, half, current) && c.live.None?
    requires Follows(f, SecondHalf(sb, c, PushesSeed(c, made), current), half, now, ok)
    ensures ok && MadeToGoal(sb, c.want, prev, now)
  {
    FreshIsJustMade(f, sb, made);
    CreationFits(sb, c.want, prev, made);
    FitsMeansNeed(sb, prev, c, made);
    hide Run, Sound, WellFormed, LegalPrevious, Diff, FirstHalf, AfterFirst, SecondHalf;
    hide Goal, Canonical, Fits, JustMade, PushesSeed;
    FollowedMeansRun(f, FirstHalf(c, made), made, half);
    FirstHalfGoes(sb, prev, c, made);
    FirstHalfKeeps(sb, c, made);
    FollowsBoth(f, FirstHalf(c, made), SecondHalf(sb, c, PushesSeed(c, made), current), made, half, now, ok);
    CreationReachesGoal(sb, c.want, prev, made, current);
    assert Follows(f, Steps(sb, c, current, made), made, now, ok);
  }

  function PrevOf(previous: map<string, LockRepo>, name: string): Option<LockRepo> {
    if name in previous then Some(previous[name]) else None
  }

  /** And what an apply leaves when requests fail is what one leaves that was killed. */
  lemma FollowedIsKilled(f: Forge, sb: Sandbox, want: LockRepo, prev: Option<LockRepo>, r: Repo, now: Repo, ok: bool)
    requires f.caps == sb.caps && Diff(sb, want, prev, Some(r)).Plan? && Needed(Diff(sb, want, prev, Some(r)).change)
    requires Follows(f, ApplySteps(sb, Diff(sb, want, prev, Some(r)).change, r), r, now, ok)
    ensures exists applies :: ApplyConverges.KilledAt(sb, want, prev, r, now, applies)
  {
    hide Diff, ApplySteps, Needed, Run, RunOn;
    var steps := ApplySteps(sb, Diff(sb, want, prev, Some(r)).change, r);
    var n :| 0 <= n <= |steps| && Run(f.caps, steps[..n], r).repo == now;
    var applies := seq(n, _ => false);
    RunOnTheSlowestForge(sb.caps, steps[..n], r);
    assert steps[..|applies|] == steps[..n];
    assert ApplyConverges.KilledAt(sb, want, prev, r, now, applies);
  }

  /**
   * What a run of apply over a forge that answers truly makes of one declared repository: its goal,
   * at once or, where it could not be read, with the next run.
   */
  ghost predicate ApplyDone(sb: Sandbox, want: LockRepo, prev: Option<LockRepo>, was: Option<Repo>, now: Repo) {
    match was
    case None => MadeToGoal(sb, want, prev, now)
    case Some(r) =>
      Sound(sb, want, r) && !Blocked(want, prev, r) ==>
        && (!Blind(sb, r) ==> Canonical(Applied(now)) == Canonical(Goal(sb, want, prev, r)))
        && (Blind(sb, r) && !want.archived && Settles(want, r) ==>
              && !Blind(sb, now) && FinishesAt(sb, want, prev, now, Goal(sb, want, prev, r))
              && FinishesAt(sb, want, prev, Applied(now), Goal(sb, want, prev, r)))
  }

  /** Waiting takes nothing of that away. */
  lemma DoneWhenWaited(sb: Sandbox, want: LockRepo, prev: Option<LockRepo>, was: Option<Repo>, now: Repo)
    requires ApplyDone(sb, want, prev, was, now)
    ensures ApplyDone(sb, want, prev, was, Applied(now))
  {
    assert Applied(Applied(now)) == Applied(now) && Blind(sb, Applied(now)) == Blind(sb, now);
    hide Applied, Blind, Canonical, Goal, FinishesAt, Sound, Blocked, Settles;
  }

  /** A plan made of what was seen: the truth, or, where the forge may miss one, nothing. */
  predicate PlannedAt(f: Forge, sb: Sandbox, want: LockRepo, prev: Option<LockRepo>, w: World, p: Planned) {
    && (p.Plan? ==>
          && p == Diff(sb, want, prev, p.change.live)
          && (p.change.live.Some? ==> want.name in w.repos && p.change.live.value == w.repos[want.name]))
    && (p.Guarded? ==> want.name in w.repos && p == Diff(sb, want, prev, Some(w.repos[want.name])))
    && (f.truthful ==> p == Diff(sb, want, prev, Lookup(w, want.name)))
  }

  /** The i-th look since `at` was for this repository, was answered as said, and found what the plan is about. */
  predicate PlannedBy(log: seq<Event>, at: nat, i: nat, want: LockRepo, p: Planned) {
    && at + i < |log| && Looks(log[at + i], want.name)
    && (log[at + i].found <==> p.Guarded? || p.change.live.Some?)
  }

  /** One look for each, whether or not another's was answered. */
  method PlanAll(f: Forge, sb: Sandbox, wants: seq<LockRepo>, previous: map<string, LockRepo>)
    returns (answered: bool, plans: seq<Planned>)
    modifies f`log
    ensures |plans| == |wants| && (f.truthful ==> answered)
    ensures forall i :: 0 <= i < |wants| ==>
      PlannedAt(f, sb, wants[i], PrevOf(previous, wants[i].name), f.world, plans[i])
    ensures OnlyRead(old(f.log), f.log) && |f.log| == |old(f.log)| + |wants|
    ensures forall i :: 0 <= i < |wants| ==> PlannedBy(f.log, |old(f.log)|, i, wants[i], plans[i])
    ensures old(f.log) <= f.log && (answered <==> AllAnswered(old(f.log), f.log))
  {
    hide Diff, AllAnswered, LookedUp;
    answered, plans := true, [];
    NothingLookedUp(wants, f.log);
    for i := 0 to |wants|
      invariant |plans| == i && (f.truthful ==> answered)
      invariant forall j :: 0 <= j < i ==>
        PlannedAt(f, sb, wants[j], PrevOf(previous, wants[j].name), f.world, plans[j])
      invariant OnlyRead(old(f.log), f.log) && |f.log| == |old(f.log)| + i
      invariant forall j :: 0 <= j < i ==> PlannedBy(f.log, |old(f.log)|, j, wants[j], plans[j])
      invariant old(f.log) <= f.log && (answered <==> AllAnswered(old(f.log), f.log))
    {
      ghost var before := f.log;
      var ok, live := f.Get(wants[i].name);
      ReadOn(old(f.log), before, [Looked(wants[i].name, ok, live.Some?)]);
      LooksTell(old(f.log), before, [Looked(wants[i].name, ok, live.Some?)], wants[i].name, ok, live.Some?);
      var p := DiffOne(sb, wants[i], live, PrevOf(previous, wants[i].name));
      DiffKeepsItsSubject(sb, wants[i], PrevOf(previous, wants[i].name), live);
      answered, plans := answered && ok, plans + [p];
    }
  }

  lemma DiffKeepsItsSubject(sb: Sandbox, want: LockRepo, prev: Option<LockRepo>, live: Option<Repo>)
    ensures
      var p := Diff(sb, want, prev, live);
      && (p.Plan? ==> p.change.live == live && p.change.want == want && (p.change.create <==> live.None?))
      && (p.Guarded? ==> live.Some?)
      && (p.Plan? && live.None? ==> Needed(p.change))
      && (p.Plan? && live.Some? ==> IsOurs(sb, live.value))
  {
    hide StaleTags, StaleBranches, Seeded, SettingsNotes;
  }

  lemma FollowedToGoal(f: Forge, sb: Sandbox, want: LockRepo, prev: Option<LockRepo>, r: Repo, now: Repo, ok: bool)
    requires f.caps == sb.caps && (f.reliable || ok) && WellFormed(want) && LegalPrevious(prev)
    requires Diff(sb, want, prev, Some(r)).Plan?
    requires Follows(f, ApplySteps(sb, Diff(sb, want, prev, Some(r)).change, r), r, now, ok)
    ensures ApplyDone(sb, want, prev, Some(r), now)
    ensures Sound(sb, want, r) ==> (ok <==> Takes(sb, want, prev, r))
  {
    hide Sound, Blocked, Goal, Canonical, WellFormed, LegalPrevious, Diff, ApplySteps, Run, Needed, Settles, FinishesAt;
    if Sound(sb, want, r) {
      if !Blind(sb, r) {
        ApplyReachesGoal(sb, want, prev, r);
      } else {
        UnreadIsRefusedWhen(sb, want, prev, r);
        if !Blocked(want, prev, r) && !want.archived && Settles(want, r) {
          UnreadFinishesNext(sb, want, prev, r, now, now);
          UnreadFinishesNext(sb, want, prev, r, now, Applied(now));
        }
      }
    }
  }

  lemma UnreadFinishesNext(sb: Sandbox, want: LockRepo, prev: Option<LockRepo>, r: Repo, left: Repo, now: Repo)
    requires WellFormed(want) && LegalPrevious(prev) && Sound(sb, want, r) && !Blocked(want, prev, r)
    requires Blind(sb, r) && !want.archived && Diff(sb, want, prev, Some(r)).Plan?
    requires Run(sb.caps, ApplySteps(sb, Diff(sb, want, prev, Some(r)).change, r), r).repo == left
    requires now == left || now == Applied(left)
    ensures !Blind(sb, now) && FinishesAt(sb, want, prev, now, Goal(sb, want, prev, r))
  {
    hide Sound, Blocked, Goal, WellFormed, LegalPrevious, Diff, Run, RunOn;
    hide Needed, FinishesAt, SecondHalf, Unread, PushesSeed;
    UnreadNeedsSomething(sb, want, prev, r);
    UnreadOpensFirst(sb, want, prev, r);
    var steps := ApplySteps(sb, Diff(sb, want, prev, Some(r)).change, r);
    var applies := seq(|steps|, _ => false);
    UnreadUnarchives(Diff(sb, want, prev, Some(r)).change, r);
    assert steps[..|applies|] == steps;
    RunOnTheSlowestForge(sb.caps, steps, r);
    assert ApplyConverges.KilledAt(sb, want, prev, r, now, applies) && applies != [];
  }

  lemma UnreadUnarchives(c: Change, r: Repo)
    requires Unread(c, r)
    ensures FirstHalf(c, r) != []
  {
  }

  lemma NothingNeededIsDone(sb: Sandbox, want: LockRepo, prev: Option<LockRepo>, r: Repo)
    requires WellFormed(want) && Diff(sb, want, prev, Some(r)).Plan? && !Needed(Diff(sb, want, prev, Some(r)).change)
    ensures ApplyDone(sb, want, prev, Some(r), r)
  {
    hide Goal, Blocked, WellFormed, Diff, Needed, NothingOld, SettingsAsDeclared, Seeded, Unread, FinishesAt;
    if Sound(sb, want, r) && !Blocked(want, prev, r) {
      if !Blind(sb, r) {
        NothingNeededAtGoal(sb, want, prev, r);
        AtGoalIsGoal(sb, want, prev, r);
        assert Canonical(Applied(r)) == Canonical(r);
      } else if !want.archived {
        UnreadNeedsSomething(sb, want, prev, r);
      }
    }
  }

  /** The forge takes all that is planned for it, or nothing is. */
  predicate Applicable(sb: Sandbox, want: LockRepo, prev: Option<LockRepo>, r: Repo) {
    var p := Diff(sb, want, prev, Some(r));
    (p.Plan? && !Needed(p.change)) || Takes(sb, want, prev, r)
  }

  /** Done: forgelab's, and either nothing was called for or the whole of the change went through. */
  ghost predicate Changed(f: Forge, sb: Sandbox, c: Change, was: Option<Repo>, now: Option<Repo>) {
    && now.Some? && IsOurs(sb, now.value)
    && if Needed(c) then WentThrough(f, sb, c, was, now.value) else c.live.Some? && c.live == was == now
  }

  /** What one change promises, needed or not. */
  ghost predicate ChangeDone(f: Forge, sb: Sandbox, want: LockRepo, prev: Option<LockRepo>, c: Change, a: World,
        b: World, result: Result)
  {
    var was := Lookup(a, want.name);
    && OnlyThis(f, sb, want.name, a, b)
    && (result == NeverAdopts ==> !f.truthful && SomebodyElses(sb, a, want.name))
    && (result == Done ==> Changed(f, sb, c, was, Lookup(b, want.name)))
    && (f.reliable && f.truthful ==>
          want.name in b.repos && ApplyDone(sb, want, prev, was, b.repos[want.name]))
    && (f.reliable && f.truthful && (was.Some? ==> Sound(sb, want, was.value)) ==>
          (result == Done <==> was.None? || Applicable(sb, want, prev, was.value)))
  }

  /** One change of the plan, made if it is needed: both halves, with a read-back of what was created. */
  method ApplyChange(f: Forge, sb: Sandbox, want: LockRepo, prev: Option<LockRepo>, c: Change, took: nat -> nat)
    returns (result: Result)
    requires f.caps == sb.caps && WellFormed(want) && LegalPrevious(prev)
    requires PlannedAt(f, sb, want, prev, f.world, Plan(c))
    modifies f
    ensures ChangeDone(f, sb, want, prev, c, old(f.world), f.world, result)
    ensures WellOrHindered(old(f.log), f.log, result != Failed)
    ensures Needed(c) ==> Attempted(old(f.log), f.log, want.name)
  {
    hide OnlyThis, WellFormed, LegalPrevious, Diff, Needed, IsOurs, ApplyDone, HalfwayFrom, SomebodyElses;
    hide WellOrHindered, Attempted, SecondDone, Opens, Closes, Sound, Takes, WentThrough, FirstDone, Halfway;
    ghost var before, start := f.world, f.log;
    PlanIsOf(f, sb, want, prev, before, c);
    ItselfIsOnlyThis(f, sb, want.name, before);
    if !Needed(c) {
      SomethingIsNeededFor(sb, want, prev, c);
      NothingNeededIsDone(sb, want, prev, c.live.value);
      NothingHinders(start);
      return Done;
    }
    var pushed;
    result, pushed := ApplyFirst(f, sb, want, c, took, prev);
    ghost var mid, first := f.world, f.log;
    FirstMeans(f, sb, want, prev, c, result, pushed, Lookup(before, want.name), Lookup(mid, want.name));
    if result != Done {
      return;
    }
    var current := c.live;
    if c.live.None? {
      var answered;
      answered, current := f.Get(want.name);
    }
    ghost var log := f.log;
    LookingIsFine(start, first, log);
    var ok := ApplySecond(f, sb, want, c, pushed, current, prev, Lookup(before, want.name));
    ApplyIsDone(f, sb, want, prev, c, Lookup(before, want.name), f.world.repos[want.name], ok);
    WritingToOursIsOnlyThis(f, sb, want.name, before, mid, f.world);
    result := if ok then Done else Failed;
    WellOneMore(start, log, f.log, true, ok);
    NeededIsAttempted(f, sb, want, prev, c, pushed, current, start, first, log, f.log);
  }

  /** What a first half that ended early means for its change, and what one that went through leads to. */
  lemma FirstMeans(f: Forge, sb: Sandbox, want: LockRepo, prev: Option<LockRepo>, c: Change, result: Result,
        pushed: bool, was: Option<Repo>, now: Option<Repo>)
    requires FirstDone(f, sb, want, prev, c, result, pushed, was, now)
    ensures result == Done ==> now.Some? && Halfway(f, sb, c, pushed, was, now.value) && (pushed ==> Opens(c))
    ensures result == Done ==> IsOurs(sb, now.value) && (was.Some? ==> IsOurs(sb, was.value))
    ensures result != Done && f.reliable && f.truthful ==> now.Some? && ApplyDone(sb, want, prev, was, now.value)
    ensures f.reliable && f.truthful && (was.Some? ==> Sound(sb, want, was.value)) ==> result == Done
  {
    hide ApplyDone, Sound, Follows, IsOurs;
  }

  lemma ApplyIsDone(f: Forge, sb: Sandbox, want: LockRepo, prev: Option<LockRepo>, c: Change, was: Option<Repo>,
        now: Repo, ok: bool)
    requires SecondDone(f, sb, want, prev, c, was, now, ok) && Needed(c)
    requires Diff(sb, want, prev, c.live) == Plan(c) && (f.truthful ==> c.live == was)
    ensures IsOurs(sb, now) && (ok ==> Changed(f, sb, c, was, Some(now)))
    ensures f.reliable && f.truthful ==> ApplyDone(sb, want, prev, was, now)
    ensures f.reliable && f.truthful && (was.Some? ==> Sound(sb, want, was.value)) ==>
      (ok <==> was.None? || Applicable(sb, want, prev, was.value))
  {
    hide Diff, Needed, IsOurs, WentThrough, ApplyDone, Sound, Takes;
  }

  /** Every note, and every push, comes to a write in one half or the other. */
  lemma NeededWrites(sb: Sandbox, want: LockRepo, prev: Option<LockRepo>, c: Change)
    requires Diff(sb, want, prev, c.live) == Plan(c) && Needed(c) && !Opens(c)
    ensures SecondHalf(sb, c, false, c.live) != []
  {
    hide StaleTags, StaleBranches, Seeded, BaselineIntact, Sort;
  }

  lemma NeededIsAttempted(f: Forge, sb: Sandbox, want: LockRepo, prev: Option<LockRepo>, c: Change, pushed: bool,
        current: Option<Repo>, a: seq<Event>, b: seq<Event>, d: seq<Event>, e: seq<Event>)
    requires Diff(sb, want, prev, c.live) == Plan(c) && Needed(c) && (pushed ==> Opens(c))
    requires c.live.Some? ==> current == c.live
    requires a <= b <= d <= e && (Opens(c) ==> Attempted(a, b, want.name))
    requires Closes(sb, c, pushed, current) ==> Attempted(d, e, want.name)
    ensures Attempted(a, e, want.name)
  {
    hide Diff, Needed, Attempted, SecondHalf, FirstHalf;
    if Opens(c) {
      AttemptedEarlier(a, b, e, want.name);
    } else {
      NeededWrites(sb, want, prev, c);
      AttemptedLater(a, d, e, want.name);
    }
  }

  lemma SomethingIsNeededFor(sb: Sandbox, want: LockRepo, prev: Option<LockRepo>, c: Change)
    requires Diff(sb, want, prev, c.live) == Plan(c) && !Needed(c)
    ensures c.live.Some?
  {
    DiffKeepsItsSubject(sb, want, prev, c.live);
  }

  /** The fleet as far as an apply has got: nobody else's repository has changed, nor any namespace. */
  ghost predicate ApplyLeaves(f: Forge, sb: Sandbox, wants: seq<LockRepo>, n: nat, a: World, b: World) {
    && n <= |wants|
    && (forall x :: x in a.repos ==> x in b.repos)
    && (forall x :: x in a.repos && !Declares(wants[..n], x) ==> b.repos[x] == a.repos[x])
    && (forall x :: Foreign(sb, wants, a, x) ==> b.repos[x] == a.repos[x])
    && (forall x :: x in b.repos && x !in a.repos ==> Declares(wants[..n], x))
    && (forall ns :: ns in a.namespaces ==> ns in b.namespaces && b.namespaces[ns] == a.namespaces[ns])
    && (forall ns :: ns in b.namespaces && ns !in a.namespaces ==> f.Held(ns))
  }

  /**
   * What a change reported as done leaves, on any forge: forgelab's own and, if it is new or was seen by
   * the plan, what an apply makes of it. One that was sound and readable is at its goal as soon as
   * everything is applied.
   */
  ghost predicate Achieved(sb: Sandbox, want: LockRepo, prev: Option<LockRepo>, seen: bool, was: Option<Repo>,
        now: Option<Repo>)
  {
    && now.Some? && IsOurs(sb, now.value)
    && (was.None? || seen ==> ApplyDone(sb, want, prev, was, now.value))
    && (was.None? || (seen && Sound(sb, want, was.value) && !Blind(sb, was.value)) ==>
          AtGoal(sb, want, prev, Applied(now.value)))
  }

  lemma ChangedIsAchieved(f: Forge, sb: Sandbox, want: LockRepo, prev: Option<LockRepo>, c: Change, w: World,
        now: Option<Repo>)
    requires f.caps == sb.caps && WellFormed(want) && LegalPrevious(prev) && PlannedAt(f, sb, want, prev, w, Plan(c))
    requires Changed(f, sb, c, Lookup(w, want.name), now)
    ensures Achieved(sb, want, prev, c.live.Some?, Lookup(w, want.name), now)
  {
    hide Diff, Needed, IsOurs, WentThrough, ApplyDone, Sound, AtGoal, WellFormed, LegalPrevious, Blind;
    PlanIsOf(f, sb, want, prev, w, c);
    var was := Lookup(w, want.name);
    if was.None? || c.live.Some? {
      if Needed(c) {
        ThroughIsAchieved(f, sb, want, prev, c, was, now.value);
      } else {
        NothingNeededIsDone(sb, want, prev, now.value);
        NothingNeededIsAtGoal(sb, want, prev, now.value);
      }
    }
  }

  lemma ThroughIsAchieved(f: Forge, sb: Sandbox, want: LockRepo, prev: Option<LockRepo>, c: Change, was: Option<Repo>,
        now: Repo)
    requires f.caps == sb.caps && WellFormed(want) && LegalPrevious(prev)
    requires c.want == want && Diff(sb, want, prev, c.live) == Plan(c) && c.live == was
    requires WentThrough(f, sb, c, was, now)
    ensures ApplyDone(sb, want, prev, was, now)
    ensures was.None? || (Sound(sb, want, was.value) && !Blind(sb, was.value)) ==>
      AtGoal(sb, want, prev, Applied(now))
  {
    hide Diff, Sound, AtGoal, WellFormed, LegalPrevious, Blind, Run, Steps, FirstHalf, SecondHalf, JustMade, Current;
    hide Goal, Canonical, Blocked, Fits, ReadBack, Settles, FinishesAt;
    var made, current :| WentThroughFrom(f, sb, c, was, made, current, now);
    if was.None? {
      NewIsReadBack(f, sb, prev, c, made, current);
      CreationFits(sb, want, prev, made);
      RunEndsAtGoal(sb, prev, c, current, made);
    } else {
      FoundWentThrough(f, sb, want, prev, c, made, current, now);
      if Sound(sb, want, made) && !Blind(sb, made) {
        PlanFits(sb, want, prev, made);
        ReadAsItIs(made);
        RunGoes(sb, prev, c, Some(made), made);
        RunEndsAtGoal(sb, prev, c, Some(made), made);
      }
    }
  }

  lemma ReadAsItIs(r: Repo)
    ensures ReadBack(Some(r), r)
  {
  }

  lemma NewIsReadBack(f: Forge, sb: Sandbox, prev: Option<LockRepo>, c: Change, made: Repo, current: Option<Repo>)
    requires WellFormed(c.want) && JustMade(sb, made) && Diff(sb, c.want, prev, None) == Plan(c) && c.live.None?
    requires Current(f, c, Run(sb.caps, FirstHalf(c, made), made).repo, current)
    ensures ReadBack(current, made)
  {
    CreationFits(sb, c.want, prev, made);
    FitsMeansNeed(sb, prev, c, made);
    hide Run, Sound, WellFormed, Diff, FirstHalf, AfterFirst, PushesSeed, JustMade;
    FirstHalfGoes(sb, prev, c, made);
    FirstHalfKeeps(sb, c, made);
  }

  lemma FoundWentThrough(f: Forge, sb: Sandbox, want: LockRepo, prev: Option<LockRepo>, c: Change, r: Repo,
        current: Option<Repo>, now: Repo)
    requires f.caps == sb.caps && WellFormed(want) && LegalPrevious(prev)
    requires c.live == Some(r) && Diff(sb, want, prev, Some(r)) == Plan(c)
    requires WentThroughFrom(f, sb, c, Some(r), r, current, now)
    ensures current == Some(r) && ApplyDone(sb, want, prev, Some(r), now)
    ensures Steps(sb, c, Some(r), r) == ApplySteps(sb, c, r)
    ensures Sound(sb, want, r) ==> Takes(sb, want, prev, r)
  {
    hide Diff, Sound, WellFormed, LegalPrevious, Run, FirstHalf, SecondHalf, JustMade, Takes, ApplyDone, PushesSeed;
    var steps := ApplySteps(sb, c, r);
    assert steps[..|steps|] == steps;
    assert CutShort(sb.caps, steps, r, now);
    FollowedToGoal(f, sb, want, prev, r, now, true);
  }

  lemma NothingNeededIsAtGoal(sb: Sandbox, want: LockRepo, prev: Option<LockRepo>, r: Repo)
    requires Diff(sb, want, prev, Some(r)).Plan? && !Needed(Diff(sb, want, prev, Some(r)).change)
    ensures Sound(sb, want, r) && !Blind(sb, r) ==> AtGoal(sb, want, prev, Applied(r))
  {
    if Sound(sb, want, r) && !Blind(sb, r) {
      NothingNeededAtGoal(sb, want, prev, r);
      assert want.empty ==> !r.pending;
      hide Diff, Needed, Sound, SettingsAsDeclared;
      SeededByRefs(want, prev, r, Applied(r));
      hide Seeded, NothingOld;
      assert SettingsAsDeclared(sb, want, Applied(r)) == SettingsAsDeclared(sb, want, r) by {
        SettingsIgnoreTime(sb, want, r);
      }
    }
  }

  lemma SettingsIgnoreTime(sb: Sandbox, want: LockRepo, r: Repo)
    ensures SettingsAsDeclared(sb, want, Applied(r)) == SettingsAsDeclared(sb, want, r)
  {
  }

  /** The first `n` are what they were to become. */
  ghost predicate AchievedUpTo(sb: Sandbox, wants: seq<LockRepo>, previous: map<string, LockRepo>, plans: seq<Planned>,
        n: nat, a: World, b: World)
  {
    && n <= |wants| == |plans|
    && forall i :: 0 <= i < n ==>
         plans[i].Plan?
         && Achieved(sb, wants[i], PrevOf(previous, wants[i].name), plans[i].change.live.Some?,
                     Lookup(a, wants[i].name), Lookup(b, wants[i].name))
  }

  lemma AchievedOneMore(f: Forge, sb: Sandbox, wants: seq<LockRepo>, previous: map<string, LockRepo>,
        plans: seq<Planned>, n: nat, a: World, b: World, c: World)
    requires Legal(wants) && AchievedUpTo(sb, wants, previous, plans, n, a, b) && n < |wants| && plans[n].Plan?
    requires OnlyThis(f, sb, wants[n].name, b, c)
    requires Achieved(sb, wants[n], PrevOf(previous, wants[n].name), plans[n].change.live.Some?,
                      Lookup(a, wants[n].name), Lookup(c, wants[n].name))
    ensures AchievedUpTo(sb, wants, previous, plans, n + 1, a, c)
  {
    hide Achieved, WellFormed;
    forall i | 0 <= i < n ensures Lookup(c, wants[i].name) == Lookup(b, wants[i].name) {
    }
  }

  /** The forge takes what is planned for the first `n`. */
  ghost predicate ApplicableUpTo(sb: Sandbox, wants: seq<LockRepo>, previous: map<string, LockRepo>, n: nat, w: World) {
    && n <= |wants|
    && forall i :: 0 <= i < n && wants[i].name in w.repos ==>
         Applicable(sb, wants[i], PrevOf(previous, wants[i].name), w.repos[wants[i].name])
  }

  lemma ApplicableOneMore(sb: Sandbox, wants: seq<LockRepo>, previous: map<string, LockRepo>, n: nat, w: World)
    requires n < |wants|
    ensures ApplicableUpTo(sb, wants, previous, n + 1, w) <==>
      && ApplicableUpTo(sb, wants, previous, n, w)
      && (Lookup(w, wants[n].name).Some? ==>
            Applicable(sb, wants[n], PrevOf(previous, wants[n].name), w.repos[wants[n].name]))
  {
    hide Applicable;
  }

  ghost predicate ApplyDoneUpTo(sb: Sandbox, wants: seq<LockRepo>, previous: map<string, LockRepo>, n: nat, a: World,
        b: World)
  {
    n <= |wants| && forall i :: 0 <= i < n ==>
      wants[i].name in b.repos
      && ApplyDone(sb, wants[i], PrevOf(previous, wants[i].name), Lookup(a, wants[i].name), b.repos[wants[i].name])
  }

  lemma NotAppliedYet(f: Forge, sb: Sandbox, wants: seq<LockRepo>, n: nat, a: World, b: World)
    requires Legal(wants) && n < |wants| && ApplyLeaves(f, sb, wants, n, a, b)
    ensures Lookup(b, wants[n].name) == Lookup(a, wants[n].name)
  {
    forall i | 0 <= i < n ensures wants[..n][i].name != wants[n].name {
      assert wants[..n][i] == wants[i];
    }
    assert !Declares(wants[..n], wants[n].name);
  }

  lemma ApplyOneMore(f: Forge, sb: Sandbox, wants: seq<LockRepo>, n: nat, a: World, b: World, c: World)
    requires Legal(wants) && n < |wants| && ApplyLeaves(f, sb, wants, n, a, b) && OnlyThis(f, sb, wants[n].name, b, c)
    ensures ApplyLeaves(f, sb, wants, n + 1, a, c)
  {
    NotAppliedYet(f, sb, wants, n, a, b);
    DeclaresOneMore(wants, n);
    hide WellFormed;
    forall x | Foreign(sb, wants, a, x) ensures c.repos[x] == a.repos[x] {
      assert Declares(wants, wants[n].name);
    }
  }

  lemma DoneOneMore(sb: Sandbox, wants: seq<LockRepo>, previous: map<string, LockRepo>, f: Forge, n: nat, a: World,
        b: World, c: World)
    requires Legal(wants) && n < |wants| && ApplyDoneUpTo(sb, wants, previous, n, a, b)
    requires OnlyThis(f, sb, wants[n].name, b, c)
    requires wants[n].name in c.repos
    requires ApplyDone(sb, wants[n], PrevOf(previous, wants[n].name), Lookup(a, wants[n].name), c.repos[wants[n].name])
    ensures ApplyDoneUpTo(sb, wants, previous, n + 1, a, c)
  {
    hide ApplyDone, WellFormed;
  }

  /** Legal locks, by name. */
  ghost predicate LegalLocks(previous: map<string, LockRepo>) {
    forall n :: n in previous ==> BASELINE_TAG !in previous[n].tags
  }

  predicate GuardedAt(sb: Sandbox, want: LockRepo, previous: map<string, LockRepo>, w: World) {
    Diff(sb, want, PrevOf(previous, want.name), Lookup(w, want.name)).Guarded?
  }

  ghost predicate AnyGuarded(sb: Sandbox, wants: seq<LockRepo>, previous: map<string, LockRepo>, w: World) {
    exists i :: 0 <= i < |wants| && GuardedAt(sb, wants[i], previous, w)
  }

  ghost predicate AnyElses(sb: Sandbox, wants: seq<LockRepo>, w: World) {
    exists i :: 0 <= i < |wants| && SomebodyElses(sb, w, wants[i].name)
  }

  lemma ElsesWas(sb: Sandbox, wants: seq<LockRepo>, i: nat, a: World, b: World)
    requires i < |wants| && Lookup(b, wants[i].name) == Lookup(a, wants[i].name)
    requires SomebodyElses(sb, b, wants[i].name)
    ensures AnyElses(sb, wants, a)
  {
    assert SomebodyElses(sb, a, wants[i].name);
  }

  /** The first `n` are there, and forgelab's. */
  ghost predicate OursUpTo(sb: Sandbox, wants: seq<LockRepo>, n: nat, w: World) {
    n <= |wants| && forall i :: 0 <= i < n ==> wants[i].name in w.repos && IsOurs(sb, w.repos[wants[i].name])
  }

  function NeededOf(plans: seq<Planned>): (due: seq<bool>)
    ensures |due| == |plans|
    ensures forall i :: 0 <= i < |plans| ==> due[i] == (plans[i].Plan? && Needed(plans[i].change))
  {
    seq(|plans|, i requires 0 <= i < |plans| => plans[i].Plan? && Needed(plans[i].change))
  }

  /** Every change, both halves before the next, one failure or not. */
  method ApplyEach(f: Forge, sb: Sandbox, wants: seq<LockRepo>, previous: map<string, LockRepo>, plans: seq<Planned>,
        took: nat -> nat)
    returns (verdict: Verdict)
    requires Legal(wants) && LegalLocks(previous) && f.caps == sb.caps && |plans| == |wants|
    requires forall i :: 0 <= i < |wants| ==>
      plans[i].Plan? && PlannedAt(f, sb, wants[i], PrevOf(previous, wants[i].name), f.world, plans[i])
    modifies f
    ensures ApplyLeaves(f, sb, wants, |wants|, old(f.world), f.world)
    ensures verdict == LateGuards ==> !f.truthful && AnyElses(sb, wants, old(f.world))
    ensures verdict == Fine || verdict == LateGuards || verdict == Failures
    ensures verdict == Fine ==> AchievedUpTo(sb, wants, previous, plans, |wants|, old(f.world), f.world)
    ensures f.reliable && f.truthful ==> ApplyDoneUpTo(sb, wants, previous, |wants|, old(f.world), f.world)
    ensures f.reliable && f.truthful && AllSound(sb, wants, old(f.world)) ==>
      (verdict == Fine <==> ApplicableUpTo(sb, wants, previous, |wants|, old(f.world)))
    ensures WellOrHindered(old(f.log), f.log, verdict != Failures)
    ensures WrittenUpTo(wants, NeededOf(plans), |wants|, old(f.log), f.log)
  {
    hide ApplyLeaves, ApplyDoneUpTo, OnlyThis, ApplyDone, Diff, WellFormed, AnyElses, SomebodyElses, IsOurs;
    hide AchievedUpTo, Achieved, ApplicableUpTo, Applicable, AllSound, Sound, Changed, Needed, WrittenUpTo, Attempted;
    hide Hindered;
    ghost var before, start := f.world, f.log;
    verdict := Fine;
    NothingApplied(f, sb, wants, previous, plans, before);
    NothingWritten(wants, NeededOf(plans), start);
    for i := 0 to |wants|
      invariant ApplyLeaves(f, sb, wants, i, before, f.world)
      invariant verdict == LateGuards ==> !f.truthful && AnyElses(sb, wants, before)
      invariant verdict == Fine || verdict == LateGuards || verdict == Failures
      invariant verdict == Fine ==> AchievedUpTo(sb, wants, previous, plans, i, before, f.world)
      invariant f.reliable && f.truthful ==> ApplyDoneUpTo(sb, wants, previous, i, before, f.world)
      invariant f.reliable && f.truthful && AllSound(sb, wants, before) ==>
        (verdict == Fine <==> ApplicableUpTo(sb, wants, previous, i, before))
      invariant WellOrHindered(start, f.log, verdict != Failures)
      invariant WrittenUpTo(wants, NeededOf(plans), i, start, f.log)
    {
      ghost var mid, log := f.world, f.log;
      var prev := PrevOf(previous, wants[i].name);
      NotAppliedYet(f, sb, wants, i, before, mid);
      assert PlannedAt(f, sb, wants[i], prev, mid, plans[i]) by {
        PlanStillFits(f, sb, wants[i], prev, before, mid, plans[i]);
      }
      SoundThere(sb, wants, i, before);
      var r := ApplyChange(f, sb, wants[i], prev, plans[i].change, took);
      ApplyOneMore(f, sb, wants, i, before, mid, f.world);
      WellOneMore(start, log, f.log, verdict != Failures, r != Failed);
      WrittenOneMore(wants, NeededOf(plans), i, start, log, f.log);
      ApplicableOneMore(sb, wants, previous, i, before);
      if f.reliable && f.truthful {
        DoneOneMore(sb, wants, previous, f, i, before, mid, f.world);
      }
      if r == NeverAdopts {
        ElsesWas(sb, wants, i, before, mid);
      }
      if r == Done && verdict == Fine {
        ChangedIsAchieved(f, sb, wants[i], prev, plans[i].change, mid, Lookup(f.world, wants[i].name));
        AchievedOneMore(f, sb, wants, previous, plans, i, before, mid, f.world);
      }
      verdict := Worse(verdict, r);
    }
  }

  lemma SoundThere(sb: Sandbox, wants: seq<LockRepo>, i: nat, w: World)
    requires i < |wants|
    ensures AllSound(sb, wants, w) && Lookup(w, wants[i].name).Some? ==>
      Sound(sb, wants[i], Lookup(w, wants[i].name).value)
  {
    hide Sound;
  }

  /** Guards win over failures, and both over success. */
  function Worse(v: Verdict, r: Result): Verdict {
    if r == NeverAdopts then LateGuards
    else if r == Failed && v == Fine then Failures
    else v
  }

  // ------------------------------------------------------------ where lookups are batched: in two phases

  /** A change after the first phase: not needed and untouched, or through its first half. */
  ghost predicate HalfDone(f: Forge, sb: Sandbox, c: Change, pushed: bool, was: Option<Repo>, now: Option<Repo>) {
    && now.Some?
    && (if Needed(c) then Halfway(f, sb, c, pushed, was, now.value)
        else c.live.Some? && was == now && IsOurs(sb, now.value))
  }

  ghost predicate HalfDoneUpTo(f: Forge, sb: Sandbox, wants: seq<LockRepo>, plans: seq<Planned>, pushes: seq<bool>,
        n: nat, a: World, b: World)
  {
    && n <= |wants| == |plans| && n <= |pushes| && (forall i :: 0 <= i < |plans| ==> plans[i].Plan?)
    && forall i :: 0 <= i < n ==>
         HalfDone(f, sb, plans[i].change, pushes[i], Lookup(a, wants[i].name), Lookup(b, wants[i].name))
  }

  lemma HalfDoneOneMore(f: Forge, sb: Sandbox, wants: seq<LockRepo>, plans: seq<Planned>, pushes: seq<bool>, push: bool,
        n: nat, a: World, b: World, c: World)
    requires Legal(wants) && HalfDoneUpTo(f, sb, wants, plans, pushes, n, a, b) && n == |pushes| < |wants|
    requires OnlyThis(f, sb, wants[n].name, b, c)
    requires HalfDone(f, sb, plans[n].change, push, Lookup(a, wants[n].name), Lookup(c, wants[n].name))
    ensures HalfDoneUpTo(f, sb, wants, plans, pushes + [push], n + 1, a, c)
  {
    hide HalfDone, WellFormed;
    forall i | 0 <= i < n ensures Lookup(c, wants[i].name) == Lookup(b, wants[i].name) {
    }
  }

  /** All that first halves can be refused for is what no apply leaves behind. */
  ghost predicate AllSound(sb: Sandbox, wants: seq<LockRepo>, w: World) {
    forall i :: 0 <= i < |wants| && wants[i].name in w.repos ==> Sound(sb, wants[i], w.repos[wants[i].name])
  }

  function OpensOf(plans: seq<Planned>): (due: seq<bool>)
    ensures |due| == |plans|
    ensures forall i :: 0 <= i < |plans| ==>
      due[i] == (plans[i].Plan? && Needed(plans[i].change) && Opens(plans[i].change))
  {
    seq(|plans|, i requires 0 <= i < |plans| =>
      plans[i].Plan? && Needed(plans[i].change) && Opens(plans[i].change))
  }

  /** The first phase: the first half of every change, one failure or not. */
  method FirstPhase(f: Forge, sb: Sandbox, wants: seq<LockRepo>, previous: map<string, LockRepo>, plans: seq<Planned>,
        took: nat -> nat)
    returns (verdict: Verdict, pushes: seq<bool>)
    requires Legal(wants) && LegalLocks(previous) && f.caps == sb.caps && |plans| == |wants|
    requires forall i :: 0 <= i < |wants| ==>
      plans[i].Plan? && PlannedAt(f, sb, wants[i], PrevOf(previous, wants[i].name), f.world, plans[i])
    modifies f
    ensures ApplyLeaves(f, sb, wants, |wants|, old(f.world), f.world) && |pushes| == |wants|
    ensures verdict == LateGuards ==> !f.truthful && AnyElses(sb, wants, old(f.world))
    ensures verdict == Fine || verdict == LateGuards || verdict == Failures
    ensures verdict == Fine ==> HalfDoneUpTo(f, sb, wants, plans, pushes, |wants|, old(f.world), f.world)
    ensures f.reliable && f.truthful && AllSound(sb, wants, old(f.world)) ==> verdict == Fine
    ensures WellOrHindered(old(f.log), f.log, verdict != Failures)
    ensures WrittenUpTo(wants, OpensOf(plans), |wants|, old(f.log), f.log)
  {
    hide ApplyLeaves, OnlyThis, FirstDone, HalfDone, HalfDoneUpTo, Diff, WellFormed, AnyElses, SomebodyElses, IsOurs;
    hide Needed, Opens, AllSound, Sound, WrittenUpTo, Attempted, Hindered;
    ghost var before, start := f.world, f.log;
    verdict, pushes := Fine, [];
    NothingApplied(f, sb, wants, previous, plans, before);
    NothingWritten(wants, OpensOf(plans), start);
    NothingHalfDone(f, sb, wants, plans, before);
    for i := 0 to |wants|
      invariant ApplyLeaves(f, sb, wants, i, before, f.world) && |pushes| == i
      invariant verdict == LateGuards ==> !f.truthful && AnyElses(sb, wants, before)
      invariant verdict == Fine || verdict == LateGuards || verdict == Failures
      invariant verdict == Fine ==> HalfDoneUpTo(f, sb, wants, plans, pushes, i, before, f.world)
      invariant f.reliable && f.truthful && AllSound(sb, wants, before) ==> verdict == Fine
      invariant WellOrHindered(start, f.log, verdict != Failures)
      invariant WrittenUpTo(wants, OpensOf(plans), i, start, f.log)
    {
      ghost var mid, log := f.world, f.log;
      var prev, c := PrevOf(previous, wants[i].name), plans[i].change;
      NotAppliedYet(f, sb, wants, i, before, mid);
      assert PlannedAt(f, sb, wants[i], prev, mid, Plan(c)) by {
        PlanStillFits(f, sb, wants[i], prev, before, mid, plans[i]);
      }
      SoundThere(sb, wants, i, before);
      NothingHinders(log);
      var r, pushed := Done, false;
      if Needed(c) {
        r, pushed := ApplyFirst(f, sb, wants[i], c, took, prev);
        FirstIsHalfDone(f, sb, wants[i], prev, c, r, pushed, Lookup(before, wants[i].name),
                        Lookup(f.world, wants[i].name));
      } else {
        UnneededIsHalfDone(f, sb, wants[i], prev, mid, c);
        ItselfIsOnlyThis(f, sb, wants[i].name, mid);
      }
      ApplyOneMore(f, sb, wants, i, before, mid, f.world);
      WellOneMore(start, log, f.log, verdict != Failures, r != Failed);
      WrittenOneMore(wants, OpensOf(plans), i, start, log, f.log);
      if r == NeverAdopts {
        ElsesWas(sb, wants, i, before, mid);
      }
      if r == Done && verdict == Fine {
        HalfDoneOneMore(f, sb, wants, plans, pushes, pushed, i, before, mid, f.world);
      }
      verdict, pushes := Worse(verdict, r), pushes + [pushed];
    }
  }

  lemma NothingHalfDone(f: Forge, sb: Sandbox, wants: seq<LockRepo>, plans: seq<Planned>, w: World)
    requires |plans| == |wants| && forall i :: 0 <= i < |plans| ==> plans[i].Plan?
    ensures HalfDoneUpTo(f, sb, wants, plans, [], 0, w, w)
  {
  }

  lemma FirstIsHalfDone(f: Forge, sb: Sandbox, want: LockRepo, prev: Option<LockRepo>, c: Change, result: Result,
        pushed: bool, was: Option<Repo>, now: Option<Repo>)
    requires FirstDone(f, sb, want, prev, c, result, pushed, was, now) && Needed(c)
    ensures result == Done ==> HalfDone(f, sb, c, pushed, was, now)
    ensures f.reliable && f.truthful && (was.Some? ==> Sound(sb, want, was.value)) ==> result == Done
  {
    hide Halfway, ApplyDone, Sound, Needed;
  }

  lemma UnneededIsHalfDone(f: Forge, sb: Sandbox, want: LockRepo, prev: Option<LockRepo>, w: World, c: Change)
    requires PlannedAt(f, sb, want, prev, w, Plan(c)) && !Needed(c)
    ensures HalfDone(f, sb, c, false, Lookup(w, want.name), Lookup(w, want.name))
  {
    PlanIsOf(f, sb, want, prev, w, c);
    SomethingIsNeededFor(sb, want, prev, c);
    hide Diff, Needed, IsOurs;
  }

  /** What was created is read back, all of it at once: one lookup without an answer ends the command. */
  method ReadCreated(f: Forge, sb: Sandbox, wants: seq<LockRepo>, plans: seq<Planned>)
    returns (answered: bool, currents: seq<Option<Repo>>)
    requires Legal(wants) && |plans| == |wants| && forall i :: 0 <= i < |plans| ==> plans[i].Plan?
    modifies f`log
    ensures |currents| == |wants| && (f.truthful ==> answered)
    ensures forall i :: 0 <= i < |wants| ==> ReadBackAs(f, plans[i].change, Lookup(f.world, wants[i].name), currents[i])
    ensures WellOrHindered(old(f.log), f.log, answered)
    ensures answered ==> AllReadBack(wants, plans, |wants|, old(f.log), f.log)
  {
    hide Hindered, LastLookAnswered, WellFormed;
    answered, currents := true, [];
    for i := 0 to |wants|
      invariant |currents| == i && (f.truthful ==> answered)
      invariant forall j :: 0 <= j < i ==>
        ReadBackAs(f, plans[j].change, Lookup(f.world, wants[j].name), currents[j])
      invariant WellOrHindered(old(f.log), f.log, answered)
      invariant answered ==> AllReadBack(wants, plans, i, old(f.log), f.log)
    {
      var current := plans[i].change.live;
      if current.None? {
        ghost var log := f.log;
        var ok;
        ok, current := f.Get(wants[i].name);
        OneLook(log, Looked(wants[i].name, ok, current.Some?), ok);
        WellOneMore(old(f.log), log, f.log, answered, ok);
        if answered && ok {
          OneMoreReadBack(wants, plans, i, old(f.log), log, Looked(wants[i].name, ok, current.Some?));
        }
        answered := answered && ok;
      }
      currents := currents + [current];
    }
  }

  /** Of the first `n`, what was created has been read back: the last look at it was answered. */
  ghost predicate AllReadBack(wants: seq<LockRepo>, plans: seq<Planned>, n: nat, a: seq<Event>, b: seq<Event>) {
    && n <= |wants| == |plans| && a <= b
    && forall i :: 0 <= i < n && plans[i].Plan? && plans[i].change.live.None? ==> LastLookAnswered(a, b, wants[i].name)
  }

  lemma OneMoreReadBack(wants: seq<LockRepo>, plans: seq<Planned>, n: nat, a: seq<Event>, b: seq<Event>, e: Event)
    requires Legal(wants) && n < |wants| && AllReadBack(wants, plans, n, a, b)
    requires e.Looked? && e.name == wants[n].name && e.answered
    ensures AllReadBack(wants, plans, n + 1, a, b + [e])
  {
    hide WellFormed;
    assert LooksLast(b + [e], |b|, wants[n].name);
    forall i | 0 <= i < n && plans[i].Plan? && plans[i].change.live.None?
      ensures LastLookAnswered(a, b + [e], wants[i].name)
    {
      StillLast(a, b, b + [e], wants[i].name);
    }
  }

  lemma ReadBackStill(wants: seq<LockRepo>, plans: seq<Planned>, a: seq<Event>, b: seq<Event>, c: seq<Event>,
        d: seq<Event>)
    requires AllReadBack(wants, plans, |wants|, b, c) && a <= b && NoLooks(c, d)
    ensures AllReadBack(wants, plans, |wants|, a, d)
  {
    hide LastLookAnswered;
    forall i | 0 <= i < |wants| && plans[i].Plan? && plans[i].change.live.None?
      ensures LastLookAnswered(a, d, wants[i].name)
    {
      LastLookEarlier(a, b, c, wants[i].name);
      StillLast(a, c, d, wants[i].name);
    }
  }

  /** One that was found when planning is taken as it was then; one that was created, as it is now, if it shows. */
  predicate ReadBackAs(f: Forge, c: Change, now: Option<Repo>, current: Option<Repo>) {
    if c.live.Some? then current == c.live else current.Some? || f.truthful ==> current == now
  }

  /** In the second phase: the first `n` are settled, `well` or not; the rest are as the first phase left them. */
  ghost predicate SecondUpTo(f: Forge, sb: Sandbox, wants: seq<LockRepo>, previous: map<string, LockRepo>,
        plans: seq<Planned>, n: nat, well: bool, a: World, half: World, b: World)
  {
    && n <= |wants| && (forall i :: n <= i < |wants| ==> Lookup(b, wants[i].name) == Lookup(half, wants[i].name))
    && OursUpTo(sb, wants, |wants|, b)
    && (well ==> AchievedUpTo(sb, wants, previous, plans, n, a, b))
    && (f.reliable && f.truthful ==> ApplyDoneUpTo(sb, wants, previous, n, a, b))
    && (f.reliable && f.truthful && AllSound(sb, wants, a) ==> (well <==> ApplicableUpTo(sb, wants, previous, n, a)))
  }

  lemma SecondOneMore(f: Forge, sb: Sandbox, wants: seq<LockRepo>, previous: map<string, LockRepo>, plans: seq<Planned>,
        n: nat, well: bool, a: World, half: World, b: World, c: World, ok: bool)
    requires Legal(wants) && LegalLocks(previous) && f.caps == sb.caps && n < |wants| == |plans| && plans[n].Plan?
    requires PlannedAt(f, sb, wants[n], PrevOf(previous, wants[n].name), a, plans[n])
    requires SecondUpTo(f, sb, wants, previous, plans, n, well, a, half, b) && OnlyThis(f, sb, wants[n].name, b, c)
    requires SettledAs(f, sb, wants[n], PrevOf(previous, wants[n].name), plans[n].change, Lookup(a, wants[n].name),
                       Lookup(c, wants[n].name), ok)
    ensures SecondUpTo(f, sb, wants, previous, plans, n + 1, well && ok, a, half, c)
  {
    OthersStay(f, sb, wants, n, b, c);
    OursStay(f, sb, wants, n, b, c);
    hide IsOurs, ApplyDone, WellFormed, AchievedUpTo, ApplicableUpTo, AllSound, Applicable, Sound, Achieved, Changed;
    hide OnlyThis, Diff, ApplyDoneUpTo, OursUpTo, PlannedAt;
    SoundThere(sb, wants, n, a);
    ApplicableOneMore(sb, wants, previous, n, a);
    if f.reliable && f.truthful {
      DoneOneMore(sb, wants, previous, f, n, a, b, c);
    }
    if well && ok {
      ChangedIsAchieved(f, sb, wants[n], PrevOf(previous, wants[n].name), plans[n].change, a,
                        Lookup(c, wants[n].name));
      AchievedOneMore(f, sb, wants, previous, plans, n, a, b, c);
    }
  }

  lemma OursStay(f: Forge, sb: Sandbox, wants: seq<LockRepo>, n: nat, b: World, c: World)
    requires Legal(wants) && n < |wants| && OnlyThis(f, sb, wants[n].name, b, c) && OursUpTo(sb, wants, |wants|, b)
    requires wants[n].name in c.repos && IsOurs(sb, c.repos[wants[n].name])
    ensures OursUpTo(sb, wants, |wants|, c)
  {
    hide IsOurs, WellFormed;
  }

  lemma OthersStay(f: Forge, sb: Sandbox, wants: seq<LockRepo>, n: nat, b: World, c: World)
    requires Legal(wants) && n < |wants| && OnlyThis(f, sb, wants[n].name, b, c)
    ensures forall i :: 0 <= i < |wants| && i != n ==> Lookup(c, wants[i].name) == Lookup(b, wants[i].name)
  {
    hide IsOurs, WellFormed;
    forall i | 0 <= i < |wants| && i != n ensures wants[i].name != wants[n].name {
      if i < n {
        assert wants[i].name != wants[n].name;
      }
    }
  }

  lemma StillLeaves(f: Forge, sb: Sandbox, wants: seq<LockRepo>, i: nat, a: World, b: World, c: World)
    requires i < |wants| && ApplyLeaves(f, sb, wants, |wants|, a, b) && OnlyThis(f, sb, wants[i].name, b, c)
    requires wants[i].name in b.repos
    ensures ApplyLeaves(f, sb, wants, |wants|, a, c)
  {
    assert wants[..|wants|] == wants;
    assert Declares(wants, wants[i].name);
    hide IsOurs;
    forall x | Foreign(sb, wants, a, x) ensures c.repos[x] == a.repos[x] {
    }
  }

  /** Those of which the second half begins with a change. */
  function ClosesOf(sb: Sandbox, plans: seq<Planned>, pushes: seq<bool>, currents: seq<Option<Repo>>): (due: seq<bool>)
    requires |plans| == |pushes| == |currents|
    ensures |due| == |plans|
    ensures forall i :: 0 <= i < |plans| ==>
      due[i] == (plans[i].Plan? && Needed(plans[i].change) && Closes(sb, plans[i].change, pushes[i], currents[i]))
  {
    seq(|plans|, i requires 0 <= i < |plans| =>
      plans[i].Plan? && Needed(plans[i].change) && Closes(sb, plans[i].change, pushes[i], currents[i]))
  }

  /** The second phase: every change that was needed is settled, one failure or not. */
  method SecondPhase(f: Forge, sb: Sandbox, wants: seq<LockRepo>, previous: map<string, LockRepo>, plans: seq<Planned>,
        pushes: seq<bool>, currents: seq<Option<Repo>>, ghost before: World)
    returns (verdict: Verdict)
    requires Legal(wants) && LegalLocks(previous) && f.caps == sb.caps && |plans| == |wants| == |pushes| == |currents|
    requires forall i :: 0 <= i < |wants| ==>
      plans[i].Plan? && PlannedAt(f, sb, wants[i], PrevOf(previous, wants[i].name), before, plans[i])
    requires HalfDoneUpTo(f, sb, wants, plans, pushes, |wants|, before, f.world)
    requires ApplyLeaves(f, sb, wants, |wants|, before, f.world)
    requires forall i :: 0 <= i < |wants| ==>
      ReadBackAs(f, plans[i].change, Lookup(f.world, wants[i].name), currents[i])
    modifies f
    ensures ApplyLeaves(f, sb, wants, |wants|, before, f.world)
    ensures verdict == Fine || verdict == Failures
    ensures verdict == Fine ==> AchievedUpTo(sb, wants, previous, plans, |wants|, before, f.world)
    ensures f.reliable && f.truthful ==> ApplyDoneUpTo(sb, wants, previous, |wants|, before, f.world)
    ensures f.reliable && f.truthful && AllSound(sb, wants, before) ==>
      (verdict == Fine <==> ApplicableUpTo(sb, wants, previous, |wants|, before))
    ensures WellOrHindered(old(f.log), f.log, verdict == Fine)
    ensures WrittenUpTo(wants, ClosesOf(sb, plans, pushes, currents), |wants|, old(f.log), f.log)
    ensures NoLooks(old(f.log), f.log)
  {
    hide ApplyLeaves, OnlyThis, ApplyDone, Diff, WellFormed, IsOurs, Needed, HalfDoneUpTo;
    hide SecondUpTo, AchievedUpTo, Achieved, ApplicableUpTo, Applicable, AllSound, Sound, Changed;
    hide WrittenUpTo, Attempted, Hindered, Closes, NoLooks;
    NothingLooked(f.log);
    ghost var half, start := f.world, f.log;
    verdict := Fine;
    NoneSettledYet(f, sb, wants, previous, plans, pushes, before, half);
    NothingWritten(wants, ClosesOf(sb, plans, pushes, currents), start);
    for i := 0 to |wants|
      invariant ApplyLeaves(f, sb, wants, |wants|, before, f.world)
      invariant SecondUpTo(f, sb, wants, previous, plans, i, verdict == Fine, before, half, f.world)
      invariant verdict == Fine || verdict == Failures
      invariant WellOrHindered(start, f.log, verdict == Fine)
      invariant WrittenUpTo(wants, ClosesOf(sb, plans, pushes, currents), i, start, f.log)
      invariant NoLooks(start, f.log)
    {
      ghost var mid, log := f.world, f.log;
      var c := plans[i].change;
      StillHalfDone(f, sb, wants, previous, plans, pushes, i, verdict == Fine, before, half, mid);
      var ok := SettleIfNeeded(f, sb, wants[i], c, pushes[i], currents[i], PrevOf(previous, wants[i].name), before);
      WellOneMore(start, log, f.log, verdict == Fine, ok);
      NoLooksOn(start, log, f.log);
      WrittenOneMore(wants, ClosesOf(sb, plans, pushes, currents), i, start, log, f.log);
      StillLeaves(f, sb, wants, i, before, mid, f.world);
      SecondOneMore(f, sb, wants, previous, plans, i, verdict == Fine, before, half, mid, f.world, ok);
      if !ok {
        verdict := Failures;
      }
    }
    AllSettled(f, sb, wants, previous, plans, verdict == Fine, before, half, f.world);
  }

  lemma NothingLooked(a: seq<Event>)
    ensures NoLooks(a, a)
  {
  }

  /** One change in the second phase. */
  method SettleIfNeeded(f: Forge, sb: Sandbox, want: LockRepo, c: Change, pushed: bool, current: Option<Repo>,
        ghost prev: Option<LockRepo>, ghost before: World)
    returns (ok: bool)
    requires f.caps == sb.caps && WellFormed(want) && LegalPrevious(prev)
    requires PlannedAt(f, sb, want, prev, before, Plan(c))
    requires HalfDone(f, sb, c, pushed, Lookup(before, want.name), Lookup(f.world, want.name))
    requires ReadBackAs(f, c, Lookup(f.world, want.name), current)
    modifies f
    ensures OnlyThis(f, sb, want.name, old(f.world), f.world)
    ensures SettledAs(f, sb, want, prev, c, Lookup(before, want.name), Lookup(f.world, want.name), ok)
    ensures WellOrHindered(old(f.log), f.log, ok)
    ensures NoLooks(old(f.log), f.log)
    ensures Needed(c) && Closes(sb, c, pushed, current) ==> Attempted(old(f.log), f.log, want.name)
  {
    hide OnlyThis, ApplyDone, Diff, WellFormed, LegalPrevious, IsOurs, Needed, Halfway, SecondDone, WellOrHindered;
    hide Attempted, Closes, Sound, Applicable;
    ghost var mid := f.world;
    PlanIsOf(f, sb, want, prev, before, c);
    ItselfIsOnlyThis(f, sb, want.name, mid);
    if !Needed(c) {
      NothingNeededIsDone(sb, want, prev, c.live.value);
      NothingHinders(f.log);
      UnneededIsApplicable(sb, want, prev, c);
      return true;
    }
    HalfwayIsOurs(f, sb, c, pushed, Lookup(before, want.name), f.world.repos[want.name]);
    ok := ApplySecond(f, sb, want, c, pushed, current, prev, Lookup(before, want.name));
    ApplyIsDone(f, sb, want, prev, c, Lookup(before, want.name), f.world.repos[want.name], ok);
    WritingToOursIsOnlyThis(f, sb, want.name, mid, mid, f.world);
  }

  lemma HalfwayIsOurs(f: Forge, sb: Sandbox, c: Change, pushed: bool, was: Option<Repo>, now: Repo)
    requires Halfway(f, sb, c, pushed, was, now)
    ensures IsOurs(sb, now)
  {
    hide HalfwayFrom, IsOurs;
  }

  lemma UnneededIsApplicable(sb: Sandbox, want: LockRepo, prev: Option<LockRepo>, c: Change)
    requires Diff(sb, want, prev, c.live) == Plan(c) && !Needed(c) && c.live.Some?
    ensures Applicable(sb, want, prev, c.live.value)
  {
    hide Diff, Needed, Takes;
  }

  /** Where a change stands once the second phase is done with it. */
  ghost predicate SettledAs(f: Forge, sb: Sandbox, want: LockRepo, prev: Option<LockRepo>, c: Change, was: Option<Repo>,
        now: Option<Repo>, ok: bool)
  {
    && now.Some? && IsOurs(sb, now.value) && (ok ==> Changed(f, sb, c, was, now))
    && (f.reliable && f.truthful ==> ApplyDone(sb, want, prev, was, now.value))
    && (f.reliable && f.truthful && (was.Some? ==> Sound(sb, want, was.value)) ==>
          (ok <==> was.None? || Applicable(sb, want, prev, was.value)))
  }

  lemma NoneSettledYet(f: Forge, sb: Sandbox, wants: seq<LockRepo>, previous: map<string, LockRepo>,
        plans: seq<Planned>, pushes: seq<bool>, a: World, half: World)
    requires HalfDoneUpTo(f, sb, wants, plans, pushes, |wants|, a, half)
    ensures SecondUpTo(f, sb, wants, previous, plans, 0, true, a, half, half)
  {
    hide IsOurs, HalfwayFrom, Needed;
    forall i | 0 <= i < |wants| ensures Lookup(half, wants[i].name).Some? && IsOurs(sb, half.repos[wants[i].name]) {
      assert HalfDone(f, sb, plans[i].change, pushes[i], Lookup(a, wants[i].name), Lookup(half, wants[i].name));
    }
  }

  lemma StillHalfDone(f: Forge, sb: Sandbox, wants: seq<LockRepo>, previous: map<string, LockRepo>, plans: seq<Planned>,
        pushes: seq<bool>, i: nat, well: bool, a: World, half: World, b: World)
    requires SecondUpTo(f, sb, wants, previous, plans, i, well, a, half, b) && i < |wants| == |pushes|
    requires HalfDoneUpTo(f, sb, wants, plans, pushes, |wants|, a, half)
    ensures HalfDone(f, sb, plans[i].change, pushes[i], Lookup(a, wants[i].name), Lookup(b, wants[i].name))
    ensures Lookup(b, wants[i].name) == Lookup(half, wants[i].name)
    ensures wants[i].name in b.repos && IsOurs(sb, b.repos[wants[i].name])
  {
    hide HalfDone, ApplyDoneUpTo, IsOurs, AchievedUpTo, AllSound, ApplicableUpTo;
  }

  lemma AllSettled(f: Forge, sb: Sandbox, wants: seq<LockRepo>, previous: map<string, LockRepo>, plans: seq<Planned>,
        well: bool, a: World, half: World, b: World)
    requires SecondUpTo(f, sb, wants, previous, plans, |wants|, well, a, half, b)
    ensures well ==> AchievedUpTo(sb, wants, previous, plans, |wants|, a, b)
    ensures f.reliable && f.truthful ==> ApplyDoneUpTo(sb, wants, previous, |wants|, a, b)
    ensures f.reliable && f.truthful && AllSound(sb, wants, a) ==>
      (well <==> ApplicableUpTo(sb, wants, previous, |wants|, a))
  {
    hide AchievedUpTo, ApplyDoneUpTo, AllSound, ApplicableUpTo;
  }

  /**
   * Where lookups are batched, every change has its content before any is settled; one that fails
   * keeps them all from being settled, and the next apply takes them up.
   */
  method ApplyTogether(f: Forge, sb: Sandbox, wants: seq<LockRepo>, previous: map<string, LockRepo>,
        plans: seq<Planned>, took: nat -> nat)
    returns (verdict: Verdict)
    requires Legal(wants) && LegalLocks(previous) && f.caps == sb.caps && |plans| == |wants|
    requires forall i :: 0 <= i < |wants| ==>
      plans[i].Plan? && PlannedAt(f, sb, wants[i], PrevOf(previous, wants[i].name), f.world, plans[i])
    modifies f
    ensures ApplyLeaves(f, sb, wants, |wants|, old(f.world), f.world)
    ensures verdict == LateGuards ==> !f.truthful && AnyElses(sb, wants, old(f.world))
    ensures verdict == Fine || verdict == LateGuards || verdict == Failures
    ensures verdict == Fine ==> AchievedUpTo(sb, wants, previous, plans, |wants|, old(f.world), f.world)
    ensures f.reliable && f.truthful && AllSound(sb, wants, old(f.world)) ==>
      && ApplyDoneUpTo(sb, wants, previous, |wants|, old(f.world), f.world)
      && (verdict == Fine <==> ApplicableUpTo(sb, wants, previous, |wants|, old(f.world)))
    ensures WellOrHindered(old(f.log), f.log, verdict != Failures)
    ensures WrittenUpTo(wants, if verdict == Fine then NeededOf(plans) else OpensOf(plans), |wants|, old(f.log), f.log)
    ensures verdict == Fine ==> AllReadBack(wants, plans, |wants|, old(f.log), f.log)
  {
    hide ApplyLeaves, ApplyDoneUpTo, Diff, WellFormed, AnyElses, HalfDoneUpTo, AllSound, AchievedUpTo, ApplicableUpTo;
    hide WrittenUpTo, Hindered, Needed, Opens, Closes, LegalLocks, AllReadBack, NoLooks;
    ghost var before, start := f.world, f.log;
    var pushes;
    verdict, pushes := FirstPhase(f, sb, wants, previous, plans, took);
    if verdict != Fine {
      return;
    }
    ghost var first := f.log;
    var answered, currents := ReadCreated(f, sb, wants, plans);
    ghost var log := f.log;
    WellOneMore(start, first, log, true, answered);
    WrittenStill(wants, OpensOf(plans), start, first, log);
    if !answered {
      return Failures;
    }
    PushesOpen(f, sb, wants, plans, pushes, before, f.world);
    verdict := SecondPhase(f, sb, wants, previous, plans, pushes, currents, before);
    WellOneMore(start, log, f.log, true, verdict == Fine);
    WrittenStill(wants, OpensOf(plans), start, log, f.log);
    ReadBackStill(wants, plans, start, first, log, f.log);
    NeededAreWritten(f, sb, wants, previous, plans, pushes, currents, before, start, log, f.log);
  }

  lemma PushesOpen(f: Forge, sb: Sandbox, wants: seq<LockRepo>, plans: seq<Planned>, pushes: seq<bool>, a: World,
        half: World)
    requires HalfDoneUpTo(f, sb, wants, plans, pushes, |wants|, a, half) && |pushes| == |wants|
    ensures forall i :: 0 <= i < |wants| && Needed(plans[i].change) && pushes[i] ==> Opens(plans[i].change)
  {
    hide Needed, IsOurs, Follows;
    forall i | 0 <= i < |wants| && Needed(plans[i].change) && pushes[i] ensures Opens(plans[i].change) {
      assert HalfDone(f, sb, plans[i].change, pushes[i], Lookup(a, wants[i].name), Lookup(half, wants[i].name));
    }
  }

  /** What one phase does not write to, the other does. */
  lemma NeededAreWritten(f: Forge, sb: Sandbox, wants: seq<LockRepo>, previous: map<string, LockRepo>,
        plans: seq<Planned>, pushes: seq<bool>, currents: seq<Option<Repo>>, w: World, a: seq<Event>, b: seq<Event>,
        c: seq<Event>)
    requires |plans| == |wants| == |pushes| == |currents| && a <= b <= c
    requires forall i :: 0 <= i < |wants| ==>
      plans[i].Plan? && PlannedAt(f, sb, wants[i], PrevOf(previous, wants[i].name), w, plans[i])
    requires forall i :: 0 <= i < |wants| && plans[i].change.live.Some? ==> currents[i] == plans[i].change.live
    requires forall i :: 0 <= i < |wants| && Needed(plans[i].change) && pushes[i] ==> Opens(plans[i].change)
    requires WrittenUpTo(wants, OpensOf(plans), |wants|, a, c)
    requires WrittenUpTo(wants, ClosesOf(sb, plans, pushes, currents), |wants|, b, c)
    ensures WrittenUpTo(wants, NeededOf(plans), |wants|, a, c)
  {
    hide Diff, Needed, Opens, Attempted, SecondHalf;
    forall i | 0 <= i < |wants| && NeededOf(plans)[i] ensures Attempted(a, c, wants[i].name) {
      if !OpensOf(plans)[i] {
        PlanIsOf(f, sb, wants[i], PrevOf(previous, wants[i].name), w, plans[i].change);
        NeededWrites(sb, wants[i], PrevOf(previous, wants[i].name), plans[i].change);
        NotOpenIsThere(plans[i].change);
        assert ClosesOf(sb, plans, pushes, currents)[i];
        AttemptedLater(a, b, c, wants[i].name);
      }
    }
  }

  lemma NotOpenIsThere(c: Change)
    ensures !Opens(c) ==> c.live.Some?
  {
  }

  lemma PlanStillFits(f: Forge, sb: Sandbox, want: LockRepo, prev: Option<LockRepo>, a: World, b: World, p: Planned)
    requires PlannedAt(f, sb, want, prev, a, p) && Lookup(b, want.name) == Lookup(a, want.name)
    ensures PlannedAt(f, sb, want, prev, b, p)
  {
    hide Diff;
  }

  lemma NothingApplied(f: Forge, sb: Sandbox, wants: seq<LockRepo>, previous: map<string, LockRepo>,
        plans: seq<Planned>, w: World)
    requires |plans| == |wants|
    ensures ApplyLeaves(f, sb, wants, 0, w, w) && ApplyDoneUpTo(sb, wants, previous, 0, w, w)
    ensures AchievedUpTo(sb, wants, previous, plans, 0, w, w) && ApplicableUpTo(sb, wants, previous, 0, w)
  {
  }

  /** Waiting writes to nobody else's: by then every declared repository is forgelab's. */
  lemma WaitedLeaves(f: Forge, sb: Sandbox, wants: seq<LockRepo>, touched: seq<bool>, a: World, b: World, c: World)
    requires ApplyLeaves(f, sb, wants, |wants|, a, b) && OursUpTo(sb, wants, |wants|, b) && Waited(wants, touched, b, c)
    ensures ApplyLeaves(f, sb, wants, |wants|, a, c)
  {
    assert wants[..|wants|] == wants;
    forall x | x in a.repos && !Declares(wants, x) ensures c.repos[x] == a.repos[x] {
      NotTouched(wants, touched, x);
    }
    NobodyElsesIsDeclared(f, sb, wants, a, b);
    hide IsOurs, Foreign, Declares, Touches;
  }

  lemma NobodyElsesIsDeclared(f: Forge, sb: Sandbox, wants: seq<LockRepo>, a: World, b: World)
    requires ApplyLeaves(f, sb, wants, |wants|, a, b) && OursUpTo(sb, wants, |wants|, b)
    ensures forall x :: Foreign(sb, wants, a, x) ==> !Declares(wants, x)
  {
    hide IsOurs;
    forall i | 0 <= i < |wants| ensures !Foreign(sb, wants, a, wants[i].name) {
      assert IsOurs(sb, b.repos[wants[i].name]);
    }
  }

  lemma NotTouched(wants: seq<LockRepo>, touched: seq<bool>, x: string)
    ensures Touches(wants, touched, x) ==> Declares(wants, x)
  {
  }

  lemma WaitedIsDone(sb: Sandbox, wants: seq<LockRepo>, previous: map<string, LockRepo>, touched: seq<bool>, a: World,
        b: World, c: World)
    requires ApplyDoneUpTo(sb, wants, previous, |wants|, a, b) && Waited(wants, touched, b, c)
    ensures ApplyDoneUpTo(sb, wants, previous, |wants|, a, c)
  {
    hide ApplyDone, Touches;
    forall i | 0 <= i < |wants|
      ensures wants[i].name in c.repos
      ensures ApplyDone(sb, wants[i], PrevOf(previous, wants[i].name), Lookup(a, wants[i].name), c.repos[wants[i].name])
    {
      DoneWhenWaited(sb, wants[i], PrevOf(previous, wants[i].name), Lookup(a, wants[i].name), b.repos[wants[i].name]);
    }
  }

  /**
   * Apply: a guard seen while planning means no write at all; otherwise only declared repositories
   * that carry the marker, or that it makes, are written, and one that fails does not stop the rest,
   * except that where lookups are batched it keeps them all from being settled. A guard met only while
   * creating takes a lookup that missed somebody else's repository. The lock is written once every
   * change is made: on any forge, what is new, sound or was seen by the plan is then at its goal, and on
   * one that answers truly the lock is written exactly when the forge takes all that is planned. Apply
   * is then fine exactly if the comparison that follows finds nothing, as it does where all is new.
   */
  method ApplyAll(f: Forge, sb: Sandbox, wants: seq<LockRepo>, previous: map<string, LockRepo>, took: nat -> nat)
    returns (verdict: Verdict, locked: bool)
    requires Legal(wants) && LegalLocks(previous) && f.caps == sb.caps
    modifies f
    ensures ApplyLeaves(f, sb, wants, |wants|, old(f.world), f.world)
    ensures verdict == Guards || verdict == Unanswered ==> f.world == old(f.world) && OnlyRead(old(f.log), f.log)
    ensures f.truthful ==> verdict != Unanswered
    ensures verdict == Guards ==> AnyGuarded(sb, wants, previous, old(f.world))
    ensures f.truthful ==> (verdict == Guards <==> AnyGuarded(sb, wants, previous, old(f.world)))
    ensures verdict == LateGuards ==> !f.truthful && AnyElses(sb, wants, old(f.world))
    ensures verdict == Fine || verdict == Unclean ==> locked
    ensures locked ==> AllAchieved(sb, wants, previous, f.log, |old(f.log)|, old(f.world), f.world)
    ensures locked && verdict != Failures ==> ListedUpTo(sb, wants, Everything(wants), |wants|, f.world)
    ensures verdict == Fine ==> AllClean(sb, wants, f.world)
    ensures f.truthful && verdict == Unclean ==> !AllClean(sb, wants, f.world)
    ensures f.reliable && f.truthful && verdict != Guards && AllSound(sb, wants, old(f.world)) ==>
      (locked <==> ApplicableUpTo(sb, wants, previous, |wants|, old(f.world)))
    ensures f.reliable && locked ==> (verdict == Failures <==> !AllReport(sb, wants, Everything(wants), f.world))
    ensures f.reliable && f.truthful && locked ==> (verdict == Fine <==> AllClean(sb, wants, f.world))
    ensures f.reliable && f.truthful && AllNew(wants, old(f.world)) ==> verdict == Fine
    ensures f.truthful && f.reliable && verdict != Guards && (f.batched ==> AllSound(sb, wants, old(f.world))) ==>
      ApplyDoneUpTo(sb, wants, previous, |wants|, old(f.world), f.world)
    ensures verdict == Unanswered ==> !AllAnswered(old(f.log), f.log)
    ensures PlannedFor(sb, wants, previous, f.log, |old(f.log)|, old(f.world), verdict)
    ensures verdict == Failures || (verdict == Unclean && AllClean(sb, wants, f.world)) ==>
      Hindered(old(f.log), f.log)
    ensures verdict != Guards && verdict != Unanswered ==>
      AllWritten(sb, wants, previous, locked || !f.batched, old(f.world), old(f.log), f.log)
  {
    hide ApplyLeaves, ApplyDoneUpTo, Diff, Lookup, WellFormed, OnlyRead, OursUpTo, AllClean, AllSound, Waited;
    hide AchievedUpTo, ApplicableUpTo, AllAchieved, AllWritten, WrittenUpTo, ListedUpTo, AppliedUpTo, AskedUpTo;
    hide AllReport, AllAnswered, Hindered, LegalLocks, Opens, Needed, AnyElses, AllNew, AnyGuarded, PlannedAt;
    hide PlannedBy, PlannedFor;
    ghost var before, start := f.world, f.log;
    var answered, plans := PlanAll(f, sb, wants, previous);
    ghost var planned := f.log;
    PlannedLog(f, sb, wants, previous, plans, start, planned, before);
    GuardedReally(f, sb, wants, previous, plans, before);
    NothingYet(f, sb, wants, f.world);
    AllNewAreTaken(sb, wants, previous, before);
    if exists i :: 0 <= i < |plans| && plans[i].Guarded? {
      return Guards, false;
    }
    if !answered {
      return Unanswered, false;
    }
    if f.batched {
      verdict := ApplyTogether(f, sb, wants, previous, plans, took);
    } else {
      verdict := ApplyEach(f, sb, wants, previous, plans, took);
    }
    locked := verdict == Fine;
    ghost var done, written := f.world, f.log;
    PlannedStill(sb, wants, previous, start, planned, written, before, verdict);
    AllAreWritten(f, sb, wants, previous, plans, locked || !f.batched, before, start, planned, written, written);
    if !locked {
      if verdict == Failures {
        NotWell(planned, written);
        HinderedLater(start, planned, written);
      }
      return;
    }
    AchievedAreThere(sb, wants, previous, plans, before, done);
    verdict := Close(f, sb, wants, Everything(wants), took);
    PlannedStill(sb, wants, previous, start, planned, f.log, before, verdict);
    WaitedLeaves(f, sb, wants, Everything(wants), before, done, f.world);
    WaitedReports(sb, wants, Everything(wants), done, f.world);
    AllAreAchieved(sb, wants, previous, plans, start, planned, f.log, before, done, f.world);
    AllAreWritten(f, sb, wants, previous, plans, true, before, start, planned, written, f.log);
    CleanReports(sb, wants, f.world);
    if f.reliable && AllNew(wants, before) {
      NewIsClean(sb, wants, previous, f.log, |start|, before, done, f.world);
    }
    if f.truthful && f.reliable && (f.batched ==> AllSound(sb, wants, before)) {
      WaitedIsDone(sb, wants, previous, Everything(wants), before, done, f.world);
    }
    if verdict == Failures || (verdict == Unclean && AllClean(sb, wants, f.world)) {
      NotWell(written, f.log);
      HinderedLater(start, written, f.log);
    }
  }

  function Everything(wants: seq<LockRepo>): (touched: seq<bool>)
    ensures |touched| == |wants| && forall i :: 0 <= i < |wants| ==> touched[i]
  {
    seq(|wants|, _ => true)
  }

  /** All that was new, sound or seen is what it was to become; the looks of the plan begin at `at`. */
  ghost predicate AllAchieved(sb: Sandbox, wants: seq<LockRepo>, previous: map<string, LockRepo>, log: seq<Event>,
        at: nat, a: World, b: World)
  {
    forall i :: 0 <= i < |wants| ==> AchievedAt(sb, wants[i], PrevOf(previous, wants[i].name), log, at, i, a, b)
  }

  ghost predicate AchievedAt(sb: Sandbox, want: LockRepo, prev: Option<LockRepo>, log: seq<Event>, at: nat, i: nat,
        a: World, b: World)
  {
    && at + i < |log| && Looks(log[at + i], want.name)
    && Achieved(sb, want, prev, log[at + i].found, Lookup(a, want.name), Lookup(b, want.name))
  }

  /** What the plan found to need something was written to: all of it, or at least what its first half writes. */
  ghost predicate AllWritten(sb: Sandbox, wants: seq<LockRepo>, previous: map<string, LockRepo>, all: bool, w: World,
        a: seq<Event>, b: seq<Event>)
  {
    forall i :: 0 <= i < |wants| ==> WrittenAt(sb, wants[i], PrevOf(previous, wants[i].name), all, i, w, a, b)
  }

  ghost predicate WrittenAt(sb: Sandbox, want: LockRepo, prev: Option<LockRepo>, all: bool, i: nat, w: World,
        a: seq<Event>, b: seq<Event>)
  {
    && |a| + i < |b| && Looks(b[|a| + i], want.name)
    && var p := Diff(sb, want, prev, if b[|a| + i].found then Lookup(w, want.name) else None);
       p.Plan? && Needed(p.change) && (all || Opens(p.change)) ==> Attempted(a, b, want.name)
  }

  /** Beyond the plan only where each look of it was answered, and found nothing that is guarded. */
  ghost predicate PlannedFor(sb: Sandbox, wants: seq<LockRepo>, previous: map<string, LockRepo>, log: seq<Event>,
        at: nat, w: World, verdict: Verdict)
  {
    forall i :: 0 <= i < |wants| ==> PlannedLook(sb, wants[i], previous, log, at, i, w, verdict)
  }

  ghost predicate PlannedLook(sb: Sandbox, want: LockRepo, previous: map<string, LockRepo>, log: seq<Event>, at: nat,
        i: nat, w: World, verdict: Verdict)
  {
    && at + i < |log| && Looks(log[at + i], want.name)
    && (verdict != Guards ==> !(log[at + i].found && GuardedAt(sb, want, previous, w)))
    && (verdict != Guards && verdict != Unanswered ==> log[at + i].answered)
  }

  lemma PlannedLog(f: Forge, sb: Sandbox, wants: seq<LockRepo>, previous: map<string, LockRepo>, plans: seq<Planned>,
        a: seq<Event>, b: seq<Event>, w: World)
    requires |plans| == |wants| && a <= b && forall i :: 0 <= i < |wants| ==> PlannedBy(b, |a|, i, wants[i], plans[i])
    requires forall i :: 0 <= i < |wants| ==>
      PlannedAt(f, sb, wants[i], PrevOf(previous, wants[i].name), w, plans[i])
    ensures PlannedFor(sb, wants, previous, b, |a|, w, Guards)
    ensures (forall i :: 0 <= i < |plans| ==> !plans[i].Guarded?) ==>
      && PlannedFor(sb, wants, previous, b, |a|, w, Unanswered)
      && (AllAnswered(a, b) ==> PlannedFor(sb, wants, previous, b, |a|, w, Fine))
  {
    hide Diff;
    forall i | 0 <= i < |wants|
      ensures PlannedLook(sb, wants[i], previous, b, |a|, i, w, Guards)
      ensures !plans[i].Guarded? ==> PlannedLook(sb, wants[i], previous, b, |a|, i, w, Unanswered)
      ensures !plans[i].Guarded? && AllAnswered(a, b) ==> PlannedLook(sb, wants[i], previous, b, |a|, i, w, Fine)
    {
      assert PlannedBy(b, |a|, i, wants[i], plans[i]);
      assert PlannedAt(f, sb, wants[i], PrevOf(previous, wants[i].name), w, plans[i]);
    }
  }

  lemma PlannedStill(sb: Sandbox, wants: seq<LockRepo>, previous: map<string, LockRepo>, a: seq<Event>, b: seq<Event>,
        c: seq<Event>, w: World, verdict: Verdict)
    requires PlannedFor(sb, wants, previous, b, |a|, w, Fine) && b <= c
    ensures PlannedFor(sb, wants, previous, c, |a|, w, verdict)
  {
    hide GuardedAt;
    forall i | 0 <= i < |wants| ensures PlannedLook(sb, wants[i], previous, c, |a|, i, w, verdict) {
      assert PlannedLook(sb, wants[i], previous, b, |a|, i, w, Fine) && c[|a| + i] == b[|a| + i];
    }
  }

  lemma GuardedReally(f: Forge, sb: Sandbox, wants: seq<LockRepo>, previous: map<string, LockRepo>, plans: seq<Planned>,
        w: World)
    requires |plans| == |wants|
    requires forall i :: 0 <= i < |wants| ==>
      PlannedAt(f, sb, wants[i], PrevOf(previous, wants[i].name), w, plans[i])
    ensures (exists i :: 0 <= i < |plans| && plans[i].Guarded?) ==> AnyGuarded(sb, wants, previous, w)
    ensures f.truthful && AnyGuarded(sb, wants, previous, w) ==> exists i :: 0 <= i < |plans| && plans[i].Guarded?
  {
    hide Diff;
    if i :| 0 <= i < |plans| && plans[i].Guarded? {
      assert GuardedAt(sb, wants[i], previous, w);
    }
    if f.truthful && AnyGuarded(sb, wants, previous, w) {
      var i :| 0 <= i < |wants| && GuardedAt(sb, wants[i], previous, w);
      assert PlannedAt(f, sb, wants[i], PrevOf(previous, wants[i].name), w, plans[i]);
    }
  }

  lemma AllAreWritten(f: Forge, sb: Sandbox, wants: seq<LockRepo>, previous: map<string, LockRepo>, plans: seq<Planned>,
        all: bool, w: World, a: seq<Event>, b: seq<Event>, c: seq<Event>, d: seq<Event>)
    requires |plans| == |wants| && a <= b <= c <= d
    requires forall i :: 0 <= i < |wants| ==> PlannedBy(b, |a|, i, wants[i], plans[i])
    requires forall i :: 0 <= i < |wants| ==>
      plans[i].Plan? && PlannedAt(f, sb, wants[i], PrevOf(previous, wants[i].name), w, plans[i])
    requires WrittenUpTo(wants, if all then NeededOf(plans) else OpensOf(plans), |wants|, b, c)
    ensures AllWritten(sb, wants, previous, all, w, a, d)
  {
    hide Diff, Needed, Opens, Attempted;
    forall i | 0 <= i < |wants| ensures WrittenAt(sb, wants[i], PrevOf(previous, wants[i].name), all, i, w, a, d) {
      assert PlannedBy(b, |a|, i, wants[i], plans[i]) && d[|a| + i] == b[|a| + i];
      PlanIsOf(f, sb, wants[i], PrevOf(previous, wants[i].name), w, plans[i].change);
      if Needed(plans[i].change) && (all || Opens(plans[i].change)) {
        AttemptedEarlier(b, c, d, wants[i].name);
        AttemptedLater(a, b, d, wants[i].name);
      }
    }
  }

  lemma AchievedAreThere(sb: Sandbox, wants: seq<LockRepo>, previous: map<string, LockRepo>, plans: seq<Planned>,
        a: World, b: World)
    requires AchievedUpTo(sb, wants, previous, plans, |wants|, a, b)
    ensures OursUpTo(sb, wants, |wants|, b) && forall i :: 0 <= i < |wants| ==> wants[i].name in b.repos
  {
    hide IsOurs, ApplyDone, AtGoal;
    forall i | 0 <= i < |wants| ensures wants[i].name in b.repos && IsOurs(sb, b.repos[wants[i].name]) {
      assert plans[i].Plan?;
    }
  }

  /** Waiting takes nothing away, and what would be reported once everything is applied does not change. */
  lemma AllAreAchieved(sb: Sandbox, wants: seq<LockRepo>, previous: map<string, LockRepo>, plans: seq<Planned>,
        start: seq<Event>, planned: seq<Event>, log: seq<Event>, a: World, b: World, c: World)
    requires AchievedUpTo(sb, wants, previous, plans, |wants|, a, b) && Waited(wants, Everything(wants), b, c)
    requires forall i :: 0 <= i < |wants| ==> PlannedBy(planned, |start|, i, wants[i], plans[i])
    requires planned <= log
    ensures AllAchieved(sb, wants, previous, log, |start|, a, c)
  {
    hide ApplyDone, AtGoal, IsOurs, Sound, Blind, Touches;
    forall i | 0 <= i < |wants|
      ensures AchievedAt(sb, wants[i], PrevOf(previous, wants[i].name), log, |start|, i, a, c)
    {
      assert PlannedBy(planned, |start|, i, wants[i], plans[i]) && plans[i].Plan?;
      assert log[|start| + i] == planned[|start| + i];
      WaitedIsAchieved(sb, wants[i], PrevOf(previous, wants[i].name), log[|start| + i].found,
                       Lookup(a, wants[i].name), Lookup(b, wants[i].name), Lookup(c, wants[i].name));
    }
  }

  lemma WaitedIsAchieved(sb: Sandbox, want: LockRepo, prev: Option<LockRepo>, seen: bool, was: Option<Repo>,
        b: Option<Repo>, c: Option<Repo>)
    requires Achieved(sb, want, prev, seen, was, b) && c.Some? && (c == b || c.value == Applied(b.value))
    ensures Achieved(sb, want, prev, seen, was, c)
  {
    assert Applied(Applied(b.value)) == Applied(b.value) && IsOurs(sb, Applied(b.value)) == IsOurs(sb, b.value);
    hide ApplyDone, AtGoal, Applied, IsOurs, Sound, Blind;
    if was.None? || seen {
      DoneWhenWaited(sb, want, prev, was, b.value);
    }
  }

  lemma WaitedReports(sb: Sandbox, wants: seq<LockRepo>, touched: seq<bool>, a: World, b: World)
    requires |touched| == |wants| && Waited(wants, touched, a, b)
    ensures AllReport(sb, wants, touched, a) <==> AllReport(sb, wants, touched, b)
  {
    assert forall r: Repo :: Applied(Applied(r)) == Applied(r);
    hide Touches, Lists, IsWaitedFor, Applied;
  }

  /** None of them is there yet. */
  predicate AllNew(wants: seq<LockRepo>, w: World) {
    forall i :: 0 <= i < |wants| ==> wants[i].name !in w.repos
  }

  lemma AllNewAreTaken(sb: Sandbox, wants: seq<LockRepo>, previous: map<string, LockRepo>, w: World)
    ensures AllNew(wants, w) ==>
      && AllSound(sb, wants, w) && ApplicableUpTo(sb, wants, previous, |wants|, w)
      && !AnyGuarded(sb, wants, previous, w)
  {
    hide Sound, Applicable;
    forall i | 0 <= i < |wants| && Lookup(w, wants[i].name).None? ensures !GuardedAt(sb, wants[i], previous, w) {
    }
  }

  lemma CleanReports(sb: Sandbox, wants: seq<LockRepo>, w: World)
    requires Legal(wants)
    ensures AllClean(sb, wants, w) ==> AllReport(sb, wants, Everything(wants), w)
  {
    hide Clean, WellFormed, Lists, Applied;
    if AllClean(sb, wants, w) {
      forall i | 0 <= i < |wants| && IsWaitedFor(sb, wants[i])
        ensures Lists(Applied(w.repos[wants[i].name]), wants[i].defaultBranch, wants[i].baseline)
      {
        CleanIsListed(sb, wants[i], w.repos[wants[i].name]);
      }
    }
  }

  lemma CleanIsListed(sb: Sandbox, want: LockRepo, r: Repo)
    requires WellFormed(want) && Clean(sb, want, r) && IsWaitedFor(sb, want)
    ensures Lists(Applied(r), want.defaultBranch, want.baseline)
  {
    assert !Differs(sb, want, r, ArchivedDiffers);
    CleanIsAtBaseline(sb, want, r);
  }

  /** The goal of a repository just made is the baseline: nothing else has had the time to get there. */
  lemma NewGoalIsBaseline(sb: Sandbox, want: LockRepo, prev: Option<LockRepo>, made: Repo)
    requires WellFormed(want) && LegalPrevious(prev) && JustMade(sb, made)
    ensures AtBaseline(sb, want, Goal(sb, want, prev, made))
  {
    SortKeepsSorted(want.topics);
    if !want.empty {
      NewGoalRefs(want, prev, made);
    }
    hide GoalBranches, GoalTags, GoalRules, BaselineTags, Sort, Sorted, LegalPrevious;
  }

  lemma NewGoalRefs(want: LockRepo, prev: Option<LockRepo>, made: Repo)
    requires LegalPrevious(prev) && !want.empty && made.empty && made.branches == map[] && made.tags == map[]
    ensures GoalBranches(want, prev, made) == map[want.defaultBranch := want.baseline]
    ensures GoalTags(want, prev, made) == BaselineTags(want)
  {
    SeedIsNotOld(want, prev);
    hide OldTag, OldBranch, Seeded;
  }

  lemma NewIsCleanAt(sb: Sandbox, want: LockRepo, prev: Option<LockRepo>, r: Repo)
    requires WellFormed(want) && LegalPrevious(prev) && MadeToGoal(sb, want, prev, r)
    requires AtGoal(sb, want, prev, Applied(r)) && (IsWaitedFor(sb, want) ==> Applied(r) == r)
    ensures Clean(sb, want, r)
  {
    hide Goal, Canonical, JustMade, NothingOld, Seeded, WellFormed, LegalPrevious, AtBaseline;
    if Blind(sb, r) {
      assert forall d :: !Differs(sb, want, r, d);
    } else {
      var made :| JustMade(sb, made) && Canonical(Applied(r)) == Canonical(Goal(sb, want, prev, made));
      NewGoalIsBaseline(sb, want, prev, made);
      assert Applied(r) == r;
      SameButTimeSameBaseline(sb, want, r, Goal(sb, want, prev, made));
      CleanIsAtBaseline(sb, want, r);
    }
  }

  lemma NewIsClean(sb: Sandbox, wants: seq<LockRepo>, previous: map<string, LockRepo>, log: seq<Event>, at: nat,
        a: World, b: World, c: World)
    requires Legal(wants) && LegalLocks(previous) && AllNew(wants, a)
    requires AllAchieved(sb, wants, previous, log, at, a, c)
    requires AppliedUpTo(sb, wants, Everything(wants), |wants|, b, c)
    requires forall i :: 0 <= i < |wants| ==> wants[i].name in b.repos
    ensures AllClean(sb, wants, c)
  {
    hide WellFormed, Clean, MadeToGoal, AtGoal, Applied, IsWaitedFor, IsOurs;
    forall i | 0 <= i < |wants| ensures wants[i].name in c.repos && Clean(sb, wants[i], c.repos[wants[i].name]) {
      var want, prev := wants[i], PrevOf(previous, wants[i].name);
      assert AchievedAt(sb, want, prev, log, at, i, a, c);
      if IsWaitedFor(sb, want) {
        AppliedTwice(b.repos[want.name]);
      }
      NewIsCleanAt(sb, want, prev, c.repos[want.name]);
    }
  }

  lemma AppliedTwice(r: Repo)
    ensures Applied(Applied(r)) == Applied(r)
  {
  }

  lemma NothingYet(f: Forge, sb: Sandbox, wants: seq<LockRepo>, w: World)
    ensures ApplyLeaves(f, sb, wants, |wants|, w, w)
  {
  }

  // ------------------------------------------------------------ what apply reaches, reset accepts

  /**
   * A repository at the goal of an apply is one no reset guards against, whatever it was applied from;
   * where it can be read, the next reset passes and leaves it clean.
   */
  lemma ApplyThenReset(sb: Sandbox, want: LockRepo, prev: Option<LockRepo>, r: Repo, s: State)
    requires WellFormed(want) && AtGoal(sb, want, prev, r) && Reports(sb, want, Some(r), s)
    ensures GuardFree(sb, want, r) && s.guards == []
    ensures !Blind(sb, r) ==>
      Run(sb.caps, ResetSteps(s), r) == Outcome(true, Target(sb, want, r)) && Clean(sb, want, Target(sb, want, r))
  {
    GoalIsGuardFree(sb, want, prev, r);
    hide AtGoal, ResetSteps, Target;
    if !Blind(sb, r) {
      ResetConverges(sb, want, r, s);
    }
  }

  lemma GoalIsGuardFree(sb: Sandbox, want: LockRepo, prev: Option<LockRepo>, r: Repo)
    requires AtGoal(sb, want, prev, r)
    ensures GuardFree(sb, want, r)
  {
    hide NothingOld, SettingsAsDeclared;
    assert BASELINE_TAG in want.tags + [BASELINE_TAG];
  }

  /** And after a reset there is nothing left for an apply to do, whatever lock it starts from. */
  lemma ResetThenApply(sb: Sandbox, want: LockRepo, prev: Option<LockRepo>, r: Repo)
    requires LegalPrevious(prev) && Sound(sb, want, r) && AtBaseline(sb, want, r)
    ensures AtGoal(sb, want, prev, r)
    ensures Diff(sb, want, prev, Some(r)).Plan? && !Needed(Diff(sb, want, prev, Some(r)).change)
  {
    SeedIsNotOld(want, prev);
    assert NothingOld(want, prev, r) by {
      hide OldTag, OldBranch;
    }
    hide Diff, Needed, OldTag, OldBranch, NothingOld;
    NothingNeededAtGoal(sb, want, prev, r);
  }
}
