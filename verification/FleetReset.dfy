/**
 * verify and reset over a whole fleet, against a forge whose reads may miss what is there and whose
 * writes may fail, and the wait and the comparison that a reset and an apply end with.
 */
module FleetReset {
  import opened Helpers
  import opened Text
  import opened ForgeModel
  import opened Compare
  import opened Reset
  import opened ForgeApi
  import opened Requests
  import opened Creating
  import opened Commands

  lemma StarFree(want: LockRepo)
    requires WellFormed(want)
    ensures '*' !in want.defaultBranch
  {
  }

  // ------------------------------------------------------------ what a command may touch

  predicate Declares(wants: seq<LockRepo>, name: string) {
    exists i :: 0 <= i < |wants| && wants[i].name == name
  }

  /** As `load_spec` and the lock leave a fleet. */
  ghost predicate Legal(wants: seq<LockRepo>) {
    && (forall i :: 0 <= i < |wants| ==> WellFormed(wants[i]))
    && (forall i, j :: 0 <= i < j < |wants| ==> wants[i].name != wants[j].name)
  }

  /** Somebody else's: not declared, or without the marker. */
  predicate Foreign(sb: Sandbox, wants: seq<LockRepo>, a: World, n: string) {
    n in a.repos && (!Declares(wants, n) || !IsOurs(sb, a.repos[n]))
  }

  // ------------------------------------------------------------ verify

  /** One answer per declared repository: the truth, or, where the forge may miss one, nothing. */
  ghost predicate Observed(f: Forge, sb: Sandbox, wants: seq<LockRepo>, w: World, states: seq<State>) {
    && |states| == |wants|
    && forall i :: 0 <= i < |states| ==> ObservedAt(f, sb, wants[i], w, states[i])
  }

  ghost predicate ObservedAt(f: Forge, sb: Sandbox, want: LockRepo, w: World, s: State) {
    && Reports(sb, want, s.live, s)
    && (s.live.Some? ==> want.name in w.repos && s.live.value == w.repos[want.name])
    && (f.truthful && want.name in w.repos ==> s.live.Some?)
  }

  /** Each of the first `n` was looked up, and those that were not found kept the command from what it set out to do. */
  ghost predicate AllLookedUp(wants: seq<LockRepo>, lives: seq<Option<Repo>>, a: seq<Event>, b: seq<Event>) {
    && |lives| <= |wants|
    && forall i :: 0 <= i < |lives| ==> LookedUp(a, b, wants[i].name) && (lives[i].Some? || Hindered(a, b))
  }

  lemma LookedUpOneMore(wants: seq<LockRepo>, lives: seq<Option<Repo>>, live: Option<Repo>, a: seq<Event>,
        b: seq<Event>, looks: seq<Event>)
    requires AllLookedUp(wants, lives, a, b) && |lives| < |wants|
    requires LookedUp(a, b + looks, wants[|lives|].name) && (live.Some? || Hindered(a, b + looks))
    ensures AllLookedUp(wants, lives + [live], a, b + looks)
  {
    forall i | 0 <= i < |lives|
      ensures LookedUp(a, b + looks, wants[i].name) && (lives[i].Some? || Hindered(a, b + looks))
    {
      assert LookedUp(a, b, wants[i].name) && (lives[i].Some? || Hindered(a, b));
      var k :| |a| <= k < |b| && Looks(b[k], wants[i].name);
      assert Looks((b + looks)[k], wants[i].name);
      if lives[i].None? {
        HinderedEarlier(a, b, b + looks);
      }
    }
  }

  function LivesOf(states: seq<State>): (lives: seq<Option<Repo>>)
    ensures |lives| == |states| && forall i :: 0 <= i < |states| ==> lives[i] == states[i].live
  {
    seq(|states|, i requires 0 <= i < |states| => states[i].live)
  }

  /** Every declared repository is looked up, whether or not another's lookup was answered. */
  method CompareAll(f: Forge, sb: Sandbox, wants: seq<LockRepo>, took: nat -> nat)
    returns (answered: bool, states: seq<State>)
    requires Legal(wants)
    modifies f`log
    ensures Observed(f, sb, wants, f.world, states) && (f.truthful ==> answered)
    ensures OnlyRead(old(f.log), f.log) && AllLookedUp(wants, LivesOf(states), old(f.log), f.log)
    ensures old(f.log) <= f.log && (answered <==> AllAnswered(old(f.log), f.log))
  {
    hide Reports, AllLookedUp, AllAnswered, LookClock;
    answered, states := true, [];
    NothingLookedUp(wants, f.log);
    for i := 0 to |wants|
      invariant Observed(f, sb, wants[..i], f.world, states) && (f.truthful ==> answered)
      invariant OnlyRead(old(f.log), f.log) && AllLookedUp(wants, LivesOf(states), old(f.log), f.log)
      invariant answered <==> AllAnswered(old(f.log), f.log)
    {
      ghost var before := f.log;
      ghost var looks;
      var ok, live, now;
      ok, live, looks, now := GetConfirmed(f, wants[i].name, took);
      ReadOn(old(f.log), before, looks);
      LooksTell(old(f.log), before, looks, wants[i].name, ok, live.Some?);
      LookedUpOneMore(wants, LivesOf(states), live, old(f.log), before, looks);
      var s := CompareOne(sb, wants[i], live);
      assert s.live == live && s.want == wants[i] by {
        ReportsItsSubject(sb, wants[i], live, s);
      }
      assert LivesOf(states) + [live] == LivesOf(states + [s]);
      answered, states := answered && ok, states + [s];
    }
    assert wants[..|wants|] == wants;
  }

  lemma NothingLookedUp(wants: seq<LockRepo>, a: seq<Event>)
    ensures AllLookedUp(wants, [], a, a) && AllAnswered(a, a)
  {
  }

  lemma ReportsItsSubject(sb: Sandbox, want: LockRepo, live: Option<Repo>, s: State)
    requires Reports(sb, want, live, s)
    ensures s.live == live && s.want == want && (s.guards == [] ==> live.Some?)
    ensures s.guards == [] <==> GuardOf(sb, want, live).None?
  {
  }

  /** Every declared repository is there and as the lock says. */
  ghost predicate AllClean(sb: Sandbox, wants: seq<LockRepo>, w: World) {
    forall i :: 0 <= i < |wants| ==> wants[i].name in w.repos && Clean(sb, wants[i], w.repos[wants[i].name])
  }

  /** Verify only reads, and passes exactly when every declared repository is there and clean. */
  method Verify(f: Forge, sb: Sandbox, wants: seq<LockRepo>, took: nat -> nat) returns (ok: bool)
    requires Legal(wants)
    modifies f`log
    ensures OnlyRead(old(f.log), f.log)
    ensures ok ==> AllClean(sb, wants, f.world)
    ensures f.truthful ==> (ok <==> AllClean(sb, wants, f.world))
    ensures AllClean(sb, wants, f.world) && !ok ==> Hindered(old(f.log), f.log)
  {
    hide Reports, Clean, Hindered;
    var answered, states := CompareAll(f, sb, wants, took);
    ok := answered;
    for i := 0 to |states|
      invariant ok <==> answered && forall j :: 0 <= j < i ==> states[j].guards == [] && states[j].drift == []
    {
      if states[i].guards != [] || states[i].drift != [] {
        ok := false;
      }
    }
    forall i | 0 <= i < |states|
      ensures states[i].guards == [] && states[i].drift == [] <==>
        states[i].live.Some? && Clean(sb, wants[i], states[i].live.value)
    {
      QuietMeansClean(sb, wants[i], states[i]);
      assert LivesOf(states)[i] == states[i].live;
    }
    if !answered {
      UnansweredHinders(old(f.log), f.log);
    }
  }

  lemma QuietMeansClean(sb: Sandbox, want: LockRepo, s: State)
    requires Reports(sb, want, s.live, s)
    ensures s.guards == [] && s.drift == [] <==> s.live.Some? && Clean(sb, want, s.live.value)
  {
    FirstIsIn(s.drift);
  }

  // ------------------------------------------------------------ reset

  /**
   * `Unanswered` is a lookup without an answer and `Guards` a guard, both before the first write;
   * `LateGuards` is a creation that finds another's repository, `Unclean` what the comparison at the
   * end finds once everything else went well.
   */
  datatype Verdict = Fine | Unanswered | Guards | LateGuards | Failures | Unclean

  /** What a reset may leave of one repository: itself, or its own reset cut short somewhere. */
  ghost predicate ResetLeft(sb: Sandbox, want: LockRepo, was: Repo, now: Repo) {
    now == was || exists s :: Reports(sb, want, Some(was), s) && s.guards == [] && s.drift != []
                             && CutShort(sb.caps, ResetSteps(s), was, now)
  }

  /** Every change is a reset of a declared repository; the rest is as it was. */
  ghost predicate ResetLeaves(sb: Sandbox, wants: seq<LockRepo>, a: World, b: World) {
    && b.namespaces == a.namespaces
    && (forall n :: n in b.repos <==> n in a.repos)
    && (forall n :: n in a.repos && !Declares(wants, n) ==> b.repos[n] == a.repos[n])
    && (forall i :: 0 <= i < |wants| && wants[i].name in a.repos ==>
          ResetLeft(sb, wants[i], a.repos[wants[i].name], b.repos[wants[i].name]))
  }

  /**
   * Where one reset leaves a repository, however the others went: one that could be read is where it
   * belongs. One that could not and is to be readable is open now, unguarded, with the target it had
   * but for protections lifted unseen; one that is to stay unreadable shows no more drift.
   */
  ghost predicate ResetDone(sb: Sandbox, want: LockRepo, was: Repo, now: Repo) {
    && (!Blind(sb, was) ==> Canonical(now) == Canonical(Target(sb, want, was)))
    && (Blind(sb, was) && !want.archived && GuardFree(sb, want, was) ==> Opened(sb, want, was, now))
    && (Blind(sb, was) && want.archived && Passes(sb, want, was) ==> Clean(sb, want, now))
  }

  ghost predicate Opened(sb: Sandbox, want: LockRepo, was: Repo, now: Repo) {
    GuardFree(sb, want, now) && !Blind(sb, now) && Unruled(Target(sb, want, now)) == Unruled(Target(sb, want, was))
  }

  function Lookup(w: World, name: string): Option<Repo> {
    if name in w.repos then Some(w.repos[name]) else None
  }

  lemma CleanIsDone(sb: Sandbox, want: LockRepo, s: State)
    requires WellFormed(want) && Reports(sb, want, s.live, s) && s.guards == [] && s.drift == []
    ensures s.live.Some? && ResetDone(sb, want, s.live.value, s.live.value)
  {
    QuietMeansClean(sb, want, s);
    var r := s.live.value;
    if !Blind(sb, r) {
      CleanIsAtBaseline(sb, want, r);
      CleanIsTarget(sb, want, r);
    } else {
      assert !Differs(sb, want, r, ArchivedDiffers);
    }
  }

  lemma FollowedResetLeaves(f: Forge, sb: Sandbox, want: LockRepo, s: State, was: Repo, now: Repo, ok: bool)
    requires f.caps == sb.caps && WellFormed(want) && Reports(sb, want, Some(was), s) && s.guards == [] && s.drift != []
    requires Follows(f, ResetSteps(s), was, now, ok)
    ensures ResetLeft(sb, want, was, now) && (ok ==> !now.pending)
    ensures f.reliable || ok ==> ResetDone(sb, want, was, now)
    ensures f.reliable && !Blind(sb, was) ==> ok
  {
    hide Canonical, Target, ResetSteps, Unruled, FinishesNow, AfterReset;
    ResetMeetsNoRefusal(sb, want, was, s);
    NothingPendingAfterReset(sb.caps, s);
    if !Blind(sb, was) {
      ResetConverges(sb, want, was, s);
    } else if want.archived {
      UnreadableStaysSo(sb, want, was, s);
    } else if GuardFree(sb, want, was) {
      UnreadableNeedsAtMostOneMore(sb, want, was, s);
    }
  }

  /** The settings write of a reset comes after its push, and after a wait for it. */
  lemma NothingPendingAfterReset(caps: Caps, s: State)
    requires s.live.Some?
    ensures !AfterReset(caps, s).pending
  {
    hide Rewound, Lifted;
  }

  /** One drifted repository of the fleet, reset; or one without drift, left alone. */
  method ResetIfDrifted(f: Forge, sb: Sandbox, want: LockRepo, s: State) returns (ok: bool)
    requires f.caps == sb.caps && WellFormed(want) && Reports(sb, want, s.live, s) && s.guards == []
    requires s.live.Some? && want.name in f.world.repos && f.world.repos[want.name] == s.live.value
    modifies f
    ensures OnlyRepo(old(f.world), f.world, want.name)
    ensures ResetLeft(sb, want, s.live.value, f.world.repos[want.name])
    ensures f.reliable || ok ==> ResetDone(sb, want, s.live.value, f.world.repos[want.name])
    ensures ok && s.drift != [] ==> !f.world.repos[want.name].pending
    ensures f.reliable ==> (ok <==> GoesThrough(f.caps, s)) && (!Blind(sb, s.live.value) ==> ok)
    ensures Reported(old(f.log), f.log, ok) && (s.drift != [] ==> Attempted(old(f.log), f.log, want.name))
  {
    hide ResetLeft, ResetDone, Reports, WellFormed, Reported, Attempted, ResetSteps, CutShort, Run;
    ReportsItsSubject(sb, want, s.live, s);
    if s.drift == [] {
      CleanIsDone(sb, want, s);
      assert ResetLeft(sb, want, s.live.value, s.live.value) by {
        ItselfIsLeft(sb, want, s.live.value);
      }
      AllWellSoFar(f.log);
      return true;
    }
    StarFree(want);
    ok := ResetOne(f, s);
    FollowedResetLeaves(f, sb, want, s, s.live.value, f.world.repos[want.name], ok);
  }

  /** Without drift there is nothing to do; otherwise the forge takes every write of the reset. */
  predicate GoesThrough(caps: Caps, s: State) {
    s.drift != [] && s.live.Some? ==> Run(caps, ResetSteps(s), s.live.value).ok
  }

  lemma ItselfIsLeft(sb: Sandbox, want: LockRepo, r: Repo)
    ensures ResetLeft(sb, want, r, r)
  {
  }

  /** The fleet as far as a reset has got: the first `n` are done with, if that is `sure`; the rest are as they were. */
  ghost predicate ResetUpTo(sure: bool, sb: Sandbox, wants: seq<LockRepo>, n: nat, a: World, b: World) {
    && n <= |wants| && b.namespaces == a.namespaces
    && (forall x :: x in b.repos <==> x in a.repos)
    && (forall x :: x in a.repos && !Declares(wants[..n], x) ==> b.repos[x] == a.repos[x])
    && (forall i :: 0 <= i < n && wants[i].name in a.repos ==>
          && ResetLeft(sb, wants[i], a.repos[wants[i].name], b.repos[wants[i].name])
          && (sure ==> ResetDone(sb, wants[i], a.repos[wants[i].name], b.repos[wants[i].name])))
  }

  lemma ResetOneMore(sure: bool, still: bool, sb: Sandbox, wants: seq<LockRepo>, n: nat, a: World, b: World, c: World)
    requires Legal(wants) && n < |wants| && ResetUpTo(sure, sb, wants, n, a, b) && OnlyRepo(b, c, wants[n].name)
    requires wants[n].name in a.repos && (still ==> sure)
    requires ResetLeft(sb, wants[n], a.repos[wants[n].name], c.repos[wants[n].name])
    requires still ==> ResetDone(sb, wants[n], a.repos[wants[n].name], c.repos[wants[n].name])
    ensures ResetUpTo(still, sb, wants, n + 1, a, c)
  {
    hide ResetLeft, ResetDone;
    DeclaresOneMore(wants, n);
  }

  lemma DeclaresOneMore(wants: seq<LockRepo>, n: nat)
    requires n < |wants|
    ensures forall x :: Declares(wants[..n + 1], x) <==> Declares(wants[..n], x) || x == wants[n].name
  {
    forall x ensures Declares(wants[..n + 1], x) <==> Declares(wants[..n], x) || x == wants[n].name {
      if Declares(wants[..n], x) {
        var i :| 0 <= i < n && wants[..n][i].name == x;
        assert wants[..n + 1][i].name == x;
      }
      if x == wants[n].name {
        assert wants[..n + 1][n].name == x;
      }
    }
  }

  lemma StillThere(sure: bool, sb: Sandbox, wants: seq<LockRepo>, n: nat, a: World, b: World)
    requires Legal(wants) && n < |wants| && ResetUpTo(sure, sb, wants, n, a, b) && wants[n].name in a.repos
    ensures wants[n].name in b.repos && b.repos[wants[n].name] == a.repos[wants[n].name]
  {
    hide ResetLeft, ResetDone;
    forall i | 0 <= i < n ensures wants[..n][i].name != wants[n].name {
      assert wants[..n][i] == wants[i];
    }
  }

  /** Of the first `n`, those that were reset have nothing pending. */
  ghost predicate SettledUpTo(wants: seq<LockRepo>, states: seq<State>, n: nat, w: World) {
    && n <= |wants| == |states|
    && forall i :: 0 <= i < n && states[i].drift != [] ==> wants[i].name in w.repos && !w.repos[wants[i].name].pending
  }

  lemma SettledOneMore(wants: seq<LockRepo>, states: seq<State>, n: nat, a: World, b: World)
    requires Legal(wants) && SettledUpTo(wants, states, n, a) && n < |wants| && OnlyRepo(a, b, wants[n].name)
    requires states[n].drift != [] ==> !b.repos[wants[n].name].pending
    ensures SettledUpTo(wants, states, n + 1, b)
  {
    hide WellFormed;
  }

  predicate AllSeen(sb: Sandbox, states: seq<State>) {
    forall i :: 0 <= i < |states| ==> states[i].live.Some? && !Blind(sb, states[i].live.value)
  }

  function DriftedOf(states: seq<State>): (due: seq<bool>)
    ensures |due| == |states| && forall i :: 0 <= i < |states| ==> due[i] == (states[i].drift != [])
  {
    seq(|states|, i requires 0 <= i < |states| => states[i].drift != [])
  }

  /** Every drifted repository of a fleet without guards, one failure or not. */
  method ResetEach(f: Forge, sb: Sandbox, wants: seq<LockRepo>, states: seq<State>) returns (all: bool)
    requires Legal(wants) && f.caps == sb.caps && Observed(f, sb, wants, f.world, states)
    requires forall i :: 0 <= i < |states| ==> states[i].guards == []
    modifies f
    ensures ResetUpTo(f.reliable || all, sb, wants, |wants|, old(f.world), f.world)
    ensures all ==> SettledUpTo(wants, states, |wants|, f.world)
    ensures WrittenUpTo(wants, DriftedOf(states), |wants|, old(f.log), f.log) && WellOrHindered(old(f.log), f.log, all)
    ensures f.reliable ==> (all <==> forall i :: 0 <= i < |states| ==> GoesThrough(f.caps, states[i]))
    ensures f.reliable && AllSeen(sb, states) ==> all
  {
    hide Reports, ResetLeft, ResetDone, GuardOf, ResetUpTo, WellFormed, SettledUpTo, GoesThrough;
    hide Attempted, WrittenUpTo, WellOrHindered, Reported;
    ghost var before := f.world;
    all := true;
    NothingResetYet(sb, wants, before);
    NothingSettledYet(f, sb, wants, states, before);
    NothingWritten(wants, DriftedOf(states), f.log);
    for i := 0 to |states|
      invariant ResetUpTo(f.reliable || all, sb, wants, i, before, f.world)
      invariant all ==> SettledUpTo(wants, states, i, f.world)
      invariant WrittenUpTo(wants, DriftedOf(states), i, old(f.log), f.log) && WellOrHindered(old(f.log), f.log, all)
      invariant f.reliable ==> (all <==> forall j :: 0 <= j < i ==> GoesThrough(f.caps, states[j]))
      invariant f.reliable && AllSeen(sb, states) ==> all
    {
      assert ObservedAt(f, sb, wants[i], before, states[i]);
      ReportsItsSubject(sb, wants[i], states[i].live, states[i]);
      StillThere(f.reliable || all, sb, wants, i, before, f.world);
      ghost var mid, log := f.world, f.log;
      var ok := ResetIfDrifted(f, sb, wants[i], states[i]);
      ResetOneMore(f.reliable || all, f.reliable || (all && ok), sb, wants, i, before, mid, f.world);
      if all && ok {
        SettledOneMore(wants, states, i, mid, f.world);
      }
      WellOneMore(old(f.log), log, f.log, all, ok);
      WrittenOneMore(wants, DriftedOf(states), i, old(f.log), log, f.log);
      all := all && ok;
    }
  }

  lemma NothingSettledYet(f: Forge, sb: Sandbox, wants: seq<LockRepo>, states: seq<State>, w: World)
    requires Observed(f, sb, wants, w, states)
    ensures SettledUpTo(wants, states, 0, w)
  {
  }

  // ------------------------------------------------------------ the wait and the comparison at the end

  /** The wait asks nothing of a repository without commits, or of one that cannot be read. */
  predicate IsWaitedFor(sb: Sandbox, want: LockRepo) {
    !want.empty && !(want.archived && sb.caps.archivedUnreadable)
  }

  /** All that waiting changes is time: a push that was pending may be applied by now. */
  ghost predicate Waited(wants: seq<LockRepo>, touched: seq<bool>, a: World, b: World) {
    && |touched| == |wants| && b.namespaces == a.namespaces && (forall x :: x in b.repos <==> x in a.repos)
    && (forall x :: x in a.repos ==> b.repos[x] == a.repos[x]
                                     || (b.repos[x] == Applied(a.repos[x]) && Touches(wants, touched, x)))
  }

  predicate Touches(wants: seq<LockRepo>, touched: seq<bool>, name: string) {
    exists i :: 0 <= i < |wants| && i < |touched| && touched[i] && wants[i].name == name
  }

  /** Once everything is applied, each of the first `n` reports its default branch at the baseline. */
  predicate ReportUpTo(sb: Sandbox, wants: seq<LockRepo>, touched: seq<bool>, n: nat, w: World)
    requires n <= |wants| == |touched|
  {
    forall i :: 0 <= i < n && touched[i] && IsWaitedFor(sb, wants[i]) ==>
      && wants[i].name in w.repos
      && Lists(Applied(w.repos[wants[i].name]), wants[i].defaultBranch, wants[i].baseline)
  }

  predicate AllReport(sb: Sandbox, wants: seq<LockRepo>, touched: seq<bool>, w: World)
    requires |touched| == |wants|
  {
    ReportUpTo(sb, wants, touched, |wants|, w)
  }

  /** They do so now. */
  predicate ListedUpTo(sb: Sandbox, wants: seq<LockRepo>, touched: seq<bool>, n: nat, w: World)
    requires n <= |wants| == |touched|
  {
    forall i :: 0 <= i < n && touched[i] && IsWaitedFor(sb, wants[i]) ==>
      && wants[i].name in w.repos
      && Lists(w.repos[wants[i].name], wants[i].defaultBranch, wants[i].baseline)
  }

  /** Each of them has had its time. */
  predicate AppliedUpTo(sb: Sandbox, wants: seq<LockRepo>, touched: seq<bool>, n: nat, a: World, b: World)
    requires n <= |wants| == |touched|
  {
    forall i :: 0 <= i < n && touched[i] && IsWaitedFor(sb, wants[i]) && wants[i].name in a.repos ==>
      wants[i].name in b.repos && b.repos[wants[i].name] == Applied(a.repos[wants[i].name])
  }

  /** Each of them was asked for. */
  ghost predicate AskedUpTo(sb: Sandbox, wants: seq<LockRepo>, touched: seq<bool>, n: nat, a: seq<Event>, b: seq<Event>)
    requires n <= |wants| == |touched|
  {
    forall i :: 0 <= i < n && touched[i] && IsWaitedFor(sb, wants[i]) ==> Asked(a, b, wants[i])
  }

  ghost predicate Asked(a: seq<Event>, b: seq<Event>, want: LockRepo) {
    a <= b && exists k :: |a| <= k < |b| && AsksFor(b[k], want)
  }

  predicate AsksFor(e: Event, want: LockRepo) {
    e.name == want.name && e.Wrote? && e.step == WaitPushed(want.defaultBranch, want.baseline)
  }

  lemma WaitedMore(wants: seq<LockRepo>, touched: seq<bool>, i: nat, a: World, b: World, c: World)
    requires Waited(wants, touched, a, b) && i < |wants| && touched[i] && wants[i].name in b.repos
    requires c.namespaces == b.namespaces
    requires c.repos == b.repos || c.repos == b.repos[wants[i].name := Applied(b.repos[wants[i].name])]
    ensures Waited(wants, touched, a, c)
  {
    hide Touches;
    assert Touches(wants, touched, wants[i].name) by {
      TouchesIt(wants, touched, i);
    }
  }

  lemma TouchesIt(wants: seq<LockRepo>, touched: seq<bool>, i: nat)
    requires i < |wants| == |touched| && touched[i]
    ensures Touches(wants, touched, wants[i].name)
  {
  }

  /** Where the wait for the first `n` has got to. */
  ghost predicate WaitsUpTo(f: Forge, sb: Sandbox, wants: seq<LockRepo>, touched: seq<bool>, n: nat, a: World, b: World,
        ok: bool)
  {
    && n <= |wants| == |touched| && Waited(wants, touched, a, b)
    && (ok ==> ListedUpTo(sb, wants, touched, n, b))
    && (f.reliable ==> (ok <==> ReportUpTo(sb, wants, touched, n, a)) && AppliedUpTo(sb, wants, touched, n, a, b))
  }

  /** One more wait, as the forge answers it. */
  ghost predicate WaitsFor(f: Forge, want: LockRepo, b: World, c: World, ready: bool) {
    && want.name in b.repos && c.namespaces == b.namespaces
    && (c.repos == b.repos[want.name := Applied(b.repos[want.name])] || (!ready && !f.reliable && c.repos == b.repos))
    && (ready ==> Lists(Applied(b.repos[want.name]), want.defaultBranch, want.baseline))
    && (f.reliable ==> (ready <==> Lists(Applied(b.repos[want.name]), want.defaultBranch, want.baseline)))
  }

  lemma WaitsOneMore(f: Forge, sb: Sandbox, wants: seq<LockRepo>, touched: seq<bool>, n: nat, a: World, b: World,
        c: World, ok: bool, ready: bool)
    requires WaitsUpTo(f, sb, wants, touched, n, a, b, ok) && n < |wants| && touched[n] && IsWaitedFor(sb, wants[n])
    requires WaitsFor(f, wants[n], b, c, ready)
    ensures WaitsUpTo(f, sb, wants, touched, n + 1, a, c, ok && ready)
  {
    WaitedMore(wants, touched, n, a, b, c);
    if ok && ready {
      ListedOneMore(f, sb, wants, touched, n, b, c);
    }
    if f.reliable {
      AppliedOneMore(f, sb, wants, touched, n, a, b, c, ready);
    }
    hide Waited, ListedUpTo, AppliedUpTo, WaitsFor, Lists, Applied;
  }

  lemma ListedOneMore(f: Forge, sb: Sandbox, wants: seq<LockRepo>, touched: seq<bool>, n: nat, b: World, c: World)
    requires n < |wants| == |touched| && ListedUpTo(sb, wants, touched, n, b) && WaitsFor(f, wants[n], b, c, true)
    ensures ListedUpTo(sb, wants, touched, n + 1, c)
  {
    assert forall r: Repo, b: string, s: string :: Lists(r, b, s) ==> Lists(Applied(r), b, s);
    hide IsWaitedFor, Lists, Applied;
  }

  lemma AppliedOneMore(f: Forge, sb: Sandbox, wants: seq<LockRepo>, touched: seq<bool>, n: nat, a: World, b: World,
        c: World, ready: bool)
    requires n < |wants| == |touched| && AppliedUpTo(sb, wants, touched, n, a, b) && f.reliable
    requires Waited(wants, touched, a, b) && WaitsFor(f, wants[n], b, c, ready)
    ensures AppliedUpTo(sb, wants, touched, n + 1, a, c) && wants[n].name in a.repos
    ensures ready <==> Lists(Applied(a.repos[wants[n].name]), wants[n].defaultBranch, wants[n].baseline)
  {
    assert forall r: Repo :: Applied(Applied(r)) == Applied(r);
    hide IsWaitedFor, Lists, Applied, Touches;
  }

  /** Each repository that was written is waited for, one that never comes or not. */
  method WaitReady(f: Forge, sb: Sandbox, wants: seq<LockRepo>, touched: seq<bool>) returns (ok: bool)
    requires f.caps == sb.caps && |touched| == |wants|
    requires forall i :: 0 <= i < |wants| && touched[i] ==> wants[i].name in f.world.repos
    modifies f
    ensures Waited(wants, touched, old(f.world), f.world)
    ensures ok ==> ListedUpTo(sb, wants, touched, |wants|, f.world)
    ensures f.reliable ==> (ok <==> AllReport(sb, wants, touched, old(f.world)))
    ensures f.reliable ==> AppliedUpTo(sb, wants, touched, |wants|, old(f.world), f.world)
    ensures AskedUpTo(sb, wants, touched, |wants|, old(f.log), f.log) && WellOrHindered(old(f.log), f.log, ok)
  {
    hide Waited, Lists, ListedUpTo, ReportUpTo, AppliedUpTo, WaitsUpTo, Asked, WellOrHindered, IsWaitedFor;
    ghost var before := f.world;
    ok := true;
    NothingWaitedFor(f, sb, wants, touched, before, f.log);
    for i := 0 to |wants|
      invariant WaitsUpTo(f, sb, wants, touched, i, before, f.world, ok) && old(f.log) <= f.log
      invariant AskedUpTo(sb, wants, touched, i, old(f.log), f.log) && WellOrHindered(old(f.log), f.log, ok)
    {
      if touched[i] && IsWaitedFor(sb, wants[i]) {
        ghost var mid, log := f.world, f.log;
        assert wants[i].name in mid.repos by {
          WaitsKeep(f, sb, wants, touched, i, before, mid, ok);
        }
        var ready := f.Perform(wants[i].name, WaitPushed(wants[i].defaultBranch, wants[i].baseline));
        WaitsOneMore(f, sb, wants, touched, i, before, mid, f.world, ok, ready);
        WellOneMore(old(f.log), log, f.log, ok, ready);
        AskedOneMore(sb, wants, touched, i, old(f.log), log, f.log);
        ok := ok && ready;
      } else {
        WaitsNoMore(f, sb, wants, touched, i, before, f.world, ok);
      }
    }
    WaitIsOver(f, sb, wants, touched, before, f.world, ok);
  }

  lemma WaitsKeep(f: Forge, sb: Sandbox, wants: seq<LockRepo>, touched: seq<bool>, n: nat, a: World, b: World, ok: bool)
    requires WaitsUpTo(f, sb, wants, touched, n, a, b, ok)
    ensures forall x :: x in b.repos <==> x in a.repos
  {
    WaitedKeeps(wants, touched, a, b);
  }

  lemma WaitsNoMore(f: Forge, sb: Sandbox, wants: seq<LockRepo>, touched: seq<bool>, n: nat, a: World, b: World,
        ok: bool)
    requires WaitsUpTo(f, sb, wants, touched, n, a, b, ok) && n < |wants| && !(touched[n] && IsWaitedFor(sb, wants[n]))
    ensures WaitsUpTo(f, sb, wants, touched, n + 1, a, b, ok)
  {
    hide Waited, IsWaitedFor;
  }

  lemma WaitIsOver(f: Forge, sb: Sandbox, wants: seq<LockRepo>, touched: seq<bool>, a: World, b: World, ok: bool)
    requires WaitsUpTo(f, sb, wants, touched, |wants|, a, b, ok)
    ensures Waited(wants, touched, a, b) && (ok ==> ListedUpTo(sb, wants, touched, |wants|, b))
    ensures f.reliable ==> (ok <==> AllReport(sb, wants, touched, a))
    ensures f.reliable ==> AppliedUpTo(sb, wants, touched, |wants|, a, b)
  {
    hide Waited, ListedUpTo, ReportUpTo, AppliedUpTo;
  }

  lemma AskedOneMore(sb: Sandbox, wants: seq<LockRepo>, touched: seq<bool>, n: nat, a: seq<Event>, b: seq<Event>,
        c: seq<Event>)
    requires n < |wants| == |touched| && AskedUpTo(sb, wants, touched, n, a, b) && a <= b < c
    requires AsksFor(c[|b|], wants[n])
    ensures AskedUpTo(sb, wants, touched, n + 1, a, c)
  {
    forall i | 0 <= i <= n && touched[i] && IsWaitedFor(sb, wants[i]) ensures Asked(a, c, wants[i]) {
      if i < n {
        assert Asked(a, b, wants[i]);
        var k :| |a| <= k < |b| && AsksFor(b[k], wants[i]);
        assert AsksFor(c[k], wants[i]);
      }
    }
  }

  lemma NothingWaitedFor(f: Forge, sb: Sandbox, wants: seq<LockRepo>, touched: seq<bool>, w: World, log: seq<Event>)
    requires |touched| == |wants|
    ensures WaitsUpTo(f, sb, wants, touched, 0, w, w, true)
    ensures AskedUpTo(sb, wants, touched, 0, log, log) && WellOrHindered(log, log, true)
  {
  }

  lemma WaitedKeeps(wants: seq<LockRepo>, touched: seq<bool>, a: World, b: World)
    requires Waited(wants, touched, a, b)
    ensures b.namespaces == a.namespaces && forall x :: x in b.repos <==> x in a.repos
  {
    hide Touches;
  }

  /**
   * How a reset and an apply end that went well so far: a wait for what was written, and a comparison
   * of all. It fails exactly when some wait is in vain, and is fine exactly when the comparison then
   * finds nothing.
   */
  method Close(f: Forge, sb: Sandbox, wants: seq<LockRepo>, touched: seq<bool>, took: nat -> nat)
    returns (verdict: Verdict)
    requires Legal(wants) && f.caps == sb.caps && |touched| == |wants|
    requires forall i :: 0 <= i < |wants| && touched[i] ==> wants[i].name in f.world.repos
    modifies f
    ensures Waited(wants, touched, old(f.world), f.world)
    ensures verdict.Fine? || verdict.Failures? || verdict.Unclean?
    ensures verdict.Fine? ==> AllClean(sb, wants, f.world)
    ensures f.truthful && verdict.Unclean? ==> !AllClean(sb, wants, f.world)
    ensures !verdict.Failures? ==> ListedUpTo(sb, wants, touched, |wants|, f.world)
    ensures f.reliable ==> (verdict.Failures? <==> !AllReport(sb, wants, touched, old(f.world)))
    ensures f.reliable ==> AppliedUpTo(sb, wants, touched, |wants|, old(f.world), f.world)
    ensures AskedUpTo(sb, wants, touched, |wants|, old(f.log), f.log)
    ensures WellOrHindered(old(f.log), f.log,
                           verdict.Fine? || (verdict.Unclean? && !AllClean(sb, wants, f.world)))
  {
    hide Waited, AllReport, AllClean, Legal, ListedUpTo, AppliedUpTo, AskedUpTo, Hindered;
    var ready := WaitReady(f, sb, wants, touched);
    if !ready {
      return Failures;
    }
    ghost var log := f.log;
    var clean := Verify(f, sb, wants, took);
    AskedStill(sb, wants, touched, old(f.log), log, f.log);
    if Hindered(log, f.log) {
      HinderedLater(old(f.log), log, f.log);
    }
    verdict := if clean then Fine else Unclean;
  }

  lemma AskedStill(sb: Sandbox, wants: seq<LockRepo>, touched: seq<bool>, a: seq<Event>, b: seq<Event>, c: seq<Event>)
    requires |touched| == |wants| && AskedUpTo(sb, wants, touched, |wants|, a, b) && a <= b <= c
    ensures AskedUpTo(sb, wants, touched, |wants|, a, c)
  {
    forall i | 0 <= i < |wants| && touched[i] && IsWaitedFor(sb, wants[i]) ensures Asked(a, c, wants[i]) {
      assert Asked(a, b, wants[i]);
      var k :| |a| <= k < |b| && AsksFor(b[k], wants[i]);
      assert AsksFor(c[k], wants[i]);
    }
  }

  /** After a reset there is nothing to wait for: whatever it pushed is applied. */
  lemma NothingToWaitFor(wants: seq<LockRepo>, states: seq<State>, touched: seq<bool>, a: World, b: World)
    requires SettledUpTo(wants, states, |wants|, a) && Waited(wants, touched, a, b)
    requires forall i :: 0 <= i < |wants| ==> touched[i] == (states[i].drift != [])
    ensures b == a
  {
    forall x | x in a.repos ensures b.repos[x] == a.repos[x] {
    }
    assert b.repos == a.repos;
  }

  lemma GuardsAreSeen(f: Forge, sb: Sandbox, wants: seq<LockRepo>, w: World, states: seq<State>, i: nat)
    requires Observed(f, sb, wants, w, states) && i < |wants|
    ensures states[i].guards != [] <==> GuardOf(sb, wants[i], states[i].live).Some?
    ensures f.truthful ==> states[i].live == Lookup(w, wants[i].name)
    ensures states[i].guards == [] ==> wants[i].name in w.repos && states[i].live == Some(w.repos[wants[i].name])
  {
    hide Reports, GuardOf;
    assert ObservedAt(f, sb, wants[i], w, states[i]);
    ReportsItsSubject(sb, wants[i], states[i].live, states[i]);
  }

  lemma AllReset(sure: bool, sb: Sandbox, wants: seq<LockRepo>, a: World, b: World)
    requires ResetUpTo(sure, sb, wants, |wants|, a, b)
    ensures ResetLeaves(sb, wants, a, b)
    ensures sure && (forall i :: 0 <= i < |wants| ==> wants[i].name in a.repos) ==> EachResetDone(sb, wants, a, b)
  {
    hide ResetLeft, ResetDone;
    assert wants[..|wants|] == wants;
  }

  /**
   * Reset: a guard anywhere means no write at all; otherwise only declared repositories that carry
   * the marker and differ from the lock are written, every one of them, whatever becomes of the others.
   * Unless some request goes wrong each ends where a reset leaves it and, if it was written to, reports
   * its baseline. It ends with a comparison of them all, and is fine only if that finds nothing, as it
   * does on a forge that answers truly wherever everything could be read.
   */
  method ResetAll(f: Forge, sb: Sandbox, wants: seq<LockRepo>, took: nat -> nat) returns (verdict: Verdict)
    requires Legal(wants) && f.caps == sb.caps
    modifies f
    ensures ResetLeaves(sb, wants, old(f.world), f.world)
    ensures verdict == Guards || verdict == Unanswered ==> f.world == old(f.world) && OnlyRead(old(f.log), f.log)
    ensures f.truthful ==> verdict != Unanswered
    ensures f.truthful ==> (verdict == Guards <==> AnyGuard(sb, wants, old(f.world)))
    ensures verdict == Fine ==> AllClean(sb, wants, f.world)
    ensures f.truthful && verdict == Unclean ==> !AllClean(sb, wants, f.world)
    ensures EachLookedUp(wants, old(f.log), f.log)
    ensures verdict == Unanswered ==> !AllAnswered(old(f.log), f.log)
    ensures verdict == Guards ==> AllAnswered(old(f.log), f.log)
    ensures verdict == Guards ==> AnyGuard(sb, wants, old(f.world)) || Hindered(old(f.log), f.log)
    ensures verdict != Guards && verdict != Unanswered ==>
      EachAttempted(sb, wants, old(f.world), old(f.log), f.log)
    ensures verdict == Fine || verdict == Unclean ==> EachResetDone(sb, wants, old(f.world), f.world)
    ensures verdict == Fine || verdict == Unclean ==> EachListed(sb, wants, old(f.world), f.world)
    ensures verdict == Failures || (verdict == Unclean && AllClean(sb, wants, f.world)) ==>
      Hindered(old(f.log), f.log)
    ensures f.truthful && f.reliable && verdict != Guards ==> EachResetDone(sb, wants, old(f.world), f.world)
    ensures f.truthful && f.reliable && verdict != Guards && AllReadable(sb, wants, old(f.world)) ==> verdict == Fine
  {
    hide Reports, ResetLeft, ResetDone, GuardOf, Legal, Observed, ResetLeaves, Lookup, AllClean, OnlyRead;
    hide ResetUpTo, SettledUpTo, Waited, AllReport, WrittenUpTo, AllLookedUp, AllAnswered;
    hide ListedUpTo, AppliedUpTo, AskedUpTo, Hindered, EachLookedUp, EachAttempted, EachListed, EachResetDone;
    hide AnyGuard, LivesOf, AllReadable, AllSeen, GoesThrough, OnlyRepo;
    ghost var start := f.log;
    var answered, states := CompareAll(f, sb, wants, took);
    assert |states| == |wants| by {
      OnePerName(f, sb, wants, f.world, states);
    }
    ghost var before, compared := f.world, f.log;
    EachIsLookedUp(f, sb, wants, before, states, start, compared, compared);
    if !answered {
      NothingLeftToReset(sb, wants, before);
      return Unanswered;
    }
    SeenAsTheyAre(f, sb, wants, before, states);
    if exists i :: 0 <= i < |states| && states[i].guards != [] {
      NothingLeftToReset(sb, wants, before);
      GuardsAreReal(f, sb, wants, before, states, start, compared);
      return Guards;
    }
    var touched := DriftedOf(states);
    if forall i :: 0 <= i < |states| ==> states[i].drift == [] {
      NothingLeftToReset(sb, wants, before);
      NoDriftIsClean(f, sb, wants, before, states);
      NothingAttempted(sb, wants, before, start, compared);
      return Fine;
    }
    var all := ResetEach(f, sb, wants, states);
    ghost var done, written := f.world, f.log;
    AllReset(f.reliable || all, sb, wants, before, done);
    if AllReadable(sb, wants, before) {
      ReadableIsSeen(sb, wants, states, before);
    }
    EachIsAttempted(f, sb, wants, before, states, start, compared, written, written);
    EachIsLookedUp(f, sb, wants, before, states, start, compared, written);
    if !all {
      HinderedLater(start, compared, written);
      return Failures;
    }
    SettledAreThere(wants, states, done);
    verdict := Close(f, sb, wants, touched, took);
    NothingToWaitFor(wants, states, touched, done, f.world);
    EachIsAttempted(f, sb, wants, before, states, start, compared, written, f.log);
    EachIsLookedUp(f, sb, wants, before, states, start, compared, f.log);
    if verdict == Failures || (verdict == Unclean && AllClean(sb, wants, f.world)) {
      NotWell(written, f.log);
      HinderedLater(start, written, f.log);
    }
    if verdict != Failures {
      EachIsListed(f, sb, wants, before, states, touched, f.world);
    }
    if f.truthful && f.reliable && AllReadable(sb, wants, before) {
      ResetIsCleanAtLast(sb, wants, touched, before, done);
    }
  }

  /** Whatever differed from the lock was written to. */
  ghost predicate EachAttempted(sb: Sandbox, wants: seq<LockRepo>, w: World, a: seq<Event>, b: seq<Event>) {
    forall i :: 0 <= i < |wants| ==>
      wants[i].name in w.repos && (Clean(sb, wants[i], w.repos[wants[i].name]) || Attempted(a, b, wants[i].name))
  }

  /** And now reports its default branch at the baseline, where that is waited for. */
  ghost predicate EachListed(sb: Sandbox, wants: seq<LockRepo>, a: World, b: World) {
    forall i :: 0 <= i < |wants| && IsWaitedFor(sb, wants[i]) && wants[i].name in a.repos ==>
      || Clean(sb, wants[i], a.repos[wants[i].name])
      || (wants[i].name in b.repos && Lists(b.repos[wants[i].name], wants[i].defaultBranch, wants[i].baseline))
  }

  lemma EachIsLookedUp(f: Forge, sb: Sandbox, wants: seq<LockRepo>, w: World, states: seq<State>, a: seq<Event>,
        b: seq<Event>, c: seq<Event>)
    requires |states| == |wants| && AllLookedUp(wants, LivesOf(states), a, b) && b <= c
    ensures EachLookedUp(wants, a, c)
  {
    forall i | 0 <= i < |wants| ensures LookedUp(a, c, wants[i].name) {
      assert LookedUp(a, b, wants[i].name);
      var k :| |a| <= k < |b| && Looks(b[k], wants[i].name);
      assert Looks(c[k], wants[i].name);
    }
  }

  lemma SeenAsTheyAre(f: Forge, sb: Sandbox, wants: seq<LockRepo>, w: World, states: seq<State>)
    requires Observed(f, sb, wants, w, states)
    ensures forall i :: 0 <= i < |states| ==> (states[i].guards != [] <==> GuardOf(sb, wants[i], states[i].live).Some?)
    ensures f.truthful ==> (AnyGuard(sb, wants, w) <==> exists i :: 0 <= i < |states| && states[i].guards != [])
    ensures (forall i :: 0 <= i < |states| ==> states[i].guards == []) ==> AllThere(wants, states, w)
  {
    hide Reports, GuardOf;
    forall i | 0 <= i < |states|
      ensures states[i].guards != [] <==> GuardOf(sb, wants[i], states[i].live).Some?
      ensures f.truthful ==> states[i].live == Lookup(w, wants[i].name)
      ensures states[i].guards == [] ==> wants[i].name in w.repos && states[i].live == Some(w.repos[wants[i].name])
    {
      GuardsAreSeen(f, sb, wants, w, states, i);
    }
  }

  /** Each was found as it is. */
  predicate AllThere(wants: seq<LockRepo>, states: seq<State>, w: World) {
    && |wants| == |states|
    && forall i :: 0 <= i < |states| ==>
         wants[i].name in w.repos && states[i].live == Some(w.repos[wants[i].name])
  }

  lemma ReadableIsSeen(sb: Sandbox, wants: seq<LockRepo>, states: seq<State>, w: World)
    requires AllThere(wants, states, w) && AllReadable(sb, wants, w)
    ensures AllSeen(sb, states)
  {
    hide Blind;
  }

  lemma GuardsAreReal(f: Forge, sb: Sandbox, wants: seq<LockRepo>, w: World, states: seq<State>, a: seq<Event>,
        b: seq<Event>)
    requires Observed(f, sb, wants, w, states) && AllLookedUp(wants, LivesOf(states), a, b)
    requires exists i :: 0 <= i < |states| && states[i].guards != []
    ensures AnyGuard(sb, wants, w) || Hindered(a, b)
  {
    hide Reports, GuardOf, LookedUp, Hindered;
    var i :| 0 <= i < |states| && states[i].guards != [];
    GuardsAreSeen(f, sb, wants, w, states, i);
    assert ObservedAt(f, sb, wants[i], w, states[i]);
    if states[i].live.None? {
      assert LivesOf(states)[i] == states[i].live;
    } else {
      assert states[i].live == Lookup(w, wants[i].name);
    }
  }

  lemma NothingAttempted(sb: Sandbox, wants: seq<LockRepo>, w: World, a: seq<Event>, b: seq<Event>)
    requires AllClean(sb, wants, w)
    ensures EachAttempted(sb, wants, w, a, b) && EachListed(sb, wants, w, w)
  {
    hide Clean, Attempted;
  }

  lemma EachIsAttempted(f: Forge, sb: Sandbox, wants: seq<LockRepo>, w: World, states: seq<State>, a: seq<Event>,
        b: seq<Event>, c: seq<Event>, d: seq<Event>)
    requires Observed(f, sb, wants, w, states) && forall i :: 0 <= i < |states| ==> states[i].guards == []
    requires WrittenUpTo(wants, DriftedOf(states), |wants|, b, c) && a <= b && c <= d
    ensures EachAttempted(sb, wants, w, a, d)
  {
    hide Reports, Clean, Attempted;
    forall i | 0 <= i < |wants|
      ensures wants[i].name in w.repos
      ensures Clean(sb, wants[i], w.repos[wants[i].name]) || Attempted(a, d, wants[i].name)
    {
      GuardsAreSeen(f, sb, wants, w, states, i);
      assert ObservedAt(f, sb, wants[i], w, states[i]);
      QuietMeansClean(sb, wants[i], states[i]);
      if states[i].drift != [] {
        AttemptedEarlier(b, c, d, wants[i].name);
        AttemptedLater(a, b, d, wants[i].name);
      }
    }
  }

  lemma EachIsListed(f: Forge, sb: Sandbox, wants: seq<LockRepo>, w: World, states: seq<State>, touched: seq<bool>,
        now: World)
    requires Observed(f, sb, wants, w, states) && forall i :: 0 <= i < |states| ==> states[i].guards == []
    requires |touched| == |states| && forall i :: 0 <= i < |states| ==> touched[i] == (states[i].drift != [])
    requires ListedUpTo(sb, wants, touched, |wants|, now)
    ensures EachListed(sb, wants, w, now)
  {
    hide Reports, Clean, Lists, IsWaitedFor;
    forall i | 0 <= i < |wants| && IsWaitedFor(sb, wants[i]) && wants[i].name in w.repos
      ensures Clean(sb, wants[i], w.repos[wants[i].name])
        || (wants[i].name in now.repos && Lists(now.repos[wants[i].name], wants[i].defaultBranch, wants[i].baseline))
    {
      GuardsAreSeen(f, sb, wants, w, states, i);
      assert ObservedAt(f, sb, wants[i], w, states[i]);
      QuietMeansClean(sb, wants[i], states[i]);
    }
  }

  ghost predicate AnyGuard(sb: Sandbox, wants: seq<LockRepo>, w: World) {
    exists i :: 0 <= i < |wants| && GuardOf(sb, wants[i], Lookup(w, wants[i].name)).Some?
  }

  ghost predicate EachResetDone(sb: Sandbox, wants: seq<LockRepo>, a: World, b: World) {
    forall i :: 0 <= i < |wants| ==>
      && wants[i].name in a.repos && wants[i].name in b.repos
      && ResetDone(sb, wants[i], a.repos[wants[i].name], b.repos[wants[i].name])
  }

  predicate AllReadable(sb: Sandbox, wants: seq<LockRepo>, w: World) {
    forall i :: 0 <= i < |wants| && wants[i].name in w.repos ==> !Blind(sb, w.repos[wants[i].name])
  }

  lemma SettledAreThere(wants: seq<LockRepo>, states: seq<State>, w: World)
    requires SettledUpTo(wants, states, |wants|, w)
    ensures forall i :: 0 <= i < |wants| && states[i].drift != [] ==> wants[i].name in w.repos
  {
  }

  lemma NoDriftIsClean(f: Forge, sb: Sandbox, wants: seq<LockRepo>, w: World, states: seq<State>)
    requires Legal(wants) && Observed(f, sb, wants, w, states)
    requires forall i :: 0 <= i < |states| ==> states[i].guards == [] && states[i].drift == []
    ensures AllClean(sb, wants, w) && EachResetDone(sb, wants, w, w)
  {
    hide Reports, Clean, ResetDone, WellFormed;
    forall i | 0 <= i < |wants|
      ensures wants[i].name in w.repos && Clean(sb, wants[i], w.repos[wants[i].name])
      ensures ResetDone(sb, wants[i], w.repos[wants[i].name], w.repos[wants[i].name])
    {
      assert ObservedAt(f, sb, wants[i], w, states[i]);
      ReportsItsSubject(sb, wants[i], states[i].live, states[i]);
      QuietMeansClean(sb, wants[i], states[i]);
      CleanIsDone(sb, wants[i], states[i]);
    }
  }

  lemma SameButTimeSameBaseline(sb: Sandbox, want: LockRepo, a: Repo, b: Repo)
    requires Canonical(a) == Canonical(b)
    ensures AtBaseline(sb, want, a) == AtBaseline(sb, want, b) && GuardFree(sb, want, a) == GuardFree(sb, want, b)
    ensures Blind(sb, a) == Blind(sb, b)
  {
    assert a == b.(pending := a.pending, topics := a.topics) by {
      assert Canonical(a).(pending := a.pending, topics := a.topics) == a;
      assert Canonical(b).(pending := a.pending, topics := a.topics) == b.(pending := a.pending, topics := a.topics);
    }
    assert Canonical(a).topics == Sort(a.topics) && Canonical(b).topics == Sort(b.topics);
    hide Sort;
  }

  lemma DoneIsClean(sb: Sandbox, want: LockRepo, was: Repo, now: Repo)
    requires WellFormed(want) && !Blind(sb, was) && GuardOf(sb, want, Some(was)).None? && ResetDone(sb, want, was, now)
    ensures Clean(sb, want, now)
    ensures IsWaitedFor(sb, want) ==> Lists(Applied(now), want.defaultBranch, want.baseline)
  {
    assert GuardFree(sb, want, was);
    var t := Target(sb, want, was);
    TargetIsAtBaseline(sb, want, was);
    SameButTimeSameBaseline(sb, want, now, t);
    hide Canonical, Target, Sort;
    CleanWhereItBelongs(sb, want, now);
  }

  lemma ResetIsCleanAtLast(sb: Sandbox, wants: seq<LockRepo>, touched: seq<bool>, a: World, b: World)
    requires Legal(wants) && |touched| == |wants| && ResetUpTo(true, sb, wants, |wants|, a, b)
    requires !AnyGuard(sb, wants, a) && AllReadable(sb, wants, a)
    ensures AllClean(sb, wants, b) && AllReport(sb, wants, touched, b)
  {
    hide Clean, ResetDone, ResetLeft, WellFormed, GuardOf, Lists, IsWaitedFor, Blind;
    forall i | 0 <= i < |wants|
      ensures wants[i].name in b.repos && Clean(sb, wants[i], b.repos[wants[i].name])
      ensures IsWaitedFor(sb, wants[i]) ==>
        Lists(Applied(b.repos[wants[i].name]), wants[i].defaultBranch, wants[i].baseline)
    {
      assert GuardOf(sb, wants[i], Lookup(a, wants[i].name)).None?;
      UnguardedIsThere(sb, wants[i], a);
      DoneIsClean(sb, wants[i], a.repos[wants[i].name], b.repos[wants[i].name]);
    }
  }

  lemma UnguardedIsThere(sb: Sandbox, want: LockRepo, w: World)
    requires GuardOf(sb, want, Lookup(w, want.name)).None?
    ensures want.name in w.repos && GuardOf(sb, want, Some(w.repos[want.name])).None?
  {
  }

  lemma OnePerName(f: Forge, sb: Sandbox, wants: seq<LockRepo>, w: World, states: seq<State>)
    requires Observed(f, sb, wants, w, states)
    ensures |states| == |wants|
  {
  }

  lemma NothingLeftToReset(sb: Sandbox, wants: seq<LockRepo>, w: World)
    ensures ResetLeaves(sb, wants, w, w)
  {
  }

  lemma NothingResetYet(sb: Sandbox, wants: seq<LockRepo>, w: World)
    ensures ResetUpTo(true, sb, wants, 0, w, w)
  {
  }

  /** What a reset leaves when requests fail is what one leaves that was killed. */
  lemma LeftIsKilled(sb: Sandbox, want: LockRepo, was: Repo, now: Repo)
    requires ResetLeft(sb, want, was, now)
    ensures now == was || Killed(sb, want, was, now)
  {
    hide ReportsDrift, Run, RunOn, ResetSteps;
    if now != was {
      var s :| Reports(sb, want, Some(was), s) && s.guards == [] && s.drift != []
               && CutShort(sb.caps, ResetSteps(s), was, now);
      var n :| 0 <= n <= |ResetSteps(s)| && Run(sb.caps, ResetSteps(s)[..n], was).repo == now;
      var applies := seq(n, _ => false);
      assert ResetSteps(s)[..|applies|] == ResetSteps(s)[..n];
      RunOnTheSlowestForge(sb.caps, ResetSteps(s)[..n], was);
      assert Reset.KilledAt(sb, want, was, now, s, applies);
    }
  }

  /** Two repositories that differ in nothing but their protections. */
  ghost predicate SameButRules(a: Repo, b: Repo) {
    Unruled(Canonical(a)) == Unruled(Canonical(b))
  }

  /**
   * However the requests of one reset failed, the next that is answered finishes a repository it
   * can read: it ends where an undisturbed reset of what was there at first would have left it,
   * protections aside if that could not be read. One it cannot read it opens, keeping the target.
   */
  lemma NextResetFinishes(sb: Sandbox, want: LockRepo, was: Repo, mid: Repo, now: Repo)
    requires WellFormed(want) && GuardFree(sb, want, was) && Undisturbed(want, was)
    requires ResetLeft(sb, want, was, mid) && ResetLeft(sb, want, mid, now) && ResetDone(sb, want, mid, now)
    ensures !Blind(sb, was) ==> Canonical(now) == Canonical(Target(sb, want, was))
    ensures !Blind(sb, mid) ==> SameButRules(now, Target(sb, want, was))
    ensures Blind(sb, mid) && !want.archived ==> Opened(sb, want, was, now)
  {
    hide ResetLeft, Canonical, Target, AtBaseline, GuardFree, WellFormed, Undisturbed, Killed, Unruled;
    LeftIsKilled(sb, want, was, mid);
    if mid != was {
      KillKeepsTarget(sb, want, was, mid);
    }
    SameTargetsSettleAlike(Target(sb, want, mid), Target(sb, want, was));
    if Blind(sb, mid) && Reset.OnTheWay(sb, want, mid) {
      DoneIsNotTouched(sb, want, mid);
      LeftIsKilled(sb, want, mid, now);
      CleanIsTarget(sb, want, mid);
    }
  }

  lemma SameTargetsSettleAlike(a: Repo, b: Repo)
    requires Unruled(a) == Unruled(b)
    ensures SameButRules(a, b)
  {
    assert a == b.(rules := a.rules);
  }

  /** So the one after that finishes whatever is to be readable, wherever the requests failed. */
  lemma TwoMoreResetsFinish(sb: Sandbox, want: LockRepo, was: Repo, mid: Repo, next: Repo, now: Repo)
    requires WellFormed(want) && GuardFree(sb, want, was) && Undisturbed(want, was) && !want.archived
    requires ResetLeft(sb, want, was, mid)
    requires ResetLeft(sb, want, mid, next) && ResetDone(sb, want, mid, next)
    requires ResetLeft(sb, want, next, now) && ResetDone(sb, want, next, now)
    ensures SameButRules(now, Target(sb, want, was))
  {
    hide ResetLeft, Canonical, Target, GuardFree, WellFormed, Undisturbed, Killed, Unruled, SameButRules;
    LeftIsKilled(sb, want, was, mid);
    if mid != was {
      KillKeepsTarget(sb, want, was, mid);
    }
    NextResetFinishes(sb, want, was, mid, next);
    LeftIsKilled(sb, want, mid, next);
    if next != mid {
      KillKeepsTarget(sb, want, mid, next);
    }
    SameTargetsSettleAlike(Target(sb, want, next), Target(sb, want, was));
    assert !Blind(sb, next);
    OnlyRulesDiffer(now, Target(sb, want, next), Target(sb, want, was));
  }

  lemma OnlyRulesDiffer(a: Repo, b: Repo, c: Repo)
    requires Canonical(a) == Canonical(b) && SameButRules(b, c)
    ensures SameButRules(a, c)
  {
  }
}
