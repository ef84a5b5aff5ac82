/** Whole sessions: any commands, with any fleets, in any order, and what none of them ever does. */
module Fleet {
  import opened Text
  import opened ForgeModel
  import opened Compare
  import opened Reset
  import opened Apply
  import opened Names
  import opened ForgeApi
  import opened Requests
  import opened FleetReset
  import opened FleetApply
  import opened FleetDestroy

  /** A plan or a verify only looks; each command carries the fleet it is given. */
  datatype Command =
    | LookAt(wants: seq<LockRepo>)
    | ResetTo(wants: seq<LockRepo>)
    | ApplyTo(wants: seq<LockRepo>, previous: map<string, LockRepo>)
    | DestroyAt(wants: seq<LockRepo>)

  ghost predicate LegalCommand(c: Command) {
    && Legal(c.wants) && (c.ApplyTo? ==> LegalLocks(c.previous))
    && (forall i :: 0 <= i < |c.wants| ==> !("/" <= c.wants[i].name))
  }

  /** Every repository sits in its namespaces, and only what the forge holds is one. */
  ghost predicate Housed(f: Forge, w: World) {
    forall x, ns :: x in w.repos && f.Held(ns) && Inside(ns, x) ==> ns in w.namespaces
  }

  /** What this command may have done to a repository that is not forgelab's to it. */
  ghost predicate SweptBy(f: Forge, c: Command, a: World, x: string) {
    c.DestroyAt? && exists ns :: f.Held(ns) && Roofs(c.wants, ns) && f.Marked(a.namespaces, ns) && Inside(ns, x)
  }

  ghost predicate Spares(f: Forge, sb: Sandbox, c: Command, a: World, b: World) {
    forall x :: Foreign(sb, c.wants, a, x) ==> Kept(a, b, x) || SweptBy(f, c, a, x)
  }

  lemma ResetSpares(f: Forge, sb: Sandbox, c: Command, a: World, b: World)
    requires ResetLeaves(sb, c.wants, a, b)
    ensures Spares(f, sb, c, a, b)
  {
    hide Inside;
    forall x | Foreign(sb, c.wants, a, x) ensures Kept(a, b, x) {
      if Declares(c.wants, x) {
        var i :| 0 <= i < |c.wants| && c.wants[i].name == x;
        NotOursIsLeftAlone(sb, c.wants[i], a.repos[x], b.repos[x]);
      }
    }
  }

  lemma NotOursIsLeftAlone(sb: Sandbox, want: LockRepo, was: Repo, now: Repo)
    requires ResetLeft(sb, want, was, now) && !IsOurs(sb, was)
    ensures now == was
  {
  }

  lemma ApplySpares(f: Forge, sb: Sandbox, c: Command, a: World, b: World)
    requires ApplyLeaves(f, sb, c.wants, |c.wants|, a, b)
    ensures Spares(f, sb, c, a, b)
  {
    hide Inside, Declares, IsOurs;
  }

  lemma DestroySpares(f: Forge, sb: Sandbox, c: Command, doomed: seq<string>, a: World, b: World)
    requires c.DestroyAt? && DestroyLeaves(f, sb, c.wants, doomed, a, b)
    requires forall ns :: ns in doomed <==> f.Held(ns) && Roofs(c.wants, ns)
    ensures Spares(f, sb, c, a, b)
  {
    hide Inside, Foreign, Roofs, Kept;
  }

  /** What a command that says all is well has come to: the fleet as the lock has it, or gone. */
  ghost predicate Accomplished(f: Forge, sb: Sandbox, c: Command, a: World, b: World) {
    if c.DestroyAt? then
      f.truthful ==> forall x :: Declares(c.wants, x) && x in a.repos && IsOurs(sb, a.repos[x]) ==> x !in b.repos
    else AllClean(sb, c.wants, b)
  }

  /** Where a forge that answers truly lets a command say so. */
  ghost predicate Clear(sb: Sandbox, c: Command, w: World) {
    match c
    case LookAt(wants) => AllClean(sb, wants, w)
    case ResetTo(wants) => !AnyGuard(sb, wants, w) && AllReadable(sb, wants, w)
    case ApplyTo(wants, _) => AllNew(wants, w)
    case DestroyAt(_) => true
  }

  /** One command, whichever: it spares what is not declared or not marked, and says truly how it went. */
  method Execute(f: Forge, sb: Sandbox, c: Command, took: nat -> nat) returns (well: bool)
    requires LegalCommand(c) && f.caps == sb.caps
    modifies f
    ensures Spares(f, sb, c, old(f.world), f.world)
    ensures well ==> Accomplished(f, sb, c, old(f.world), f.world)
    ensures f.reliable && f.truthful && Clear(sb, c, old(f.world)) ==> well
  {
    hide Spares, ResetLeaves, ApplyLeaves, DestroyLeaves, Roofs, AllClean, AnyGuard, AllReadable, AllNew, IsOurs;
    hide NoneFailed, Cleared, DeletedIn, RemovesInOrder, EachLookedUp, EachAttempted, EachListed, EachResetDone;
    hide AllAchieved, AllWritten, ApplicableUpTo, ApplyDoneUpTo, AllAnswered, Hindered, OnlyRead, AllSound;
    ghost var before := f.world;
    match c
    case LookAt(wants) =>
      well := Verify(f, sb, wants, took);
      NothingLeftToReset(sb, wants, before);
      ResetSpares(f, sb, c, before, f.world);
    case ResetTo(wants) =>
      var verdict := ResetAll(f, sb, wants, took);
      well := verdict == Fine;
      ResetSpares(f, sb, c, before, f.world);
    case ApplyTo(wants, previous) =>
      var verdict, _ := ApplyAll(f, sb, wants, previous, took);
      well := verdict == Fine;
      ApplySpares(f, sb, c, before, f.world);
    case DestroyAt(wants) =>
      var _, all, doomed := DestroyAll(f, sb, wants, took);
      well := all;
      DestroySpares(f, sb, c, doomed, before, f.world);
  }

  /** Not forgelab's to any of the commands. */
  predicate ForeignToAll(sb: Sandbox, commands: seq<Command>, a: World, x: string) {
    x in a.repos && (!IsOurs(sb, a.repos[x]) || forall k :: 0 <= k < |commands| ==> !Declares(commands[k].wants, x))
  }

  ghost predicate SweptInAll(f: Forge, commands: seq<Command>, a: World, x: string) {
    exists k :: 0 <= k < |commands| && SweptBy(f, commands[k], a, x)
  }

  lemma SpareOneMore(f: Forge, sb: Sandbox, commands: seq<Command>, n: nat, a: World, b: World, c: World, x: string)
    requires n < |commands| && Housed(f, a) && Spares(f, sb, commands[n], b, c)
    requires ForeignToAll(sb, commands, a, x)
    requires Kept(a, b, x) || SweptInAll(f, commands[..n], a, x)
    ensures Kept(a, c, x) || SweptInAll(f, commands[..n + 1], a, x)
  {
    hide Inside, Roofs;
    if SweptInAll(f, commands[..n], a, x) {
      var k :| 0 <= k < n && SweptBy(f, commands[..n][k], a, x);
      assert commands[..n + 1][k] == commands[..n][k];
    } else {
      assert Foreign(sb, commands[n].wants, b, x);
      if SweptBy(f, commands[n], b, x) {
        var ns :| f.Held(ns) && Roofs(commands[n].wants, ns) && f.Marked(b.namespaces, ns) && Inside(ns, x);
        assert ns in a.namespaces;
        assert SweptBy(f, commands[n], a, x);
        assert commands[..n + 1][n] == commands[n];
      }
    }
  }

  /**
   * The frame of whole sessions: whatever commands run, in whatever order, with whatever fleets and
   * locks, on a forge that may miss reads and fail writes, a repository that is undeclared or does
   * not carry the marker ends exactly as it began, unless it sat in a namespace that carried
   * forgelab's marker from the start and that a destroy of its own fleet removed.
   */
  method Session(f: Forge, sb: Sandbox, commands: seq<Command>, took: nat -> nat)
    requires f.caps == sb.caps && Housed(f, f.world)
    requires forall k :: 0 <= k < |commands| ==> LegalCommand(commands[k])
    modifies f
    ensures forall x :: ForeignToAll(sb, commands, old(f.world), x) ==>
      Kept(old(f.world), f.world, x) || SweptInAll(f, commands, old(f.world), x)
  {
    hide Kept, Spares, Housed, SweptInAll, ForeignToAll, LegalCommand;
    ghost var before := f.world;
    forall x | ForeignToAll(sb, commands, before, x) ensures Kept(before, f.world, x) {
      KeptAtFirst(sb, commands, before, x);
    }
    for n := 0 to |commands|
      invariant forall x :: ForeignToAll(sb, commands, before, x) ==>
        Kept(before, f.world, x) || SweptInAll(f, commands[..n], before, x)
    {
      ghost var mid := f.world;
      var _ := Execute(f, sb, commands[n], took);
      forall x | ForeignToAll(sb, commands, before, x)
        ensures Kept(before, f.world, x) || SweptInAll(f, commands[..n + 1], before, x)
      {
        SpareOneMore(f, sb, commands, n, before, mid, f.world, x);
      }
    }
    assert commands[..|commands|] == commands;
  }

  lemma KeptAtFirst(sb: Sandbox, commands: seq<Command>, a: World, x: string)
    requires ForeignToAll(sb, commands, a, x)
    ensures Kept(a, a, x)
  {
  }
}
