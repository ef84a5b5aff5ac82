/** destroy over a whole fleet: the marked repositories, and the marked namespaces with all they hold. */
module FleetDestroy {
  import opened Helpers
  import opened Text
  import opened ForgeModel
  import opened Compare
  import opened Names
  import opened ForgeApi
  import opened Requests
  import opened Creating
  import opened FleetReset

  /** A repository that is exactly as it was, in namespaces that are exactly as they were. */
  ghost predicate Kept(a: World, b: World, n: string) {
    && n in a.repos && n in b.repos && b.repos[n] == a.repos[n]
    && (forall ns :: ns in a.namespaces && Inside(ns, n) ==> ns in b.namespaces && b.namespaces[ns] == a.namespaces[ns])
  }

  /** It sat in a namespace that carried forgelab's marker and was on the list of a destroy. */
  ghost predicate Swept(f: Forge, a: World, doomed: seq<string>, n: string) {
    exists ns :: ns in doomed && f.Marked(a.namespaces, ns) && Inside(ns, n)
  }

  // ------------------------------------------------------------ destroy

  /** A declared name sits in this namespace. */
  ghost predicate Roofs(wants: seq<LockRepo>, ns: string) {
    exists i :: 0 <= i < |wants| && Inside(ns, wants[i].name)
  }

  /** Nothing is new, nothing has changed, and what is gone and was not forgelab's went with a namespace. */
  ghost predicate DestroyLeaves(f: Forge, sb: Sandbox, wants: seq<LockRepo>, doomed: seq<string>, a: World, b: World) {
    && (forall x :: x in b.repos ==> x in a.repos && b.repos[x] == a.repos[x])
    && (forall ns :: ns in b.namespaces ==> ns in a.namespaces && b.namespaces[ns] == a.namespaces[ns])
    && (forall x :: Foreign(sb, wants, a, x) ==> Kept(a, b, x) || Swept(f, a, doomed, x))
  }

  lemma DeletingOursLeaves(f: Forge, sb: Sandbox, wants: seq<LockRepo>, a: World, b: World, c: World, i: nat)
    requires i < |wants| && DestroyLeaves(f, sb, wants, [], a, b)
    requires wants[i].name in a.repos ==> IsOurs(sb, a.repos[wants[i].name])
    requires c.namespaces == b.namespaces && (c.repos == b.repos || c.repos == b.repos - {wants[i].name})
    ensures DestroyLeaves(f, sb, wants, [], a, c)
  {
    hide IsOurs;
    assert Declares(wants, wants[i].name);
    forall x | Foreign(sb, wants, a, x) ensures Kept(a, c, x) {
      assert Kept(a, b, x) || Swept(f, a, [], x);
    }
  }

  lemma RemovalSweeps(f: Forge, a: World, b: World, c: World, ns: string, x: string)
    requires Kept(a, b, x) && f.Marked(b.namespaces, ns) && c == f.Without(b, ns)
    requires ns in a.namespaces && a.namespaces[ns] == b.namespaces[ns]
    ensures if Inside(ns, x) then f.Marked(a.namespaces, ns) else Kept(a, c, x)
  {
    if !Inside(ns, x) {
      forall n2 | n2 in a.namespaces && Inside(n2, x) ensures n2 in c.namespaces {
        if ns != "" && Above(ns, n2) {
          AboveIsTransitive(ns, n2, x);
        }
      }
    }
  }

  lemma RemovalLeaves(f: Forge, sb: Sandbox, wants: seq<LockRepo>, doomed: seq<string>, a: World, b: World, c: World,
        ns: string)
    requires DestroyLeaves(f, sb, wants, doomed, a, b)
    requires c == b || (f.Marked(b.namespaces, ns) && c == f.Without(b, ns))
    ensures DestroyLeaves(f, sb, wants, doomed + [ns], a, c)
  {
    hide Kept, Inside, Foreign;
    forall x | Foreign(sb, wants, a, x) ensures Kept(a, c, x) || Swept(f, a, doomed + [ns], x) {
      if Swept(f, a, doomed, x) {
        var n2 :| n2 in doomed && f.Marked(a.namespaces, n2) && Inside(n2, x);
        assert n2 in doomed + [ns];
      } else if c != b {
        RemovalSweeps(f, a, b, c, ns, x);
        assert ns in doomed + [ns];
      }
    }
  }

  function NamesOf(wants: seq<LockRepo>): (names: seq<string>)
    ensures |names| == |wants| && forall i :: 0 <= i < |wants| ==> names[i] == wants[i].name
  {
    seq(|wants|, i requires 0 <= i < |wants| => wants[i].name)
  }

  /** The declared repositories that were found, and found to carry the marker. */
  method Targets(f: Forge, sb: Sandbox, wants: seq<LockRepo>, took: nat -> nat)
    returns (answered: bool, targets: seq<bool>)
    modifies f`log
    ensures |targets| == |wants| && (f.truthful ==> answered)
    ensures TargetsUpTo(f, sb, wants, targets, |wants|, old(f.log))
    ensures OnlyRead(old(f.log), f.log) && old(f.log) <= f.log && (answered <==> AllAnswered(old(f.log), f.log))
    ensures EachLookedUp(wants, old(f.log), f.log)
  {
    hide IsOurs, AllAnswered, LookClock, FoundIn, LookedUp;
    answered, targets := true, [];
    NothingLookedUp(wants, f.log);
    NothingFound(f.log);
    for i := 0 to |wants|
      invariant |targets| == i && (f.truthful ==> answered)
      invariant TargetsUpTo(f, sb, wants, targets, i, old(f.log))
      invariant OnlyRead(old(f.log), f.log) && old(f.log) <= f.log && (answered <==> AllAnswered(old(f.log), f.log))
      invariant forall j :: 0 <= j < i ==> LookedUp(old(f.log), f.log, wants[j].name)
    {
      ghost var before := f.log;
      ghost var looks;
      var ok, live, now;
      ok, live, looks, now := GetConfirmed(f, wants[i].name, took);
      ReadOn(old(f.log), before, looks);
      LooksTell(old(f.log), before, looks, wants[i].name, ok, live.Some?);
      FoundOnlyNow(old(f.log), before, looks, wants[i].name, ok, live.Some?);
      StillLookedUp(wants, i, old(f.log), before, f.log);
      answered, targets := answered && ok, targets + [live.Some? && IsOurs(sb, live.value)];
    }
  }

  /** Of the first `n`, exactly those that were found, and found to carry the marker. */
  ghost predicate TargetsUpTo(f: Forge, sb: Sandbox, wants: seq<LockRepo>, targets: seq<bool>, n: nat, log: seq<Event>)
    reads f
  {
    && n <= |wants| && n <= |targets|
    && (forall i :: 0 <= i < n && targets[i] ==>
          wants[i].name in f.world.repos && IsOurs(sb, f.world.repos[wants[i].name]))
    && (forall x :: FoundIn(log, f.log, x) && x in f.world.repos && IsOurs(sb, f.world.repos[x]) ==>
          Targeted(wants, targets, n, x))
    && (f.truthful ==> forall i :: 0 <= i < n && wants[i].name in f.world.repos ==>
          FoundIn(log, f.log, wants[i].name))
  }

  predicate Targeted(wants: seq<LockRepo>, targets: seq<bool>, n: nat, x: string) {
    exists i :: 0 <= i < n && i < |wants| && i < |targets| && targets[i] && wants[i].name == x
  }

  /** Between these two logs the forge was asked to delete this repository. */
  ghost predicate DeletedIn(a: seq<Event>, b: seq<Event>, name: string) {
    a <= b && exists k :: |a| <= k < |b| && Deletes(b[k], name)
  }

  predicate Deletes(e: Event, name: string) {
    e.Deleting? && e.name == name
  }

  lemma DeletedWithin(a: seq<Event>, b: seq<Event>, c: seq<Event>, d: seq<Event>, name: string)
    requires a <= b && DeletedIn(b, c, name) && c <= d
    ensures DeletedIn(a, d, name)
  {
    var k :| |b| <= k < |c| && Deletes(c[k], name);
    assert Deletes(d[k], name);
  }

  /** Each of them is asked for, one that cannot be deleted or not. */
  method DeleteTargets(f: Forge, sb: Sandbox, wants: seq<LockRepo>, targets: seq<bool>) returns (all: bool)
    requires |targets| == |wants|
    requires forall i :: 0 <= i < |wants| && targets[i] ==>
      wants[i].name in f.world.repos && IsOurs(sb, f.world.repos[wants[i].name])
    modifies f
    ensures DestroyLeaves(f, sb, wants, [], old(f.world), f.world)
    ensures f.reliable ==> all
    ensures all ==> forall i :: 0 <= i < |wants| && targets[i] ==> wants[i].name !in f.world.repos
    ensures forall i :: 0 <= i < |wants| && targets[i] ==> DeletedIn(old(f.log), f.log, wants[i].name)
    ensures NoLooks(old(f.log), f.log) && (all <==> NoneFailed(old(f.log), f.log))
    ensures f.world.namespaces == old(f.world.namespaces)
  {
    hide DestroyLeaves, IsOurs, DeletedIn, NoneFailed;
    ghost var before := f.world;
    NothingDestroyed(f, sb, wants, before, f.log);
    all := true;
    for i := 0 to |wants|
      invariant DestroyLeaves(f, sb, wants, [], before, f.world)
      invariant f.reliable ==> all
      invariant all ==> forall j :: 0 <= j < i && targets[j] ==> wants[j].name !in f.world.repos
      invariant forall j :: 0 <= j < i && targets[j] ==> DeletedIn(old(f.log), f.log, wants[j].name)
      invariant NoLooks(old(f.log), f.log) && (all <==> NoneFailed(old(f.log), f.log))
      invariant f.world.namespaces == before.namespaces
    {
      if targets[i] {
        ghost var mid, log := f.world, f.log;
        var ok := f.Delete(wants[i].name);
        DeletingOursLeaves(f, sb, wants, before, mid, f.world, i);
        NoneFailedBut(old(f.log), log, Deleting(wants[i].name, ok));
        DeletedOneMore(wants, targets, i, old(f.log), log, f.log);
        all := all && ok;
      }
    }
  }

  lemma DeletedOneMore(wants: seq<LockRepo>, targets: seq<bool>, n: nat, a: seq<Event>, b: seq<Event>, c: seq<Event>)
    requires n < |wants| == |targets| && a <= b < c && Deletes(c[|b|], wants[n].name)
    requires forall j :: 0 <= j < n && targets[j] ==> DeletedIn(a, b, wants[j].name)
    ensures forall j :: 0 <= j <= n && targets[j] ==> DeletedIn(a, c, wants[j].name)
  {
    forall j | 0 <= j <= n && targets[j] ensures DeletedIn(a, c, wants[j].name) {
      if j < n {
        DeletedWithin(a, a, b, c, wants[j].name);
      }
    }
  }

  lemma NothingDestroyed(f: Forge, sb: Sandbox, wants: seq<LockRepo>, w: World, log: seq<Event>)
    ensures DestroyLeaves(f, sb, wants, [], w, w) && NoneFailed(log, log) && Emptied(w, w)
  {
  }

  lemma DoomedAreRoofs(f: Forge, wants: seq<LockRepo>, doomed: seq<string>)
    requires UsesHome(NamesOf(wants), f.home) ==> |doomed| > 0 && doomed[|doomed| - 1] == ""
    requires AreDoomed(NamesOf(wants), f.depth,
                       if UsesHome(NamesOf(wants), f.home) then doomed[..|doomed| - 1] else doomed)
    requires forall i :: 0 <= i < |wants| ==> !("/" <= wants[i].name)
    ensures forall ns :: ns in doomed <==> f.Held(ns) && Roofs(wants, ns)
  {
    var names := NamesOf(wants);
    var namespaces := if UsesHome(names, f.home) then doomed[..|doomed| - 1] else doomed;
    assert doomed == if UsesHome(names, f.home) then namespaces + [""] else namespaces;
    forall ns ensures ns in namespaces <==> ns != "" && f.Held(ns) && Roofs(wants, ns) {
      if ns in namespaces {
        var n :| n in names && Above(ns, n);
        var i :| 0 <= i < |names| && names[i] == n;
        assert !("/" <= wants[i].name) && Inside(ns, wants[i].name);
      }
      if ns != "" && f.Held(ns) && Roofs(wants, ns) {
        var i :| 0 <= i < |wants| && Inside(ns, wants[i].name);
        assert names[i] in names;
      }
    }
    HomeIsARoof(f, wants);
  }

  lemma HomeIsARoof(f: Forge, wants: seq<LockRepo>)
    ensures UsesHome(NamesOf(wants), f.home) <==> f.Held("") && Roofs(wants, "")
  {
    var names := NamesOf(wants);
    if UsesHome(names, f.home) {
      var n :| n in names && '/' !in n;
      var i :| 0 <= i < |names| && names[i] == n;
      assert Inside("", wants[i].name);
    }
    if Roofs(wants, "") {
      var i :| 0 <= i < |wants| && Inside("", wants[i].name);
      assert names[i] in names;
    }
  }

  /** A namespace that is gone took all it held with it. */
  ghost predicate Emptied(a: World, b: World) {
    forall ns :: ns in a.namespaces ==>
      (ns in b.namespaces && b.namespaces[ns] == a.namespaces[ns]) || forall x :: x in b.repos ==> !Inside(ns, x)
  }

  lemma RemovalEmpties(f: Forge, a: World, b: World, c: World, ns: string)
    requires Emptied(a, b) && (c == b || c == f.Without(b, ns))
    ensures Emptied(a, c)
  {
    forall n2 | n2 in a.namespaces && n2 !in c.namespaces ensures forall x :: x in c.repos ==> !Inside(n2, x) {
      if n2 in b.namespaces && n2 != ns {
        forall x | x in c.repos ensures !Inside(n2, x) {
          if Inside(n2, x) {
            AboveIsTransitive(ns, n2, x);
          }
        }
      }
    }
  }

  /** The requests between these two logs remove these namespaces, in this order. */
  predicate RemovesInOrder(a: seq<Event>, b: seq<Event>, namespaces: seq<string>) {
    && a <= b && |b| == |a| + |namespaces|
    && forall i :: 0 <= i < |namespaces| ==> Removes(b, |a|, i, namespaces[i])
  }

  predicate Removes(log: seq<Event>, at: nat, i: nat, ns: string) {
    at + i < |log| && log[at + i].Removing? && log[at + i].name == ns
  }

  /** Outermost first, each kept unless it carries the marker, and one that cannot be removed or not. */
  method RemoveNamespaces(f: Forge, sb: Sandbox, wants: seq<LockRepo>, namespaces: seq<string>, ghost before: World)
    returns (all: bool)
    requires DestroyLeaves(f, sb, wants, [], before, f.world) && Emptied(before, f.world)
    modifies f
    ensures DestroyLeaves(f, sb, wants, namespaces, before, f.world) && Emptied(before, f.world)
    ensures forall x :: x in f.world.repos ==> x in old(f.world).repos
    ensures f.reliable ==> all
    ensures all ==> forall ns :: ns in namespaces ==> !f.Marked(f.world.namespaces, ns)
    ensures RemovesInOrder(old(f.log), f.log, namespaces) && (all <==> NoneFailed(old(f.log), f.log))
  {
    hide DestroyLeaves, Emptied, NoneFailed;
    all := true;
    NothingDestroyed(f, sb, wants, f.world, f.log);
    for i := 0 to |namespaces|
      invariant DestroyLeaves(f, sb, wants, namespaces[..i], before, f.world) && Emptied(before, f.world)
      invariant forall x :: x in f.world.repos ==> x in old(f.world).repos
      invariant f.reliable ==> all
      invariant all ==> forall ns :: ns in namespaces[..i] ==> !f.Marked(f.world.namespaces, ns)
      invariant RemovesInOrder(old(f.log), f.log, namespaces[..i]) && (all <==> NoneFailed(old(f.log), f.log))
    {
      ghost var mid, log := f.world, f.log;
      var ok := f.DeleteNamespace(namespaces[i]);
      RemovalLeaves(f, sb, wants, namespaces[..i], before, mid, f.world, namespaces[i]);
      RemovalEmpties(f, before, mid, f.world, namespaces[i]);
      NoneFailedBut(old(f.log), log, Removing(namespaces[i], ok));
      assert namespaces[..i + 1] == namespaces[..i] + [namespaces[i]];
      all := all && ok;
    }
    assert namespaces[..|namespaces|] == namespaces;
  }

  /**
   * Destroy deletes the declared repositories that carry the marker, and the marked namespaces they
   * sat in with all they hold; nothing else goes. All that can go is asked to, whatever becomes of the
   * rest, and all is well exactly if nothing failed; then they are gone. A lookup without an answer
   * ends it before the first.
   */
  method DestroyAll(f: Forge, sb: Sandbox, wants: seq<LockRepo>, took: nat -> nat)
    returns (answered: bool, all: bool, ghost doomed: seq<string>)
    requires forall i :: 0 <= i < |wants| ==> !("/" <= wants[i].name)
    modifies f
    ensures DestroyLeaves(f, sb, wants, doomed, old(f.world), f.world)
    ensures forall ns :: ns in doomed <==> f.Held(ns) && Roofs(wants, ns)
    ensures !answered ==> !all && f.world == old(f.world) && OnlyRead(old(f.log), f.log)
    ensures answered <==> AllAnswered(old(f.log), f.log)
    ensures EachLookedUp(wants, old(f.log), f.log)
    ensures f.truthful ==> answered
    ensures f.reliable && answered ==> all
    ensures all <==> answered && NoneFailed(old(f.log), f.log)
    ensures answered ==>
      forall x :: Findable(f, sb, wants, old(f.world), old(f.log), f.log, x) ==> DeletedIn(old(f.log), f.log, x)
    ensures answered ==> exists deleted :: old(f.log) <= deleted && RemovesInOrder(deleted, f.log, doomed)
    ensures all ==>
      forall x :: Findable(f, sb, wants, old(f.world), old(f.log), f.log, x) ==> x !in f.world.repos
    ensures all ==> forall ns :: ns in doomed ==> Cleared(f, old(f.world), f.world, ns)
  {
    hide DestroyLeaves, IsOurs, AreDoomed, Roofs, AllAnswered, NoneFailed, DeletedIn, EachLookedUp, OnlyRead;
    hide Emptied, TargetsUpTo, RemovesInOrder, Findable, FoundIn;
    ghost var before, start := f.world, f.log;
    var targets;
    answered, targets := Targets(f, sb, wants, took);
    var namespaces := DoomedNamespaces(NamesOf(wants), f.depth, f.home);
    DoomedAreRoofs(f, wants, namespaces);
    TargetsAreOurs(f, sb, wants, targets, start);
    ghost var looked := f.log;
    if !answered {
      NothingGone(f, sb, wants, namespaces, before);
      return false, false, namespaces;
    }
    all := DeleteTargets(f, sb, wants, targets);
    ghost var deleted, left := f.log, f.world;
    NothingEmptied(before, left);
    var removed := RemoveNamespaces(f, sb, wants, namespaces, before);
    doomed := namespaces;
    RemovalsLookUpNothing(deleted, f.log, doomed);
    DestroyTells(f, sb, wants, targets, before, start, looked, deleted, f.log);
    if all && removed {
      TargetsAreGone(wants, targets, left, f.world);
      ClearedWhenEmptied(f, before, f.world, doomed);
    }
    all := all && removed;
  }

  /** Declared, forgelab's, and found by the command or, on a forge that misses none, sure to be. */
  ghost predicate Findable(f: Forge, sb: Sandbox, wants: seq<LockRepo>, w: World, a: seq<Event>, b: seq<Event>,
        x: string)
  {
    && Declares(wants, x) && x in w.repos && IsOurs(sb, w.repos[x])
    && (f.truthful || FoundIn(a, b, x))
  }

  /** No longer marked; and if it was, nothing is in it any more. */
  ghost predicate Cleared(f: Forge, a: World, b: World, ns: string) {
    && !f.Marked(b.namespaces, ns)
    && (f.Marked(a.namespaces, ns) ==> forall x :: x in b.repos ==> !Inside(ns, x))
  }

  lemma TargetsAreOurs(f: Forge, sb: Sandbox, wants: seq<LockRepo>, targets: seq<bool>, log: seq<Event>)
    requires TargetsUpTo(f, sb, wants, targets, |wants|, log) && |targets| == |wants|
    ensures forall i :: 0 <= i < |wants| && targets[i] ==>
      wants[i].name in f.world.repos && IsOurs(sb, f.world.repos[wants[i].name])
    ensures forall x :: Findable(f, sb, wants, f.world, log, f.log, x) ==> Targeted(wants, targets, |wants|, x)
  {
    hide IsOurs, FoundIn;
  }

  lemma NothingEmptied(a: World, b: World)
    requires b.namespaces == a.namespaces
    ensures Emptied(a, b)
  {
  }

  lemma RemovalsLookUpNothing(a: seq<Event>, b: seq<Event>, namespaces: seq<string>)
    requires RemovesInOrder(a, b, namespaces)
    ensures NoLooks(a, b)
  {
    forall k | |a| <= k < |b| ensures !b[k].Looked? {
      assert Removes(b, |a|, k - |a|, namespaces[k - |a|]);
    }
  }

  /** From the targets to the whole command: what was asked of the forge, and how it went. */
  lemma DestroyTells(f: Forge, sb: Sandbox, wants: seq<LockRepo>, targets: seq<bool>, w: World, a: seq<Event>,
        b: seq<Event>, c: seq<Event>, d: seq<Event>)
    requires OnlyRead(a, b) && a <= b && NoLooks(b, c) && NoLooks(c, d) && |targets| == |wants|
    requires forall x :: Findable(f, sb, wants, w, a, b, x) ==> Targeted(wants, targets, |wants|, x)
    requires forall i :: 0 <= i < |wants| && targets[i] ==> DeletedIn(b, c, wants[i].name)
    ensures AllAnswered(a, d) <==> AllAnswered(a, b)
    ensures EachLookedUp(wants, a, b) ==> EachLookedUp(wants, a, d)
    ensures NoneFailed(a, d) <==> NoneFailed(b, c) && NoneFailed(c, d)
    ensures forall x :: Findable(f, sb, wants, w, a, d, x) ==>
      Findable(f, sb, wants, w, a, b, x) && Targeted(wants, targets, |wants|, x) && DeletedIn(a, d, x)
  {
    hide IsOurs;
    WithoutLooks(wants, a, b, c);
    WithoutLooks(wants, a, c, d);
    ReadingFailsNothing(a, b);
    NoneFailedOn(a, b, d);
    NoneFailedOn(b, c, d);
    forall x | Findable(f, sb, wants, w, a, d, x) ensures Findable(f, sb, wants, w, a, b, x) && DeletedIn(a, d, x) {
      assert FoundIn(a, d, x) <==> FoundIn(a, b, x);
      assert Targeted(wants, targets, |wants|, x);
      DeletedWithin(a, b, c, d, x);
    }
  }

  lemma ClearedWhenEmptied(f: Forge, a: World, b: World, doomed: seq<string>)
    requires Emptied(a, b) && forall ns :: ns in doomed ==> !f.Marked(b.namespaces, ns)
    ensures forall ns :: ns in doomed ==> Cleared(f, a, b, ns)
  {
    hide Inside;
  }

  lemma TargetsAreGone(wants: seq<LockRepo>, targets: seq<bool>, b: World, c: World)
    requires |targets| == |wants|
    requires forall i :: 0 <= i < |wants| && targets[i] ==> wants[i].name !in b.repos
    requires forall x :: x in c.repos ==> x in b.repos
    ensures forall x :: Targeted(wants, targets, |wants|, x) ==> x !in c.repos
  {
  }

  lemma NothingGone(f: Forge, sb: Sandbox, wants: seq<LockRepo>, doomed: seq<string>, w: World)
    ensures DestroyLeaves(f, sb, wants, doomed, w, w)
  {
  }
}
