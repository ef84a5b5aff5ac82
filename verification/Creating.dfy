/** Creating a repository without taking the forge's first word for a failure that may not be one. */
module Creating {
  import opened Helpers
  import opened Text
  import opened ForgeModel
  import opened Compare
  import opened Names
  import opened ForgeApi
  import opened Requests

  datatype Result = Done | NeverAdopts | Failed

  function Creates(log: seq<Event>): nat {
    if log == [] then 0 else Creates(log[..|log| - 1]) + if log[|log| - 1].Sent? then 1 else 0
  }

  lemma CreatesOneMore(log: seq<Event>, e: Event)
    ensures Creates(log + [e]) == Creates(log) + if e.Sent? then 1 else 0
  {
    assert (log + [e])[..|log|] == log;
  }

  lemma {:induction false} LooksCreateNothing(log: seq<Event>, looks: seq<Event>)
    requires forall k :: 0 <= k < |looks| ==> !looks[k].Sent?
    ensures Creates(log + looks) == Creates(log)
  {
    if looks == [] {
      assert log + looks == log;
    } else {
      var n := |looks| - 1;
      assert log + looks == (log + looks[..n]) + [looks[n]];
      CreatesOneMore(log + looks[..n], looks[n]);
      LooksCreateNothing(log, looks[..n]);
    }
  }

  /** No create but the first is sent without a lookup just before it that found nothing. */
  predicate NeverBlind(log: seq<Event>) {
    forall k :: 0 < k < |log| && log[k].Sent? ==> FoundNothing(log[k - 1])
  }

  predicate WritesNothing(log: seq<Event>) {
    forall k :: 0 <= k < |log| ==> log[k].Sent? || log[k].Looked?
  }

  /**
   * What must follow the k-th request: after a conflict, and after a failure that may pass unless it
   * was the fifth, a lookup; after one such lookup that found nothing, another create.
   */
  predicate Presses(log: seq<Event>, k: nat)
    requires k < |log|
  {
    && (log[k].Sent? && (log[k].answer == Conflict || (log[k].answer == Transient && Creates(log[..k + 1]) < 5)) ==>
          k + 1 < |log| && log[k + 1].Looked?)
    && (k > 0 && log[k - 1].Sent? && log[k - 1].answer == Transient && FoundNothing(log[k]) ==>
          k + 1 < |log| && log[k + 1].Sent?)
  }

  predicate PressesOn(log: seq<Event>) {
    forall k :: 0 <= k < |log| ==> Presses(log, k)
  }

  /** As far as it has got: whatever follows the last request is still to come. */
  predicate PressedOn(log: seq<Event>) {
    forall k :: 0 <= k < |log| - 1 ==> Presses(log, k)
  }

  lemma PressesStill(log: seq<Event>, more: seq<Event>, k: nat)
    requires k + 1 < |log| && Presses(log, k)
    ensures Presses(log + more, k)
  {
    assert (log + more)[..k + 1] == log[..k + 1];
  }

  lemma PressedOneMore(log: seq<Event>, e: Event)
    requires PressedOn(log) && (log != [] ==> Presses(log + [e], |log| - 1))
    ensures PressedOn(log + [e])
  {
    hide Presses;
    forall k | 0 <= k < |log| - 1 ensures Presses(log + [e], k) {
      PressesStill(log, [e], k);
    }
  }

  /** The log of a creation so far: `n` creates, none of them blind, none given up early, and no write. */
  predicate SoFar(log: seq<Event>, n: nat) {
    NeverBlind(log) && WritesNothing(log) && Creates(log) == n && PressedOn(log)
  }

  /** The last request was a create, answered so. */
  predicate LastSent(log: seq<Event>, a: Answer) {
    log != [] && log[|log| - 1].Sent? && log[|log| - 1].answer == a
  }

  /** Another create is due: it is the first, or the last lookup found nothing. */
  predicate Due(log: seq<Event>) {
    log == [] || FoundNothing(log[|log| - 1])
  }

  lemma SentOne(log: seq<Event>, n: nat, name: string, a: Answer)
    requires SoFar(log, n) && Due(log)
    ensures SoFar(log + [Sent(name, a)], n + 1)
    ensures LastSent(log + [Sent(name, a)], a)
  {
    CreatesOneMore(log, Sent(name, a));
    PressedOneMore(log, Sent(name, a));
  }

  /** Any number of lookups after a create that was made, or that met a conflict. */
  lemma LookedSome(log: seq<Event>, n: nat, looks: seq<Event>)
    requires SoFar(log, n) && OnlyLooks(looks) && (LastSent(log, Made) || LastSent(log, Conflict))
    ensures SoFar(log + looks, n) && (looks != [] ==> PressesOn(log + looks))
  {
    LooksCreateNothing(log, looks);
    forall k | 0 <= k < |log| - 1 ensures Presses(log + looks, k) {
      PressesStill(log, looks, k);
    }
  }

  /** The one lookup after a failure that may pass. */
  lemma LookedOnce(log: seq<Event>, n: nat, look: Event)
    requires SoFar(log, n) && look.Looked? && LastSent(log, Transient)
    ensures SoFar(log + [look], n) && (!FoundNothing(look) ==> PressesOn(log + [look]))
  {
    CreatesOneMore(log, look);
    PressedOneMore(log, look);
  }

  lemma SentLast(log: seq<Event>, n: nat, a: Answer)
    requires SoFar(log, n) && LastSent(log, a) && (a == Made || a == Fatal || (a == Transient && n == 5))
    ensures PressesOn(log)
  {
    assert log[..|log|] == log;
  }

  lemma WroteOne(log: seq<Event>, n: nat, name: string, step: Step, ok: bool)
    requires SoFar(log, n) && PressesOn(log)
    ensures
      var all := log + [Wrote(name, step, ok)];
      NeverBlind(all) && Creates(all) == n && PressesOn(all)
  {
    CreatesOneMore(log, Wrote(name, step, ok));
    if log != [] {
      assert Presses(log, |log| - 1) && log[..|log|] == log && (log + [Wrote(name, step, ok)])[..|log|] == log;
    }
    PressedOneMore(log, Wrote(name, step, ok));
    forall k | 0 <= k < |log| - 1 ensures Presses(log + [Wrote(name, step, ok)], k) {
      PressesStill(log, [Wrote(name, step, ok)], k);
    }
  }

  /** The last request was a lookup that found it. */
  predicate LastFound(log: seq<Event>, name: string) {
    log != [] && log[|log| - 1].Looked? && log[|log| - 1].name == name && log[|log| - 1].found
  }

  /**
   * What a creation reports is how its last request ended: a create that was made, if a push is to
   * follow, or the lookup that then found it; the topics written to what was there already.
   */
  predicate EndsAs(sent: seq<Event>, want: LockRepo, pushFollows: bool, r: Result) {
    sent != [] &&
    match sent[|sent| - 1]
    case Sent(_, a) => if a == Made then pushFollows && r == Done else r == Failed
    case Looked(n, _, found) =>
      n == want.name && (r == Failed <==> !found) && (r == Done ==> !pushFollows && Sent(want.name, Made) in sent)
    case Wrote(n, step, ok) =>
      && n == want.name && step == SetTopics(want.topics) && LastFound(sent[..|sent| - 1], want.name)
      && r == if ok then Done else Failed
    case _ => false
  }

  /**
   * Asked again, with pauses that double up to a second, until it is found, its time is up, or a read
   * gets no answer. `took(k)` is how long the k-th read takes.
   */
  method GetConfirmed(f: Forge, name: string, took: nat -> nat)
    returns (answered: bool, r: Option<Repo>, ghost looks: seq<Event>, now: nat)
    modifies f`log
    ensures r.Some? ==> answered && name in f.world.repos && r.value == f.world.repos[name]
    ensures f.truthful ==> answered && (name in f.world.repos ==> r.Some?)
    ensures f.log == old(f.log) + looks && OnlyLooks(looks) && |looks| >= 1
    ensures forall k :: 0 <= k < |looks| - 1 ==> FoundNothing(looks[k])
    ensures looks[|looks| - 1] == Looked(name, answered, r.Some?)
    ensures answered && r.None? ==> now >= CONFIRM_DEADLINE
    ensures now == LookClock(CONFIRM_FIRST_PAUSE, took, |looks| - 1)
    ensures forall k :: 0 <= k < |looks| - 1 ==> LookClock(CONFIRM_FIRST_PAUSE, took, k) < CONFIRM_DEADLINE
  {
    hide LookClock, DoubledPause, Min;
    looks, now := [], 0;
    LooksBegin(CONFIRM_FIRST_PAUSE, took);
    var asked, pause := 0, CONFIRM_FIRST_PAUSE;
    while true
      invariant asked == |looks| && pause == DoubledPause(CONFIRM_FIRST_PAUSE, asked)
      invariant now == if asked == 0 then 0
        else LookClock(CONFIRM_FIRST_PAUSE, took, asked - 1) + DoubledPause(CONFIRM_FIRST_PAUSE, asked - 1)
      invariant forall k :: 0 <= k < asked ==> LookClock(CONFIRM_FIRST_PAUSE, took, k) < CONFIRM_DEADLINE
      invariant f.log == old(f.log) + looks && OnlyLooks(looks)
      invariant forall k :: 0 <= k < |looks| ==> FoundNothing(looks[k])
      invariant f.truthful && name in f.world.repos ==> looks == []
      decreases CONFIRM_DEADLINE - now
    {
      LooksGoOn(CONFIRM_FIRST_PAUSE, took, asked);
      now := now + took(asked);
      answered, r := f.Get(name);
      asked := asked + 1;
      looks := looks + [Looked(name, answered, r.Some?)];
      if !answered || r.Some? || now >= CONFIRM_DEADLINE {
        return;
      }
      now := now + pause;
      pause := Min(2 * pause, LONGEST_PAUSE);
    }
  }

  /** What a creation may have changed of the forge: this repository, and namespaces on the way to it. */
  ghost predicate OnlyThis(f: Forge, sb: Sandbox, name: string, before: World, after: World) {
    && (forall n :: n != name ==> (n in after.repos <==> n in before.repos))
    && (forall n :: n in before.repos && n != name ==> n in after.repos && after.repos[n] == before.repos[n])
    && (forall ns :: ns in before.namespaces ==>
          ns in after.namespaces && after.namespaces[ns] == before.namespaces[ns])
    && (forall ns :: ns in after.namespaces && ns !in before.namespaces ==> f.Held(ns))
    && (name in before.repos ==> name in after.repos)
    && (name in before.repos && !IsOurs(sb, before.repos[name]) ==> after.repos[name] == before.repos[name])
    && (name !in before.repos && name in after.repos ==> IsOurs(sb, after.repos[name]))
  }

  /** What was made is as asked for, its topics perhaps still to come. */
  predicate IsFresh(f: Forge, sb: Sandbox, want: LockRepo, before: World, after: World) {
    want.name !in before.repos && want.name in after.repos ==>
      f.MadeAs(want.visibility, want.topics, sb.marker, after.repos[want.name])
  }

  /** Before the topics: what was there is as it was, and what was made is fresh. */
  ghost predicate Untouched(f: Forge, sb: Sandbox, want: LockRepo, before: World, after: World) {
    && OnlyThis(f, sb, want.name, before, after)
    && (want.name in before.repos ==> after.repos == before.repos)
    && IsFresh(f, sb, want, before, after)
  }

  lemma CreationTouchesNothing(f: Forge, sb: Sandbox, want: LockRepo, before: World, mid: World, after: World)
    requires f.caps == sb.caps && Untouched(f, sb, want, before, mid)
    requires f.Creation(mid, after, want.name, want.visibility, want.topics, sb.marker)
    ensures Untouched(f, sb, want, before, after)
  {
  }

  lemma TopicsTouchOnlyThis(f: Forge, sb: Sandbox, want: LockRepo, before: World, mid: World, after: World)
    requires Untouched(f, sb, want, before, mid) && want.name in mid.repos && IsOurs(sb, mid.repos[want.name])
    requires after.namespaces == mid.namespaces
    requires after.repos == mid.repos
      || after.repos == mid.repos[want.name := Do(sb.caps, SetTopics(want.topics), mid.repos[want.name]).repo]
    ensures OnlyThis(f, sb, want.name, before, after) && IsFresh(f, sb, want, before, after)
    ensures want.name in after.repos && IsOurs(sb, after.repos[want.name])
  {
  }

  lemma UntouchedIsOnlyThis(f: Forge, sb: Sandbox, want: LockRepo, before: World, after: World)
    requires Untouched(f, sb, want, before, after)
    ensures OnlyThis(f, sb, want.name, before, after) && IsFresh(f, sb, want, before, after)
    ensures want.name in before.repos ==> after.repos == before.repos
    ensures want.name !in before.repos && want.name in after.repos ==> IsOurs(sb, after.repos[want.name])
  {
  }

  /** What a creation promises, given what was there before it and the requests it sent. */
  ghost predicate Promises(f: Forge, sb: Sandbox, want: LockRepo, pushFollows: bool, before: World, after: World,
        sent: seq<Event>, r: Result)
  {
    var name := want.name;
    && OnlyThis(f, sb, name, before, after) && IsFresh(f, sb, want, before, after)
    && (r == Done ==> name in after.repos && IsOurs(sb, after.repos[name]))
    && (r == NeverAdopts ==> name in before.repos && !IsOurs(sb, before.repos[name]))
    && NeverBlind(sent) && 1 <= Creates(sent) <= 5 && PressesOn(sent) && EndsAs(sent, want, pushFollows, r)
    && (name in before.repos && !IsOurs(sb, before.repos[name]) ==>
          && r != Done && WritesNothing(sent) && after.repos == before.repos
          && (f.truthful && r == Failed ==> LastSent(sent, Fatal)))
  }

  /** How a creation may end without a write of its own. */
  predicate MayEnd(f: Forge, sb: Sandbox, name: string, before: World, after: World, sent: seq<Event>, r: Result) {
    && (r == Done ==> name in after.repos && (name in before.repos ==> IsOurs(sb, before.repos[name])))
    && (r == NeverAdopts ==> name in before.repos && !IsOurs(sb, before.repos[name]))
    && (f.truthful && name in before.repos && r == Failed ==>
          IsOurs(sb, before.repos[name]) || LastSent(sent, Fatal))
  }

  lemma Ends(f: Forge, sb: Sandbox, want: LockRepo, pushFollows: bool, before: World, after: World, sent: seq<Event>,
        n: nat, r: Result)
    requires Untouched(f, sb, want, before, after) && SoFar(sent, n) && PressesOn(sent) && 1 <= n <= 5
    requires EndsAs(sent, want, pushFollows, r) && MayEnd(f, sb, want.name, before, after, sent, r)
    ensures Promises(f, sb, want, pushFollows, before, after, sent, r)
  {
    hide OnlyThis, NeverBlind, WritesNothing, Creates, PressesOn, EndsAs, IsFresh;
    UntouchedIsOnlyThis(f, sb, want, before, after);
  }

  lemma TopicsEnd(f: Forge, sb: Sandbox, want: LockRepo, pushFollows: bool, before: World, mid: World, after: World,
        sent: seq<Event>, n: nat, ok: bool)
    requires Untouched(f, sb, want, before, mid) && SoFar(sent, n) && PressesOn(sent) && 1 <= n <= 5
    requires LastFound(sent, want.name)
    requires want.name in mid.repos && IsOurs(sb, mid.repos[want.name])
    requires OnlyThis(f, sb, want.name, before, after) && IsFresh(f, sb, want, before, after)
    requires want.name in after.repos && IsOurs(sb, after.repos[want.name])
    ensures Promises(f, sb, want, pushFollows, before, after,
                     sent + [Wrote(want.name, SetTopics(want.topics), ok)], if ok then Done else Failed)
  {
    hide OnlyThis, NeverBlind, WritesNothing, Creates, PressesOn, IsFresh;
    UntouchedIsOnlyThis(f, sb, want, before, mid);
    WroteOne(sent, n, want.name, SetTopics(want.topics), ok);
    assert (sent + [Wrote(want.name, SetTopics(want.topics), ok)])[..|sent|] == sent;
  }

  /** The repository is there after all: ours is finished with its topics, another's is left alone. */
  method Adopt(f: Forge, sb: Sandbox, want: LockRepo, live: Repo, ghost pushFollows: bool, ghost before: World,
        ghost sent: seq<Event>, ghost n: nat)
    returns (r: Result, ghost more: seq<Event>)
    requires f.caps == sb.caps && Untouched(f, sb, want, before, f.world)
    requires want.name in f.world.repos && live == f.world.repos[want.name]
    requires SoFar(sent, n) && PressesOn(sent) && LastFound(sent, want.name) && 1 <= n <= 5
    modifies f
    ensures f.log == old(f.log) + more
    ensures Promises(f, sb, want, pushFollows, before, f.world, sent + more, r)
    ensures !IsOurs(sb, live) <==> r == NeverAdopts
  {
    hide Untouched, OnlyThis, SoFar, Promises, NeverBlind, WritesNothing, Creates, PressesOn;
    if !IsOurs(sb, live) {
      UntouchedIsOnlyThis(f, sb, want, before, f.world);
      Ends(f, sb, want, pushFollows, before, f.world, sent, n, NeverAdopts);
      assert sent + [] == sent;
      return NeverAdopts, [];
    }
    var ok := f.Perform(want.name, SetTopics(want.topics));
    r := if ok then Done else Failed;
    TopicsTouchOnlyThis(f, sb, want, before, old(f.world), f.world);
    TopicsEnd(f, sb, want, pushFollows, before, old(f.world), f.world, sent, n, ok);
    more := [Wrote(want.name, SetTopics(want.topics), ok)];
  }

  /** The forge says that the repository exists after all: it is looked for until it shows, and adopted or left. */
  method AfterConflict(f: Forge, sb: Sandbox, want: LockRepo, took: nat -> nat, ghost pushFollows: bool,
        ghost before: World, ghost sent: seq<Event>, ghost n: nat)
    returns (r: Result, ghost more: seq<Event>)
    requires f.caps == sb.caps && Untouched(f, sb, want, before, f.world)
    requires SoFar(sent, n) && LastSent(sent, Conflict) && 1 <= n <= 5
    modifies f
    ensures f.log == old(f.log) + more
    ensures Promises(f, sb, want, pushFollows, before, f.world, sent + more, r)
    ensures f.truthful && want.name in before.repos && !IsOurs(sb, before.repos[want.name]) ==> r == NeverAdopts
  {
    hide Untouched, OnlyThis, SoFar, Promises, NeverBlind, WritesNothing, Creates, IsOurs, PressesOn;
    UntouchedIsOnlyThis(f, sb, want, before, f.world);
    var answered, live, now;
    answered, live, more, now := GetConfirmed(f, want.name, took);
    LookedSome(sent, n, more);
    assert (sent + more)[|sent + more| - 1] == more[|more| - 1];
    if live.None? {
      Ends(f, sb, want, pushFollows, before, f.world, sent + more, n, Failed);
      return Failed, more;
    }
    ghost var rest;
    r, rest := Adopt(f, sb, want, live.value, pushFollows, before, sent + more, n);
    assert sent + (more + rest) == sent + more + rest;
    more := more + rest;
  }

  /** Made, and pushed to next: the push will tell whether it is there. */
  lemma MadeEnds(f: Forge, sb: Sandbox, want: LockRepo, before: World, after: World, sent: seq<Event>, n: nat)
    requires Untouched(f, sb, want, before, after) && SoFar(sent, n) && LastSent(sent, Made) && 1 <= n <= 5
    requires want.name !in before.repos && want.name in after.repos
    ensures Promises(f, sb, want, true, before, after, sent, Done)
  {
    hide Untouched, SoFar, Promises, PressesOn;
    SentLast(sent, n, Made);
    Ends(f, sb, want, true, before, after, sent, n, Done);
  }

  /** Made, and read back. */
  lemma ReadBackEnds(f: Forge, sb: Sandbox, want: LockRepo, before: World, after: World, sent: seq<Event>, n: nat,
        looks: seq<Event>, answered: bool, found: bool)
    requires Untouched(f, sb, want, before, after) && SoFar(sent, n) && 1 <= n <= 5
    requires want.name !in before.repos && want.name in after.repos
    requires sent != [] && sent[|sent| - 1] == Sent(want.name, Made)
    requires OnlyLooks(looks) && looks != [] && looks[|looks| - 1] == Looked(want.name, answered, found)
    ensures Promises(f, sb, want, false, before, after, sent + looks, if found then Done else Failed)
  {
    hide Untouched, SoFar, Promises, PressesOn;
    LookedSome(sent, n, looks);
    assert (sent + looks)[|sent| - 1] == Sent(want.name, Made);
    assert (sent + looks)[|sent + looks| - 1] == looks[|looks| - 1];
    Ends(f, sb, want, false, before, after, sent + looks, n, if found then Done else Failed);
  }

  /** The lookup after a failure got no answer. */
  lemma UnseenEnds(f: Forge, sb: Sandbox, want: LockRepo, pushFollows: bool, before: World, after: World,
        sent: seq<Event>, n: nat)
    requires Untouched(f, sb, want, before, after) && SoFar(sent, n) && 1 <= n <= 5 && !f.truthful
    requires LastSent(sent, Transient)
    ensures Promises(f, sb, want, pushFollows, before, after, sent + [Looked(want.name, false, false)], Failed)
  {
    hide Untouched, SoFar, Promises, PressesOn;
    LookedOnce(sent, n, Looked(want.name, false, false));
    Ends(f, sb, want, pushFollows, before, after, sent + [Looked(want.name, false, false)], n, Failed);
  }

  /** Refused for good, or for the fifth time. */
  lemma RefusedEnds(f: Forge, sb: Sandbox, want: LockRepo, pushFollows: bool, before: World, after: World,
        sent: seq<Event>, n: nat, a: Answer)
    requires Untouched(f, sb, want, before, after) && SoFar(sent, n) && 1 <= n <= 5 && LastSent(sent, a)
    requires a == Fatal || (a == Transient && n == 5)
    requires f.truthful && want.name in before.repos ==> a == Fatal
    ensures Promises(f, sb, want, pushFollows, before, after, sent, Failed)
  {
    hide Untouched, SoFar, Promises, PressesOn;
    SentLast(sent, n, a);
    Ends(f, sb, want, pushFollows, before, after, sent, n, Failed);
  }

  /** A failure that may pass: what a lookup finds is adopted or left; where it finds nothing, it is not over. */
  method AfterFailure(f: Forge, sb: Sandbox, want: LockRepo, ghost pushFollows: bool, ghost before: World,
        ghost sent: seq<Event>, ghost n: nat)
    returns (over: bool, r: Result, ghost more: seq<Event>)
    requires f.caps == sb.caps && Untouched(f, sb, want, before, f.world)
    requires SoFar(sent, n) && LastSent(sent, Transient) && 1 <= n <= 5
    modifies f
    ensures f.log == old(f.log) + more
    ensures over ==> Promises(f, sb, want, pushFollows, before, f.world, sent + more, r)
    ensures !over ==> SoFar(sent + more, n) && Due(sent + more) && f.world == old(f.world)
    ensures f.truthful && want.name in f.world.repos ==> over
  {
    hide Untouched, OnlyThis, SoFar, Promises, PressesOn, IsFresh, EndsAs, IsOurs, LastSent;
    var answered, live := f.Get(want.name);
    more := [Looked(want.name, answered, live.Some?)];
    over, r := true, Failed;
    if !answered {
      UnseenEnds(f, sb, want, pushFollows, before, f.world, sent, n);
      return;
    }
    LookedOnce(sent, n, Looked(want.name, answered, live.Some?));
    if live.None? {
      over := false;
      return;
    }
    ghost var rest;
    r, rest := Adopt(f, sb, want, live.value, pushFollows, before, sent + more, n);
    assert sent + (more + rest) == sent + more + rest;
    more := more + rest;
  }

  predicate StartsWithACreate(sent: seq<Event>, name: string) {
    sent != [] ==> sent[0].Sent? && sent[0].name == name
  }

  method CreateVerified(f: Forge, sb: Sandbox, want: LockRepo, pushFollows: bool, took: nat -> nat)
    returns (r: Result, ghost sent: seq<Event>)
    requires f.caps == sb.caps
    modifies f
    ensures f.log == old(f.log) + sent
    ensures Promises(f, sb, want, pushFollows, old(f.world), f.world, sent, r)
    ensures StartsWithACreate(sent, want.name) && sent != []
    ensures f.reliable && f.truthful && want.name !in old(f.world.repos) ==> r == Done
  {
    hide Untouched, OnlyThis, SoFar, Promises, IsOurs, PressesOn, IsFresh, EndsAs, LastSent, LookClock, OnlyLooks;
    var name, attempt := want.name, 1;
    ghost var before := f.world;
    sent := [];
    StartsUntouched(f, sb, want, before);
    while true
      invariant 1 <= attempt <= 5
      invariant f.log == old(f.log) + sent && SoFar(sent, attempt - 1) && Due(sent)
      invariant Untouched(f, sb, want, before, f.world) && StartsWithACreate(sent, name)
      invariant f.reliable || (f.truthful && name in before.repos) ==> attempt == 1 && f.world == before
      decreases 5 - attempt
    {
      ghost var mid := f.world;
      UntouchedIsOnlyThis(f, sb, want, before, mid);
      var a := f.Create(name, want.visibility, want.topics, sb.marker);
      SentOne(sent, attempt - 1, name, a);
      sent := sent + [Sent(name, a)];
      CreationTouchesNothing(f, sb, want, before, mid, f.world);
      UntouchedIsOnlyThis(f, sb, want, before, f.world);
      if a == Made {
        if pushFollows {
          MadeEnds(f, sb, want, before, f.world, sent, attempt);
          return Done, sent;
        }
        var answered, live, looks, _ := GetConfirmed(f, name, took);
        ReadBackEnds(f, sb, want, before, f.world, sent, attempt, looks, answered, live.Some?);
        sent := sent + looks;
        r := if live.Some? then Done else Failed;
        return;
      } else if a == Transient && attempt < 5 {
        var over;
        ghost var more;
        over, r, more := AfterFailure(f, sb, want, pushFollows, before, sent, attempt);
        sent := sent + more;
        if over {
          return;
        }
        attempt := attempt + 1;
      } else if a == Conflict {
        ghost var more;
        r, more := AfterConflict(f, sb, want, took, pushFollows, before, sent, attempt);
        sent := sent + more;
        return;
      } else {
        assert f.truthful && name in before.repos ==> a == Fatal;
        RefusedEnds(f, sb, want, pushFollows, before, f.world, sent, attempt, a);
        return Failed, sent;
      }
    }
  }

  lemma StartsUntouched(f: Forge, sb: Sandbox, want: LockRepo, before: World)
    ensures Untouched(f, sb, want, before, before) && SoFar([], 0)
  {
  }
}
