/** reset_one, apply_one and settle_one as they run: one request at a time, each of which may fail. */
module Commands {
  import opened Text
  import opened ForgeModel
  import opened Compare
  import opened Reset
  import opened Apply
  import opened ApplyRuns
  import opened ForgeApi
  import opened Requests

  // ------------------------------------------------------------ following a plan

  /** The first `done` writes of a plan went through and led here. */
  predicate Reached(caps: Caps, plan: seq<Step>, done: nat, from: Repo, now: Repo) {
    done <= |plan| && Run(caps, plan[..done], from) == Outcome(true, now)
  }

  /** A plan cut short: some of its writes, the last of them perhaps without an answer. */
  ghost predicate CutShort(caps: Caps, plan: seq<Step>, from: Repo, now: Repo) {
    exists n :: 0 <= n <= |plan| && Run(caps, plan[..n], from).repo == now
  }

  lemma Advance(caps: Caps, plan: seq<Step>, done: nat, from: Repo, now: Repo)
    requires Reached(caps, plan, done, from, now) && done < |plan|
    ensures Run(caps, plan[..done + 1], from) == Do(caps, plan[done], now)
    ensures CutShort(caps, plan, from, now) && CutShort(caps, plan, from, Do(caps, plan[done], now).repo)
    ensures !Do(caps, plan[done], now).ok ==> !Run(caps, plan, from).ok
  {
    hide Do;
    assert plan[..done + 1] == plan[..done] + [plan[done]];
    RunAppend(caps, plan[..done], [plan[done]], from);
    RunOne(caps, plan[done], now);
    assert plan == plan[..done + 1] + plan[done + 1..];
    RunAppend(caps, plan[..done + 1], plan[done + 1..], from);
  }

  lemma ReachedIsCutShort(caps: Caps, plan: seq<Step>, done: nat, from: Repo, now: Repo)
    requires Reached(caps, plan, done, from, now)
    ensures CutShort(caps, plan, from, now)
  {
  }

  lemma StartsReached(caps: Caps, plan: seq<Step>, from: Repo)
    ensures Reached(caps, plan, 0, from, from)
  {
  }

  lemma EndsReached(caps: Caps, plan: seq<Step>, from: Repo, now: Repo)
    ensures Reached(caps, plan, |plan|, from, now) <==> Run(caps, plan, from) == Outcome(true, now)
  {
    assert plan[..|plan|] == plan;
  }

  /** Nothing but this repository has changed, and it is still there. */
  predicate OnlyRepo(before: World, after: World, name: string) {
    && name in before.repos && name in after.repos
    && after.namespaces == before.namespaces && after.repos == before.repos[name := after.repos[name]]
  }

  /** Where a command that follows a plan leaves its repository. */
  ghost predicate Follows(f: Forge, plan: seq<Step>, from: Repo, now: Repo, ok: bool)
  {
    && CutShort(f.caps, plan, from, now)
    && (ok ==> Run(f.caps, plan, from) == Outcome(true, now))
    && (f.reliable ==> ok == Run(f.caps, plan, from).ok)
  }

  /** The requests between these two logs tell how the first `n` writes of a plan went. */
  ghost predicate Tells(a: seq<Event>, b: seq<Event>, name: string, plan: seq<Step>, n: nat, ok: bool) {
    && n <= |plan| && Reported(a, b, ok) && (n > 0 <==> b != a)
    && (plan != [] && !plan[0].WaitPushed? ==> StartsChanging(a, b, name))
  }

  lemma TellsOn(a: seq<Event>, b: seq<Event>, c: seq<Event>, name: string, plan: seq<Step>, n: nat, m: nat, ok: bool)
    requires Tells(a, b, name, plan, n, true) && n < m <= |plan| && Reported(b, c, ok) && c != b
    requires !plan[n].WaitPushed? ==> StartsChanging(b, c, name)
    ensures Tells(a, c, name, plan, m, ok)
  {
    ReportedOn(a, b, c, ok);
    if !plan[0].WaitPushed? && n == 0 && b == a {
      ChangesOn(a, b, c, name);
    }
  }

  /** `n` writes into a plan that began with `from`, in this world and with this log of requests; or cut short there. */
  ghost predicate Along(f: Forge, name: string, plan: seq<Step>, n: nat, from: Repo, before: World, log: seq<Event>,
        ok: bool)
    reads f
  {
    && OnlyRepo(before, f.world, name) && CutShort(f.caps, plan, from, f.world.repos[name])
    && (ok ==> Reached(f.caps, plan, n, from, f.world.repos[name]))
    && (f.reliable && !ok ==> !Run(f.caps, plan, from).ok)
    && Tells(log, f.log, name, plan, n, ok)
  }

  lemma StartsAlong(f: Forge, name: string, plan: seq<Step>)
    requires name in f.world.repos
    ensures Along(f, name, plan, 0, f.world.repos[name], f.world, f.log, true)
  {
    StartsReached(f.caps, plan, f.world.repos[name]);
    ReachedIsCutShort(f.caps, plan, 0, f.world.repos[name], f.world.repos[name]);
    hide Run;
  }

  lemma AlongIsThere(f: Forge, name: string, plan: seq<Step>, n: nat, from: Repo, before: World, log: seq<Event>)
    requires Along(f, name, plan, n, from, before, log, true)
    ensures name in f.world.repos && Reached(f.caps, plan, n, from, f.world.repos[name])
  {
  }

  lemma AlongToTheEnd(f: Forge, name: string, plan: seq<Step>, n: nat, from: Repo, before: World, log: seq<Event>,
        ok: bool)
    requires Along(f, name, plan, n, from, before, log, ok) && (ok ==> n == |plan|)
    ensures OnlyRepo(before, f.world, name) && Follows(f, plan, from, f.world.repos[name], ok)
    ensures Tells(log, f.log, name, plan, n, ok)
  {
    EndsReached(f.caps, plan, from, f.world.repos[name]);
    hide Run;
  }

  /** One write of a plan: through, or the plan ends here. */
  method Send(f: Forge, name: string, step: Step, ghost plan: seq<Step>, ghost n: nat, ghost from: Repo,
        ghost before: World, ghost log: seq<Event>)
    returns (ok: bool)
    requires Along(f, name, plan, n, from, before, log, true) && n < |plan| && plan[n] == step
    modifies f
    ensures Along(f, name, plan, n + 1, from, before, log, ok)
  {
    hide Run, CutShort, Tells;
    Advance(f.caps, plan, n, from, f.world.repos[name]);
    ok := f.Perform(name, step);
    TellsOn(log, old(f.log), f.log, name, plan, n, n + 1, ok);
  }

  // ------------------------------------------------------------ force-pushing

  lemma PushTwice(caps: Caps, push: Step, r: Repo)
    requires (push.PushSeed? || push.PushBaseline?) && Accepts(push, r)
    ensures Do(caps, push, Effect(caps, push, r)) == Outcome(true, Effect(caps, push, r))
  {
    var once := Effect(caps, push, r);
    assert Governed(once, push.branch) == Governed(r, push.branch);
    assert once.branches == Effect(caps, push, once).branches;
    assert once.tags == Effect(caps, push, once).tags;
  }

  /** Lifting without asking first is no more than lifting what refuses the push. */
  lemma LiftingIsCalledFor(caps: Caps, push: Step, r: Repo)
    requires (push.PushSeed? || push.PushBaseline?) && '*' !in push.branch
    ensures r.archived ==> Do(caps, LiftIfRefused(push), r) == Outcome(false, r)
    ensures !r.archived ==> Do(caps, LiftIfRefused(push), r) == Outcome(true, Lifted(r, push.branch))
    ensures Accepts(push, r) ==> !r.archived && Lifted(r, push.branch) == r
  {
    LiftClearsTheWay(r, push.branch);
    if !Governed(r, push.branch) {
      assert Lifted(r, push.branch).rules == r.rules;
    }
  }

  /**
   * Push, and lift whatever protects the branch only if the push failed, then push again. However
   * the requests went, this is a lift where one is called for and a push, both or a part of them.
   */
  method PushAndLift(f: Forge, name: string, push: Step) returns (ok: bool)
    requires (push.PushSeed? || push.PushBaseline?) && '*' !in push.branch && name in f.world.repos
    modifies f
    ensures OnlyRepo(old(f.world), f.world, name)
    ensures
      var r, now := old(f.world.repos)[name], f.world.repos[name];
      var lifted := Do(f.caps, LiftIfRefused(push), r);
      var pushed := Do(f.caps, push, lifted.repo);
      && (now == r || now == lifted.repo || (lifted.ok && now == pushed.repo))
      && (ok ==> lifted.ok && pushed == Outcome(true, now)) && (f.reliable ==> ok == (lifted.ok && pushed.ok))
    ensures Reported(old(f.log), f.log, ok) && StartsChanging(old(f.log), f.log, name) && f.log != old(f.log)
  {
    hide Effect, Lifted, Accepts;
    ghost var r := f.world.repos[name];
    LiftingIsCalledFor(f.caps, push, r);
    ok := f.Perform(name, push);
    if ok {
      return;
    }
    if Accepts(push, r) {
      PushTwice(f.caps, push, r);
      LiftingIsCalledFor(f.caps, push, Effect(f.caps, push, r));
    }
    ok := f.AllowForcePush(name, push.branch);
    if ok {
      ok := f.Perform(name, push);
    }
  }

  /** The same as two writes of a plan. */
  method ForcePush(f: Forge, name: string, push: Step, ghost plan: seq<Step>, ghost n: nat, ghost from: Repo,
        ghost before: World, ghost log: seq<Event>)
    returns (ok: bool)
    requires (push.PushSeed? || push.PushBaseline?) && '*' !in push.branch
    requires Along(f, name, plan, n, from, before, log, true)
    requires n + 1 < |plan| && plan[n] == LiftIfRefused(push) && plan[n + 1] == push
    modifies f
    ensures Along(f, name, plan, n + 2, from, before, log, ok)
  {
    hide Do, Run, CutShort, Tells, Reported, StartsChanging;
    ghost var lifted := Do(f.caps, LiftIfRefused(push), f.world.repos[name]);
    Advance(f.caps, plan, n, from, f.world.repos[name]);
    if lifted.ok {
      Advance(f.caps, plan, n + 1, from, lifted.repo);
    }
    ok := PushAndLift(f, name, push);
    TellsOn(log, old(f.log), f.log, name, plan, n, n + 2, ok);
  }

  // ------------------------------------------------------------ reset

  /** Where each write of a reset stands in its plan. */
  lemma ResetLayout(s: State)
    requires s.live.Some?
    ensures
      var plan, h, n := ResetSteps(s), |Head(s)|, |Removals(s)|;
      && |plan| == h + 1 + n + (if s.want.archived then 2 else 1)
      && Head(s) <= plan && plan[h] == SettingsOf(s.want) && plan[h + 1..h + 1 + n] == Removals(s)
      && plan[h + 1 + n] == SetTopics(s.want.topics)
      && (s.want.archived ==> plan[h + 1 + n + 1] == ARCHIVE)
  {
    hide SettingsOf, Head, Closes, BranchDeletes, TagDeletes;
    assert ResetSteps(s) == Head(s) + [SettingsOf(s.want)] + Removals(s) + Tail(s);
  }

  lemma HeadLayout(s: State)
    requires s.live.Some?
    ensures
      var head, a := Head(s), if s.live.value.archived then 1 else 0;
      && |head| == a + (if s.refsDirty then 2 else 0) + (if s.refsDirty && !s.want.empty then 1 else 0)
      && (s.live.value.archived ==> head[0] == UNARCHIVE)
      && (s.refsDirty ==> head[a] == LiftIfRefused(Push(s.want)) && head[a + 1] == Push(s.want))
      && (s.refsDirty && !s.want.empty ==> head[a + 2] == WaitPushed(s.want.defaultBranch, s.want.baseline))
  {
  }

  method ResetHead(f: Forge, s: State, ghost plan: seq<Step>, ghost before: World, ghost log: seq<Event>)
    returns (ok: bool, ghost done: nat)
    requires s.live.Some? && '*' !in s.want.defaultBranch && plan == ResetSteps(s)
    requires Along(f, s.want.name, plan, 0, s.live.value, before, log, true)
    modifies f
    ensures Along(f, s.want.name, plan, done, s.live.value, before, log, ok)
    ensures ok ==> done == |Head(s)|
  {
    hide Along, Push, Head, ResetSteps;
    var want, name := s.want, s.want.name;
    ghost var from := s.live.value;
    ResetLayout(s);
    HeadLayout(s);
    ok, done := true, 0;
    if s.live.value.archived {
      ok := Send(f, name, UNARCHIVE, plan, done, from, before, log);
      done := done + 1;
    }
    if ok && s.refsDirty {
      PushIsAPush(want);
      ok := ForcePush(f, name, Push(want), plan, done, from, before, log);
      done := done + 2;
      if ok && !want.empty {
        ok := Send(f, name, WaitPushed(want.defaultBranch, want.baseline), plan, done, from, before, log);
        done := done + 1;
      }
    }
  }

  lemma PushIsAPush(want: LockRepo)
    ensures Push(want) == PushBaseline(want.defaultBranch, want.tags)
  {
  }

  /** A loop of writes over a list, each sent in turn until one fails. */
  method SendEach(f: Forge, name: string, steps: seq<Step>, ghost plan: seq<Step>, ghost at: nat, ghost from: Repo,
        ghost before: World, ghost log: seq<Event>)
    returns (ok: bool, ghost done: nat)
    requires Along(f, name, plan, at, from, before, log, true)
    requires at + |steps| <= |plan| && plan[at..at + |steps|] == steps
    modifies f
    ensures Along(f, name, plan, done, from, before, log, ok) && (ok ==> done == at + |steps|)
  {
    hide Along;
    ok, done := true, at;
    for i := 0 to |steps|
      invariant ok && done == at + i && Along(f, name, plan, done, from, before, log, true)
    {
      assert plan[at + i] == plan[at..at + |steps|][i];
      ok := Send(f, name, steps[i], plan, at + i, from, before, log);
      done := done + 1;
      if !ok {
        return;
      }
    }
  }

  /** The requests, then the branches, then the tags: what is on the lists goes. */
  method RemoveExtras(f: Forge, s: State, ghost plan: seq<Step>, ghost at: nat, ghost before: World,
        ghost log: seq<Event>)
    returns (ok: bool, ghost done: nat)
    requires s.live.Some? && Along(f, s.want.name, plan, at, s.live.value, before, log, true)
    requires at + |Removals(s)| <= |plan| && plan[at..at + |Removals(s)|] == Removals(s)
    modifies f
    ensures Along(f, s.want.name, plan, done, s.live.value, before, log, ok) && (ok ==> done == at + |Removals(s)|)
  {
    hide Along, Closes, BranchDeletes, TagDeletes;
    RemovalsLayout(s, plan, at);
    ok, done := SendEach(f, s.want.name, Closes(s.requests), plan, at, s.live.value, before, log);
    if ok {
      ok, done := SendEach(f, s.want.name, BranchDeletes(s.extraBranches), plan, done, s.live.value, before, log);
    }
    if ok {
      ok, done := SendEach(f, s.want.name, TagDeletes(s.extraTags), plan, done, s.live.value, before, log);
    }
  }

  lemma ThreeInARow(plan: seq<Step>, at: nat, x: seq<Step>, y: seq<Step>, z: seq<Step>)
    requires at + |x + y + z| <= |plan| && plan[at..at + |x + y + z|] == x + y + z
    ensures plan[at..at + |x|] == x
    ensures plan[at + |x|..at + |x| + |y|] == y
    ensures plan[at + |x| + |y|..at + |x| + |y| + |z|] == z
  {
    var r := plan[at..at + |x + y + z|];
    assert forall k :: 0 <= k < |r| ==> plan[at + k] == r[k];
    assert r[..|x|] == x && r[|x|..|x| + |y|] == y && r[|x| + |y|..] == z;
  }

  lemma RemovalsLayout(s: State, plan: seq<Step>, at: nat)
    requires at + |Removals(s)| <= |plan| && plan[at..at + |Removals(s)|] == Removals(s)
    ensures
      var x, y, z := Closes(s.requests), BranchDeletes(s.extraBranches), TagDeletes(s.extraTags);
      && |Removals(s)| == |x| + |y| + |z|
      && plan[at..at + |x|] == x && plan[at + |x|..at + |x| + |y|] == y
      && plan[at + |x| + |y|..at + |x| + |y| + |z|] == z
  {
    hide Closes, BranchDeletes, TagDeletes;
    ThreeInARow(plan, at, Closes(s.requests), BranchDeletes(s.extraBranches), TagDeletes(s.extraTags));
  }

  /** One reset as it runs. Whatever the forge answers, it has followed `ResetSteps` as far as it got. */
  method ResetOne(f: Forge, s: State) returns (ok: bool)
    requires s.live.Some? && s.want.name in f.world.repos && f.world.repos[s.want.name] == s.live.value
    requires '*' !in s.want.defaultBranch
    modifies f
    ensures OnlyRepo(old(f.world), f.world, s.want.name)
    ensures Follows(f, ResetSteps(s), s.live.value, f.world.repos[s.want.name], ok)
    ensures Reported(old(f.log), f.log, ok) && Attempted(old(f.log), f.log, s.want.name)
  {
    hide Along, Follows, Head, ResetSteps, SettingsOf, Removals, Reported, Attempted;
    ghost var plan, done, before, log := ResetSteps(s), 0, f.world, f.log;
    ResetLayout(s);
    StartsAlong(f, s.want.name, plan);
    ok, done := ResetHead(f, s, plan, before, log);
    if ok {
      ok := Send(f, s.want.name, SettingsOf(s.want), plan, done, s.live.value, before, log);
      done := done + 1;
    }
    if ok {
      ok, done := RemoveExtras(f, s, plan, done, before, log);
    }
    if ok {
      ok := Send(f, s.want.name, SetTopics(s.want.topics), plan, done, s.live.value, before, log);
      done := done + 1;
    }
    if ok && s.want.archived {
      ok := Send(f, s.want.name, ARCHIVE, plan, done, s.live.value, before, log);
      done := done + 1;
    }
    AlongToTheEnd(f, s.want.name, plan, done, s.live.value, before, log, ok);
    ChangesFirst(s, log, f.log, done, ok);
  }

  lemma ChangesFirst(s: State, a: seq<Event>, b: seq<Event>, n: nat, ok: bool)
    requires s.live.Some? && Tells(a, b, s.want.name, ResetSteps(s), n, ok) && (ok ==> n == |ResetSteps(s)|)
    ensures Reported(a, b, ok) && Attempted(a, b, s.want.name)
  {
    ResetLayout(s);
    HeadLayout(s);
    hide Removals, ResetSteps, Head, Push;
    assert !ResetSteps(s)[0].WaitPushed?;
    ChangesOn(a, b, b, s.want.name);
  }

  // ------------------------------------------------------------ apply

  lemma FirstHalfLayout(c: Change, r: Repo)
    ensures
      var plan, a := FirstHalf(c, r), if c.live.Some? && c.live.value.archived then 1 else 0;
      && |plan| == a + (if PushesSeed(c, r) then 2 else 0)
      && (a == 1 ==> plan[0] == UNARCHIVE)
      && (PushesSeed(c, r) ==> plan[a] == LiftIfRefused(Seed(c.want)) && plan[a + 1] == Seed(c.want))
  {
  }

  lemma UnarchivingKeepsTags(f: Forge, c: Change, from: Repo, now: Repo, done: nat)
    requires done <= 1 && Reached(f.caps, FirstHalf(c, from), done, from, now)
    requires done == 1 ==> c.live.Some? && c.live.value.archived
    ensures now.tags == from.tags
  {
    if done == 1 {
      assert FirstHalf(c, from)[..1] == [UNARCHIVE];
      RunOne(f.caps, UNARCHIVE, from);
    }
  }

  /** The first half of one apply: readable, and then pushed if planned or, once readable, found needed. */
  method ApplyOne(f: Forge, c: Change) returns (ok: bool, pushed: bool)
    requires c.want.name in f.world.repos && '*' !in c.want.defaultBranch
    modifies f
    ensures OnlyRepo(old(f.world), f.world, c.want.name)
    ensures
      var from := old(f.world).repos[c.want.name];
      Follows(f, FirstHalf(c, from), from, f.world.repos[c.want.name], ok) && (ok ==> pushed == PushesSeed(c, from))
    ensures Reported(old(f.log), f.log, ok) && StartsChanging(old(f.log), f.log, c.want.name)
    ensures FirstHalf(c, old(f.world).repos[c.want.name]) != [] ==> f.log != old(f.log)
  {
    hide Along, Reached, FirstHalf, Follows;
    var name := c.want.name;
    ghost var from, before, log := f.world.repos[name], f.world, f.log;
    ghost var plan, done := FirstHalf(c, from), 0;
    FirstHalfLayout(c, from);
    StartsAlong(f, name, plan);
    ok, pushed := true, false;
    if c.live.Some? && c.live.value.archived {
      ok := Send(f, name, UNARCHIVE, plan, done, from, before, log);
      done := done + 1;
    }
    if ok {
      AlongIsThere(f, name, plan, done, from, before, log);
      UnarchivingKeepsTags(f, c, from, f.world.repos[name], done);
      var push := c.push;
      if c.recheck && !c.want.empty {
        push := !BaselineIntact(c.want, f.world.repos[name]);
      }
      if (c.create || push) && !c.want.empty {
        pushed := true;
        ok := ForcePush(f, name, Seed(c.want), plan, done, from, before, log);
        done := done + 2;
      }
    }
    AlongToTheEnd(f, name, plan, done, from, before, log, ok);
  }

  lemma FiveInARow(a: seq<Step>, b: seq<Step>, c: seq<Step>, d: seq<Step>, e: seq<Step>)
    ensures
      var plan := a + (b + (c + (d + e)));
      && |plan| == |a| + |b| + |c| + |d| + |e|
      && (forall i :: 0 <= i < |a| ==> plan[i] == a[i])
      && (forall i :: 0 <= i < |b| ==> plan[|a| + i] == b[i])
      && (forall i :: 0 <= i < |c| ==> plan[|a| + |b| + i] == c[i])
      && (forall i :: 0 <= i < |d| ==> plan[|a| + |b| + |c| + i] == d[i])
      && (forall i :: 0 <= i < |e| ==> plan[|a| + |b| + |c| + |d| + i] == e[i])
  {
  }

  lemma SecondHalfLayout(sb: Sandbox, c: Change, pushed: bool, current: Option<Repo>)
    ensures
      var plan, settings := SecondHalf(sb, c, pushed, current), SettlingSettings(sb, c.want, current);
      var w, s := |Waits(sb, c.want, pushed, current)|, |SettingsSteps(sb, c.want, current)|;
      var t := |TopicsSteps(sb, c.want, current)|;
      var d, a := |RemovalSteps(c)|, |ArchiveSteps(c.want)|;
      && |plan| == w + s + t + d + a
      && w == (if (settings != NO_SETTINGS || c.want.archived) && pushed then 1 else 0)
      && s == (if settings != NO_SETTINGS then 1 else 0)
      && t == (if sb.caps.topics && (current.None? || Sort(current.value.topics) != c.want.topics) then 1 else 0)
      && d == (if c.staleTags + c.staleBranches != [] then 1 else 0)
      && a == (if c.want.archived then 1 else 0)
      && (w == 1 ==> plan[0] == WaitPushed(c.want.defaultBranch, c.want.baseline))
      && (s == 1 ==> plan[w] == UpdateSettings(settings))
      && (t == 1 ==> plan[w + s] == SetTopics(c.want.topics))
      && (d == 1 ==> plan[w + s + t] == DeleteRefs(c.staleBranches, c.staleTags))
      && (a == 1 ==> plan[w + s + t + d] == ARCHIVE)
  {
    hide SecondHalf, SettlingSettings, Sort;
    SecondHalfIs(sb, c, pushed, current);
    FiveInARow(Waits(sb, c.want, pushed, current), SettingsSteps(sb, c.want, current),
               TopicsSteps(sb, c.want, current), RemovalSteps(c), ArchiveSteps(c.want));
  }

  /** Settings once the push is applied, and the topics. */
  method WriteSettings(f: Forge, sb: Sandbox, c: Change, pushed: bool, current: Option<Repo>, ghost plan: seq<Step>,
        ghost from: Repo, ghost before: World, ghost log: seq<Event>)
    returns (ok: bool, ghost done: nat)
    requires plan == SecondHalf(sb, c, pushed, current) && Along(f, c.want.name, plan, 0, from, before, log, true)
    modifies f
    ensures Along(f, c.want.name, plan, done, from, before, log, ok)
    ensures ok ==>
      done == |Waits(sb, c.want, pushed, current)| + |SettingsSteps(sb, c.want, current)|
        + |TopicsSteps(sb, c.want, current)|
  {
    hide Along, SecondHalf, SettlingSettings;
    hide Waits, SettingsSteps, TopicsSteps, RemovalSteps, ArchiveSteps, Sort;
    var name, want, settings := c.want.name, c.want, SettlingSettings(sb, c.want, current);
    SecondHalfLayout(sb, c, pushed, current);
    ok, done := true, 0;
    if (settings != NO_SETTINGS || want.archived) && pushed {
      ok := Send(f, name, WaitPushed(want.defaultBranch, want.baseline), plan, done, from, before, log);
      done := done + 1;
    }
    if ok && settings != NO_SETTINGS {
      ok := Send(f, name, UpdateSettings(settings), plan, done, from, before, log);
      done := done + 1;
    }
    if ok && sb.caps.topics && (current.None? || Sort(current.value.topics) != want.topics) {
      ok := Send(f, name, SetTopics(want.topics), plan, done, from, before, log);
      done := done + 1;
    }
  }

  /** The second half: the settings and topics, then stale refs, and archiving last. */
  method SettleOne(f: Forge, sb: Sandbox, c: Change, pushed: bool, current: Option<Repo>) returns (ok: bool)
    requires c.want.name in f.world.repos
    modifies f
    ensures OnlyRepo(old(f.world), f.world, c.want.name)
    ensures Follows(f, SecondHalf(sb, c, pushed, current), old(f.world).repos[c.want.name],
                    f.world.repos[c.want.name], ok)
    ensures Reported(old(f.log), f.log, ok) && (!pushed ==> StartsChanging(old(f.log), f.log, c.want.name))
    ensures SecondHalf(sb, c, pushed, current) != [] ==> f.log != old(f.log)
  {
    hide Along, SecondHalf, Follows, SettlingSettings, Reported, StartsChanging;
    hide Waits, SettingsSteps, TopicsSteps, RemovalSteps, ArchiveSteps, Sort;
    var name := c.want.name;
    ghost var from, before, log := f.world.repos[name], f.world, f.log;
    ghost var plan, done := SecondHalf(sb, c, pushed, current), 0;
    SecondHalfLayout(sb, c, pushed, current);
    StartsAlong(f, name, plan);
    ok, done := WriteSettings(f, sb, c, pushed, current, plan, from, before, log);
    if ok && c.staleTags + c.staleBranches != [] {
      ok := Send(f, name, DeleteRefs(c.staleBranches, c.staleTags), plan, done, from, before, log);
      done := done + 1;
    }
    if ok && c.want.archived {
      ok := Send(f, name, ARCHIVE, plan, done, from, before, log);
      done := done + 1;
    }
    AlongToTheEnd(f, name, plan, done, from, before, log, ok);
    SettlingTells(sb, c, pushed, current, log, f.log, done, ok);
  }

  /** Only a push is waited for: without one, the first request of a second half is a change. */
  lemma SettlingTells(sb: Sandbox, c: Change, pushed: bool, current: Option<Repo>, a: seq<Event>, b: seq<Event>, n: nat,
        ok: bool)
    requires Tells(a, b, c.want.name, SecondHalf(sb, c, pushed, current), n, ok)
    requires ok ==> n == |SecondHalf(sb, c, pushed, current)|
    ensures Reported(a, b, ok) && (!pushed ==> StartsChanging(a, b, c.want.name))
    ensures SecondHalf(sb, c, pushed, current) != [] ==> b != a
  {
    hide SettlingSettings, Sort;
    var plan := SecondHalf(sb, c, pushed, current);
    assert plan != [] && !pushed ==> !plan[0].WaitPushed?;
  }
}
