/**
 * One repository on a forge, the writes forgelab sends to it, and what makes the forge refuse one.
 * A push is taken in at once and applied later; until then a settings write loses it.
 */
module ForgeModel {
  import opened Text
  import ForgejoGlob

  datatype Caps = Caps(topics: bool, marker: bool, visibility: bool, archivedUnreadable: bool)

  datatype Request = Request(number: int)

  /**
   * `empty` is the forge's own flag, `pending` says that a push has been taken in and not yet
   * applied. `requests` maps each open request to the branches it points at; `rules` are the
   * protection globs that refuse a force-push.
   */
  datatype Repo = Repo(
    description: string,
    archived: bool,
    visibility: string,
    topics: seq<string>,
    defaultBranch: string,
    empty: bool,
    pending: bool,
    branches: map<string, string>,
    tags: map<string, string>,
    requests: map<Request, set<string>>,
    rules: set<string>)

  /** A partial update: `None` fields are left alone. */
  datatype Settings = Settings(defaultBranch: Option<string>, visibility: Option<string>, archived: Option<bool>)

  const NO_SETTINGS := Settings(None, None, None)

  const BASELINE_TAG := "forgelab-baseline"

  datatype Step =
    | UpdateSettings(s: Settings)
    | PushSeed(branch: string, sha: string, declared: seq<string>)
    | PushBaseline(branch: string, declared: seq<string>)
    | LiftIfRefused(push: Step)
    | WaitPushed(branch: string, sha: string)
    | CloseRequest(request: Request)
    | DeleteBranch(branch: string)
    | DeleteTag(tag: string)
    | DeleteRefs(oldBranches: seq<string>, oldTags: seq<string>)
    | SetTopics(topics: seq<string>)

  const UNARCHIVE := UpdateSettings(Settings(None, None, Some(false)))
  const ARCHIVE := UpdateSettings(Settings(None, None, Some(true)))

  /** A rule governs a branch when its glob means it. */
  predicate Governed(r: Repo, branch: string) {
    exists p :: p in r.rules && ForgejoGlob.Matches(p, branch)
  }

  /** Lifting asks the rules that the glob loop says cover the branch. */
  function Lifted(r: Repo, branch: string): Repo {
    r.(rules := set p | p in r.rules && !ForgejoGlob.Glob(p, branch))
  }

  predicate PointedAt(r: Repo, branch: string) {
    exists n :: n in r.requests && branch in r.requests[n]
  }

  /** A branch can go when it is there, is not the default, and no open request points at it. */
  predicate Removable(r: Repo, branch: string) {
    branch in r.branches && branch != r.defaultBranch && !PointedAt(r, branch)
  }

  /** What `UNARCHIVE` makes of a repository, sent only where it is archived. */
  function Unarchived(r: Repo): Repo {
    if r.archived then r.(archived := false, pending := false) else r
  }

  /** The forge has caught up with every push: the first one has cleared the empty flag. */
  function Applied(r: Repo): Repo {
    if r.pending then r.(pending := false, empty := false) else r
  }

  /** Nothing pending, and topics compared as the comparison does: sorted. */
  function Canonical(r: Repo): Repo {
    r.(pending := false, topics := Sort(r.topics))
  }

  /** Whether the forge's own branch listing reports `branch` at `sha`. */
  predicate Lists(r: Repo, branch: string, sha: string) {
    !r.empty && branch in r.branches && r.branches[branch] == sha
  }

  /** What the forge takes. An archived repository refuses every write but the one that lifts it. */
  predicate Accepts(step: Step, r: Repo) {
    match step
    case UpdateSettings(s) =>
      && (!r.archived || s.archived == Some(false))
      && (s.defaultBranch.Some? ==> s.defaultBranch.value in r.branches)
    case PushSeed(b, _, _) => !r.archived && !Governed(r, b)
    case PushBaseline(b, _) => !r.archived && !Governed(r, b) && BASELINE_TAG in r.tags
    case LiftIfRefused(push) => !r.archived || Accepts(push, r)
    case WaitPushed(b, sha) => Lists(Applied(r), b, sha)
    case CloseRequest(n) => !r.archived && n in r.requests
    case DeleteBranch(b) => !r.archived && Removable(r, b)
    case DeleteTag(t) => !r.archived && t in r.tags
    case DeleteRefs(bs, ts) =>
      !r.archived && (forall b :: b in bs ==> Removable(r, b)) && (forall t :: t in ts ==> t in r.tags)
    case SetTopics(_) => !r.archived
  }

  function Tagged(tags: map<string, string>, names: seq<string>, sha: string): map<string, string> {
    tags + (map t | t in names :: sha)
  }

  function Effect(caps: Caps, step: Step, r: Repo): Repo {
    match step
    case UpdateSettings(s) =>
      // The whole row is written back as it was read: a push still pending is lost.
      r.(defaultBranch := if s.defaultBranch.Some? then s.defaultBranch.value else r.defaultBranch,
         visibility := if caps.visibility && s.visibility.Some? then s.visibility.value else r.visibility,
         archived := if s.archived.Some? then s.archived.value else r.archived,
         pending := false)
    case PushSeed(b, sha, declared) =>
      r.(branches := r.branches[b := sha], tags := Tagged(r.tags, declared + [BASELINE_TAG], sha), pending := true)
    case PushBaseline(b, declared) =>
      if BASELINE_TAG !in r.tags then r
      else
        var sha := r.tags[BASELINE_TAG];
        r.(branches := r.branches[b := sha], tags := Tagged(r.tags, declared, sha), pending := true)
    case LiftIfRefused(push) =>
      if Accepts(push, r) || !(push.PushSeed? || push.PushBaseline?) then r else Lifted(r, push.branch)
    case WaitPushed(_, _) => Applied(r)
    case CloseRequest(n) => r.(requests := r.requests - {n})
    case DeleteBranch(b) => r.(branches := r.branches - {b})
    case DeleteTag(t) => r.(tags := r.tags - {t})
    case DeleteRefs(bs, ts) =>
      r.(branches := r.branches - (set b | b in bs), tags := r.tags - (set t | t in ts), pending := true)
    case SetTopics(ts) => if caps.topics then r.(topics := ts) else r
  }

  datatype Outcome = Outcome(ok: bool, repo: Repo)

  /** One step: refused, it changes nothing; a wait that ends in vain has still let time pass. */
  function Do(caps: Caps, step: Step, r: Repo): Outcome {
    if Accepts(step, r) then Outcome(true, Effect(caps, step, r))
    else Outcome(false, if step.WaitPushed? then Applied(r) else r)
  }

  /** A run stops at the first refusal. */
  function Run(caps: Caps, steps: seq<Step>, r: Repo): Outcome {
    if steps == [] then Outcome(true, r)
    else
      var first := Do(caps, steps[0], r);
      if first.ok then Run(caps, steps[1..], first.repo) else first
  }

  lemma {:induction false} RunAppend(caps: Caps, a: seq<Step>, b: seq<Step>, r: Repo)
    ensures Run(caps, a + b, r) ==
      if Run(caps, a, r).ok then Run(caps, b, Run(caps, a, r).repo) else Run(caps, a, r)
  {
    if a == [] {
      assert a + b == b;
    } else {
      assert (a + b)[1..] == a[1..] + b;
      RunAppend(caps, a[1..], b, Do(caps, a[0], r).repo);
    }
  }

  lemma RunOne(caps: Caps, step: Step, r: Repo)
    ensures Run(caps, [step], r) == Do(caps, step, r)
  {
    assert Run(caps, [step][1..], Do(caps, step, r).repo) == Outcome(true, Do(caps, step, r).repo);
  }

  /** Lifting takes exactly the rules in the way, for a branch name without a star. */
  lemma LiftClearsTheWay(r: Repo, branch: string)
    requires '*' !in branch
    ensures !Governed(Lifted(r, branch), branch)
    ensures forall p :: p in r.rules && !ForgejoGlob.Matches(p, branch) ==> p in Lifted(r, branch).rules
  {
    forall p | p in r.rules {
      ForgejoGlob.GlobIsExact(p, branch);
    }
  }

  /** So after it a push passes, unless the repository is archived or has no baseline to push. */
  lemma LiftedPushPasses(push: Step, r: Repo)
    requires (push.PushSeed? || push.PushBaseline?) && '*' !in push.branch
    ensures Accepts(push, Lifted(r, push.branch)) <==> !r.archived && (push.PushBaseline? ==> BASELINE_TAG in r.tags)
  {
    LiftClearsTheWay(r, push.branch);
  }

  // ------------------------------------------------------------ when the forge applies a push

  /** The same run with the forge free to apply what is pending before any step it likes. */
  function RunOn(caps: Caps, steps: seq<Step>, applies: seq<bool>, r: Repo): Outcome
    requires |applies| == |steps|
  {
    if steps == [] then Outcome(true, r)
    else
      var first := Do(caps, steps[0], if applies[0] then Applied(r) else r);
      if first.ok then RunOn(caps, steps[1..], applies[1..], first.repo) else first
  }

  /** No settings are written while a push is pending. */
  predicate Quiet(caps: Caps, steps: seq<Step>, r: Repo) {
    steps == [] ||
    (&& (steps[0].UpdateSettings? ==> !r.pending)
     && (Do(caps, steps[0], r).ok ==> Quiet(caps, steps[1..], Do(caps, steps[0], r).repo)))
  }

  predicate QuietOn(caps: Caps, steps: seq<Step>, applies: seq<bool>, r: Repo)
    requires |applies| == |steps|
  {
    steps == [] ||
    var now := if applies[0] then Applied(r) else r;
    (&& (steps[0].UpdateSettings? ==> !now.pending)
     && (Do(caps, steps[0], now).ok ==> QuietOn(caps, steps[1..], applies[1..], Do(caps, steps[0], now).repo)))
  }

  /** No settings are written over a first push: weaker than `Quiet`, and what the data needs. */
  predicate Careful(caps: Caps, steps: seq<Step>, r: Repo) {
    steps == [] ||
    (&& (steps[0].UpdateSettings? ==> !(r.pending && r.empty))
     && (Do(caps, steps[0], r).ok ==> Careful(caps, steps[1..], Do(caps, steps[0], r).repo)))
  }

  lemma {:induction false} QuietIsCareful(caps: Caps, steps: seq<Step>, r: Repo)
    requires Quiet(caps, steps, r)
    ensures Careful(caps, steps, r)
  {
    if steps != [] && Do(caps, steps[0], r).ok {
      QuietIsCareful(caps, steps[1..], Do(caps, steps[0], r).repo);
    }
  }

  /** `b` is `a` with some of what was pending already applied. */
  predicate Ahead(a: Repo, b: Repo) {
    Applied(a) == Applied(b) && (b.empty ==> a.empty) && (b.pending ==> a.pending)
  }

  lemma AheadDiffersInTimeOnly(a: Repo, b: Repo)
    requires Ahead(a, b)
    ensures b == a.(pending := b.pending, empty := b.empty)
    ensures b.pending ==> a.pending
    ensures b.empty ==> a.empty
    ensures a.empty && !b.empty ==> a.pending
    ensures a.empty && a.pending && b.empty ==> b.pending
  {
    assert a.(pending := false, empty := false) == b.(pending := false, empty := false);
  }

  lemma EffectAhead(caps: Caps, step: Step, a: Repo, b: Repo)
    requires Ahead(a, b) && !step.LiftIfRefused?
    requires step.UpdateSettings? ==> !(a.pending && a.empty)
    ensures Ahead(Effect(caps, step, a), Effect(caps, step, b))
  {
    AheadDiffersInTimeOnly(a, b);
    match step
    case UpdateSettings(s) =>
    case PushSeed(_, _, _) =>
    case PushBaseline(_, _) =>
    case WaitPushed(_, _) =>
    case CloseRequest(_) =>
    case DeleteBranch(_) =>
    case DeleteTag(_) =>
    case DeleteRefs(_, _) =>
    case SetTopics(_) =>
  }

  lemma StepAhead(caps: Caps, step: Step, a: Repo, b: Repo)
    requires Ahead(a, b)
    requires step.UpdateSettings? ==> !(a.pending && a.empty)
    ensures Do(caps, step, a).ok == Do(caps, step, b).ok
    ensures Ahead(Do(caps, step, a).repo, Do(caps, step, b).repo)
  {
    AcceptsIgnoresPending(step, a, b);
    if step.LiftIfRefused? {
      AheadDiffersInTimeOnly(a, b);
      AcceptsIgnoresPending(step.push, a, b);
    } else {
      EffectAhead(caps, step, a, b);
    }
  }

  lemma {:induction false} AcceptsIgnoresPending(step: Step, a: Repo, b: Repo)
    requires Applied(a) == Applied(b)
    ensures Accepts(step, a) == Accepts(step, b)
  {
    assert a.archived == b.archived && a.rules == b.rules && a.tags == b.tags && a.branches == b.branches;
    assert a.requests == b.requests && a.defaultBranch == b.defaultBranch;
    if step.LiftIfRefused? {
      AcceptsIgnoresPending(step.push, a, b);
    }
  }

  /**
   * When the forge applies a push makes no difference to a careful run: same verdict, same
   * repository once everything is applied, whatever the schedule.
   */
  lemma {:induction false} ScheduleDoesNotMatter(caps: Caps, steps: seq<Step>, applies: seq<bool>, a: Repo, b: Repo)
    requires |applies| == |steps| && Careful(caps, steps, a) && Ahead(a, b)
    ensures RunOn(caps, steps, applies, b).ok == Run(caps, steps, a).ok
    ensures Ahead(Run(caps, steps, a).repo, RunOn(caps, steps, applies, b).repo)
  {
    if steps != [] {
      var now := if applies[0] then Applied(b) else b;
      StepAhead(caps, steps[0], a, now);
      if Do(caps, steps[0], a).ok {
        ScheduleDoesNotMatter(caps, steps[1..], applies[1..], Do(caps, steps[0], a).repo, Do(caps, steps[0], now).repo);
      }
    }
  }

  lemma {:induction false} QuietAhead(caps: Caps, steps: seq<Step>, applies: seq<bool>, a: Repo, b: Repo)
    requires |applies| == |steps| && Quiet(caps, steps, a) && Ahead(a, b)
    ensures QuietOn(caps, steps, applies, b)
  {
    if steps != [] {
      var now := if applies[0] then Applied(b) else b;
      StepAhead(caps, steps[0], a, now);
      if Do(caps, steps[0], a).ok {
        QuietAhead(caps, steps[1..], applies[1..], Do(caps, steps[0], a).repo, Do(caps, steps[0], now).repo);
      }
    }
  }

  lemma {:induction false} QuietWhenNothingApplies(caps: Caps, steps: seq<Step>, r: Repo)
    ensures QuietOn(caps, steps, seq(|steps|, _ => false), r) == Quiet(caps, steps, r)
  {
    if steps != [] {
      assert seq(|steps|, _ => false)[1..] == seq(|steps[1..]|, _ => false);
      QuietWhenNothingApplies(caps, steps[1..], Do(caps, steps[0], r).repo);
    }
  }

  lemma {:induction false} RunOnTheSlowestForge(caps: Caps, steps: seq<Step>, r: Repo)
    ensures RunOn(caps, steps, seq(|steps|, _ => false), r) == Run(caps, steps, r)
  {
    hide Do;
    if steps != [] {
      assert seq(|steps|, _ => false)[1..] == seq(|steps[1..]|, _ => false);
      RunOnTheSlowestForge(caps, steps[1..], Do(caps, steps[0], r).repo);
    }
  }

  /** A run keeps settings clear of pending pushes on every schedule iff it does on the slowest one. */
  lemma QuietOnEverySchedule(caps: Caps, steps: seq<Step>, r: Repo)
    ensures Quiet(caps, steps, r) <==>
      forall applies: seq<bool> | |applies| == |steps| :: QuietOn(caps, steps, applies, r)
  {
    if Quiet(caps, steps, r) {
      forall applies: seq<bool> | |applies| == |steps| ensures QuietOn(caps, steps, applies, r) {
        QuietAhead(caps, steps, applies, r, r);
      }
    } else {
      QuietWhenNothingApplies(caps, steps, r);
    }
  }

  lemma {:induction false} QuietAppend(caps: Caps, a: seq<Step>, b: seq<Step>, r: Repo)
    ensures Quiet(caps, a + b, r) <==>
      Quiet(caps, a, r) && (Run(caps, a, r).ok ==> Quiet(caps, b, Run(caps, a, r).repo))
  {
    if a == [] {
      assert a + b == b;
    } else {
      assert (a + b)[1..] == a[1..] + b;
      QuietAppend(caps, a[1..], b, Do(caps, a[0], r).repo);
    }
  }

  lemma {:induction false} CarefulAppend(caps: Caps, a: seq<Step>, b: seq<Step>, r: Repo)
    ensures Careful(caps, a + b, r) <==>
      Careful(caps, a, r) && (Run(caps, a, r).ok ==> Careful(caps, b, Run(caps, a, r).repo))
  {
    if a == [] {
      assert a + b == b;
    } else {
      assert (a + b)[1..] == a[1..] + b;
      CarefulAppend(caps, a[1..], b, Do(caps, a[0], r).repo);
    }
  }

  /**
   * The repository that reads as empty for good: it holds commits, its flag says it does not, and
   * no push is left to clear it.
   */
  predicate Stuck(r: Repo) {
    r.empty && !r.pending && r.branches != map[]
  }

  /** A careful run never leaves one behind, at any point, whatever the forge's schedule. */
  lemma {:induction false} CarefulNeverSticks(caps: Caps, steps: seq<Step>, applies: seq<bool>, a: Repo, b: Repo)
    requires |applies| == |steps| && Careful(caps, steps, a) && Ahead(a, b)
    requires !Stuck(a)
    ensures !Stuck(RunOn(caps, steps, applies, b).repo)
  {
    if steps != [] {
      var now := if applies[0] then Applied(b) else b;
      StepAhead(caps, steps[0], a, now);
      StepNeverSticks(caps, steps[0], a);
      if Do(caps, steps[0], a).ok {
        CarefulNeverSticks(caps, steps[1..], applies[1..], Do(caps, steps[0], a).repo, Do(caps, steps[0], now).repo);
      }
    }
  }

  lemma StepNeverSticks(caps: Caps, step: Step, r: Repo)
    requires !Stuck(r) && (step.UpdateSettings? ==> !(r.pending && r.empty))
    ensures !Stuck(Do(caps, step, r).repo)
  {
  }

  /** Nor does any part of one: finished or killed after any write, on any schedule. */
  lemma CarefulPrefixNeverSticks(caps: Caps, steps: seq<Step>, applies: seq<bool>, r: Repo)
    requires Careful(caps, steps, r) && !Stuck(r) && |applies| <= |steps|
    ensures !Stuck(RunOn(caps, steps[..|applies|], applies, r).repo)
  {
    hide Careful, Stuck, RunOn, Do;
    assert steps == steps[..|applies|] + steps[|applies|..];
    CarefulAppend(caps, steps[..|applies|], steps[|applies|..], r);
    CarefulNeverSticks(caps, steps[..|applies|], applies, r, r);
  }

  predicate Pushes(step: Step) {
    step.PushSeed? || step.PushBaseline? || step.DeleteRefs?
  }

  lemma {:induction false} NoPushIsQuiet(caps: Caps, steps: seq<Step>, r: Repo)
    requires !r.pending && forall i :: 0 <= i < |steps| ==> !Pushes(steps[i])
    ensures Quiet(caps, steps, r) && !Run(caps, steps, r).repo.pending
  {
    if steps != [] && Do(caps, steps[0], r).ok {
      NoPushIsQuiet(caps, steps[1..], Do(caps, steps[0], r).repo);
    }
  }

  // ------------------------------------------------------------ what makes a repository unreadable

  predicate Archives(step: Step) {
    step.UpdateSettings? && step.s.archived == Some(true)
  }

  lemma OnlyArchivingArchives(caps: Caps, step: Step, r: Repo)
    requires !r.archived && !Archives(step)
    ensures !Do(caps, step, r).repo.archived && !Do(caps, step, Applied(r)).repo.archived
  {
  }

  lemma {:induction false} StaysReadable(caps: Caps, steps: seq<Step>, applies: seq<bool>, r: Repo)
    requires |applies| == |steps| && !r.archived
    requires forall i :: 0 <= i < |steps| ==> !Archives(steps[i])
    ensures !RunOn(caps, steps, applies, r).repo.archived
  {
    if steps != [] {
      OnlyArchivingArchives(caps, steps[0], r);
      var first := Do(caps, steps[0], if applies[0] then Applied(r) else r);
      if first.ok {
        StaysReadable(caps, steps[1..], applies[1..], first.repo);
      }
    }
  }

  /** Where only the last write archives, archived means that every write went through. */
  lemma {:induction false} ArchivedMeansDone(caps: Caps, steps: seq<Step>, applies: seq<bool>, r: Repo)
    requires |applies| == |steps| && !r.archived
    requires forall i :: 0 <= i < |steps| - 1 ==> !Archives(steps[i])
    ensures RunOn(caps, steps, applies, r).repo.archived ==> RunOn(caps, steps, applies, r).ok
  {
    if steps != [] {
      var first := Do(caps, steps[0], if applies[0] then Applied(r) else r);
      if first.ok && |steps| > 1 {
        OnlyArchivingArchives(caps, steps[0], r);
        ArchivedMeansDone(caps, steps[1..], applies[1..], first.repo);
      }
    }
  }
}
