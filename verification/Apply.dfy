/** apply: what one declared repository is found to need, the writes that give it, and killing them. */
module Apply {
  import opened Text
  import opened ForgeModel
  import opened Compare

  datatype Note = VisibilityNote | ArchivedNote | TopicsNote | DefaultBranchNote | RemoveNote

  /** What apply would do to one declared repository. */
  datatype Change = Change(
    want: LockRepo,
    live: Option<Repo>,
    create: bool,
    push: bool,
    recheck: bool,
    staleTags: seq<string>,
    staleBranches: seq<string>,
    notes: seq<Note>)

  predicate Needed(c: Change) {
    c.create || c.push || c.recheck || c.notes != []
  }

  datatype Planned = Guarded(guard: Guard) | Plan(change: Change)

  /** The seed is there: the baseline tag and every declared tag at it, and a default branch. */
  predicate Seeded(want: LockRepo, r: Repo) {
    && (forall t :: t in want.tags + [BASELINE_TAG] ==> t in r.tags && r.tags[t] == want.baseline)
    && want.defaultBranch in r.branches
  }

  /** Of the first `n` tags the previous lock declared, those no longer declared and still there. */
  function StaleTags(want: LockRepo, prev: LockRepo, r: Repo, n: nat): (stale: seq<string>)
    requires n <= |prev.tags|
    ensures forall t :: t in stale <==> t in prev.tags[..n] && t !in want.tags && t in r.tags
  {
    if n == 0 then []
    else
      var t := prev.tags[n - 1];
      assert prev.tags[..n] == prev.tags[..n - 1] + [t];
      StaleTags(want, prev, r, n - 1) + if t !in want.tags && t in r.tags then [t] else []
  }

  function StaleBranches(want: LockRepo, prev: LockRepo, r: Repo): seq<string> {
    if prev.defaultBranch != want.defaultBranch && prev.defaultBranch in r.branches then [prev.defaultBranch] else []
  }

  function SettingsNotes(sb: Sandbox, want: LockRepo, r: Repo): seq<Note> {
    (if sb.caps.visibility && r.visibility != want.visibility then [VisibilityNote] else [])
    + (if r.archived != want.archived then [ArchivedNote] else [])
    + (if sb.caps.topics && Sort(r.topics) != want.topics then [TopicsNote] else [])
  }

  /** What the comparison of one repository with the fleet and the previous lock comes to. */
  function Diff(sb: Sandbox, want: LockRepo, prev: Option<LockRepo>, live: Option<Repo>): Planned {
    var none := Change(want, live, false, false, false, [], [], []);
    match live
    case None => Plan(none.(create := true))
    case Some(r) =>
      if !IsOurs(sb, r) then Guarded(NotOurs)
      else
        var c := none.(notes := SettingsNotes(sb, want, r));
        if Blind(sb, r) then Plan(c.(recheck := !want.archived && !want.empty))
        else if want.empty then (if r.empty then Plan(c) else Guarded(NoLongerEmpty))
        else if r.empty then Plan(c.(push := true))
        else
          var tags := if prev.Some? then StaleTags(want, prev.value, r, |prev.value.tags|) else [];
          var branches := if prev.Some? then StaleBranches(want, prev.value, r) else [];
          Plan(c.(push := !Seeded(want, r), staleTags := tags, staleBranches := branches,
                  notes := c.notes
                    + (if r.defaultBranch != want.defaultBranch then [DefaultBranchNote] else [])
                    + (if tags + branches != [] then [RemoveNote] else [])))
  }

  method SettingsDiff(sb: Sandbox, want: LockRepo, r: Repo) returns (notes: seq<Note>)
    ensures notes == SettingsNotes(sb, want, r)
  {
    notes := [];
    if sb.caps.visibility && r.visibility != want.visibility {
      notes := notes + [VisibilityNote];
    }
    if r.archived != want.archived {
      notes := notes + [ArchivedNote];
    }
    if sb.caps.topics && Sort(r.topics) != want.topics {
      notes := notes + [TopicsNote];
    }
  }

  method StaleRefs(want: LockRepo, prev: LockRepo, r: Repo) returns (tags: seq<string>, branches: seq<string>)
    ensures tags == StaleTags(want, prev, r, |prev.tags|)
    ensures branches == StaleBranches(want, prev, r)
  {
    tags, branches := [], [];
    for i := 0 to |prev.tags|
      invariant tags == StaleTags(want, prev, r, i)
    {
      if prev.tags[i] !in want.tags && prev.tags[i] in r.tags {
        tags := tags + [prev.tags[i]];
      }
    }
    if prev.defaultBranch != want.defaultBranch && prev.defaultBranch in r.branches {
      branches := [prev.defaultBranch];
    }
  }

  method HasSeed(want: LockRepo, r: Repo) returns (has: bool)
    ensures has == Seeded(want, r)
  {
    has := BASELINE_TAG in r.tags && r.tags[BASELINE_TAG] == want.baseline && want.defaultBranch in r.branches;
    for i := 0 to |want.tags|
      invariant has <==>
        && BASELINE_TAG in r.tags && r.tags[BASELINE_TAG] == want.baseline && want.defaultBranch in r.branches
        && forall j :: 0 <= j < i ==> want.tags[j] in r.tags && r.tags[want.tags[j]] == want.baseline
    {
      if !(want.tags[i] in r.tags && r.tags[want.tags[i]] == want.baseline) {
        has := false;
      }
    }
  }

  method DiffOne(sb: Sandbox, want: LockRepo, live: Option<Repo>, previous: Option<LockRepo>) returns (p: Planned)
    ensures p == Diff(sb, want, previous, live)
  {
    hide Seeded, StaleTags, StaleBranches, SettingsNotes;
    var c := Change(want, live, false, false, false, [], [], []);
    if live.None? {
      return Plan(c.(create := true));
    }
    var r := live.value;
    if !IsOurs(sb, r) {
      return Guarded(NotOurs);
    }
    var notes := SettingsDiff(sb, want, r);
    if sb.caps.archivedUnreadable && r.archived {
      return Plan(c.(notes := notes, recheck := !want.archived && !want.empty));
    }
    if want.empty {
      return if r.empty then Plan(c.(notes := notes)) else Guarded(NoLongerEmpty);
    }
    if r.empty {
      return Plan(c.(notes := notes, push := true));
    }
    if r.defaultBranch != want.defaultBranch {
      notes := notes + [DefaultBranchNote];
    }
    var has := HasSeed(want, r);
    var tags, branches := [], [];
    if previous.Some? {
      tags, branches := StaleRefs(want, previous.value, r);
      if tags + branches != [] {
        notes := notes + [RemoveNote];
      }
    }
    p := Plan(c.(push := !has, staleTags := tags, staleBranches := branches, notes := notes));
  }

  // ------------------------------------------------------------ the writes

  function Seed(want: LockRepo): Step {
    PushSeed(want.defaultBranch, want.baseline, want.tags)
  }

  /** Whether this run pushes: planned so, or found out once the repository is readable again. */
  predicate PushesSeed(c: Change, r: Repo) {
    && !c.want.empty
    && (c.create || if c.recheck then !BaselineIntact(c.want, r) else c.push)
  }

  function FirstHalf(c: Change, r: Repo): seq<Step> {
    (if c.live.Some? && c.live.value.archived then [UNARCHIVE] else [])
    + (if PushesSeed(c, r) then [LiftIfRefused(Seed(c.want)), Seed(c.want)] else [])
  }

  /** Only what differs from the repository as last read; all of it when it could not be read. */
  function SettlingSettings(sb: Sandbox, want: LockRepo, current: Option<Repo>): Settings {
    Settings(
      if !want.empty && (current.None? || current.value.defaultBranch != want.defaultBranch)
        then Some(want.defaultBranch) else None,
      if sb.caps.visibility && (current.None? || current.value.visibility != want.visibility)
        then Some(want.visibility) else None,
      None)
  }

  function SecondHalf(sb: Sandbox, c: Change, pushed: bool, current: Option<Repo>): seq<Step> {
    var settings := SettlingSettings(sb, c.want, current);
    (if (settings != NO_SETTINGS || c.want.archived) && pushed
       then [WaitPushed(c.want.defaultBranch, c.want.baseline)] else [])
    + (if settings != NO_SETTINGS then [UpdateSettings(settings)] else [])
    + (if sb.caps.topics && (current.None? || Sort(current.value.topics) != c.want.topics)
         then [SetTopics(c.want.topics)] else [])
    + (if c.staleTags + c.staleBranches != [] then [DeleteRefs(c.staleBranches, c.staleTags)] else [])
    + (if c.want.archived then [ARCHIVE] else [])
  }

  /** Every write apply sends to a repository that is there, in order. */
  function ApplySteps(sb: Sandbox, c: Change, r: Repo): seq<Step> {
    FirstHalf(c, r) + SecondHalf(sb, c, PushesSeed(c, r), Some(r))
  }

  // ------------------------------------------------------------ where apply takes a repository

  predicate NeedsSeed(want: LockRepo, r: Repo) {
    !want.empty && (r.empty || !Seeded(want, r))
  }

  predicate OldTag(want: LockRepo, prev: Option<LockRepo>, t: string) {
    prev.Some? && t in prev.value.tags && t !in want.tags
  }

  predicate OldBranch(want: LockRepo, prev: Option<LockRepo>, b: string) {
    prev.Some? && b == prev.value.defaultBranch && b != want.defaultBranch
  }

  function GoalBranches(want: LockRepo, prev: Option<LockRepo>, r: Repo): map<string, string> {
    var branches := if NeedsSeed(want, r) then r.branches[want.defaultBranch := want.baseline] else r.branches;
    branches - (set b | b in branches && OldBranch(want, prev, b))
  }

  function GoalTags(want: LockRepo, prev: Option<LockRepo>, r: Repo): map<string, string> {
    var tags := if NeedsSeed(want, r) then Tagged(r.tags, want.tags + [BASELINE_TAG], want.baseline) else r.tags;
    tags - (set t | t in tags && OldTag(want, prev, t))
  }

  function GoalRules(want: LockRepo, r: Repo): set<string> {
    if NeedsSeed(want, r) && Governed(r, want.defaultBranch) then Lifted(r, want.defaultBranch).rules else r.rules
  }

  /** Everything apply owns as the fleet declares it; everything else as it is. */
  function Goal(sb: Sandbox, want: LockRepo, prev: Option<LockRepo>, r: Repo): Repo {
    r.(
      archived := want.archived,
      visibility := if sb.caps.visibility then want.visibility else r.visibility,
      topics := if sb.caps.topics then want.topics else r.topics,
      defaultBranch := if want.empty then r.defaultBranch else want.defaultBranch,
      empty := want.empty,
      pending := false,
      branches := GoalBranches(want, prev, r),
      tags := GoalTags(want, prev, r),
      rules := GoalRules(want, r))
  }

  /**
   * What holds of every repository apply meets, finished or not: forgelab's own; empty only
   * without commits, or with nothing but this fleet's seed on its way in.
   */
  predicate Sound(sb: Sandbox, want: LockRepo, r: Repo) {
    && IsOurs(sb, r)
    && (want.empty ==> r.empty && !r.pending)
    && (r.empty && !r.pending ==> r.branches == map[] && r.tags == map[])
    && (r.empty && r.pending ==>
          && !r.archived && !Governed(r, want.defaultBranch)
          && r.branches == map[want.defaultBranch := want.baseline] && r.tags == BaselineTags(want))
  }

  /** A previous lock is one `load_spec` led to. */
  predicate LegalPrevious(prev: Option<LockRepo>) {
    prev.Some? ==> BASELINE_TAG !in prev.value.tags
  }

  /** A write that leaves the goal where it is. */
  predicate Lawful(sb: Sandbox, want: LockRepo, prev: Option<LockRepo>, step: Step, r: Repo) {
    match step
    case UpdateSettings(s) =>
      && !(r.pending && r.empty)
      && (s.defaultBranch.Some? ==> !want.empty && s.defaultBranch.value == want.defaultBranch)
      && (s.visibility.Some? ==> s.visibility.value == want.visibility)
    case PushSeed(_, _, _) => step == Seed(want) && NeedsSeed(want, r)
    case LiftIfRefused(push) => push == Seed(want) && NeedsSeed(want, r)
    case WaitPushed(_, _) => !want.empty
    case SetTopics(ts) => ts == want.topics
    case DeleteRefs(bs, ts) =>
      && !r.empty
      && (forall b :: b in bs ==> OldBranch(want, prev, b)) && (forall t :: t in ts ==> OldTag(want, prev, t))
    case _ => false
  }

  /** What a step must not disturb for the goal to stay where it is. */
  predicate SameAim(sb: Sandbox, want: LockRepo, prev: Option<LockRepo>, a: Repo, b: Repo) {
    && a.description == b.description && a.requests == b.requests
    && (!sb.caps.visibility ==> a.visibility == b.visibility)
    && (!sb.caps.topics ==> a.topics == b.topics)
    && (want.empty ==> a.defaultBranch == b.defaultBranch)
    && GoalBranches(want, prev, a) == GoalBranches(want, prev, b)
    && GoalTags(want, prev, a) == GoalTags(want, prev, b)
    && GoalRules(want, a) == GoalRules(want, b)
  }

  lemma SameAimSameGoal(sb: Sandbox, want: LockRepo, prev: Option<LockRepo>, a: Repo, b: Repo)
    requires SameAim(sb, want, prev, a, b)
    ensures Goal(sb, want, prev, a) == Goal(sb, want, prev, b)
  {
    hide GoalBranches, GoalTags, GoalRules;
  }

  lemma SameRefsSameAim(want: LockRepo, prev: Option<LockRepo>, a: Repo, b: Repo)
    requires a.branches == b.branches && a.tags == b.tags && a.rules == b.rules
    requires NeedsSeed(want, a) == NeedsSeed(want, b)
    ensures GoalBranches(want, prev, a) == GoalBranches(want, prev, b)
    ensures GoalTags(want, prev, a) == GoalTags(want, prev, b)
    ensures GoalRules(want, a) == GoalRules(want, b)
  {
    hide NeedsSeed;
    assert Governed(a, want.defaultBranch) == Governed(b, want.defaultBranch);
    assert Lifted(a, want.defaultBranch).rules == Lifted(b, want.defaultBranch).rules;
  }

  lemma SeedSettlesTheAim(sb: Sandbox, want: LockRepo, prev: Option<LockRepo>, r: Repo)
    requires WellFormed(want) && NeedsSeed(want, r) && Do(sb.caps, Seed(want), r).ok
    ensures Seeded(want, Do(sb.caps, Seed(want), r).repo)
    ensures SameAim(sb, want, prev, r, Do(sb.caps, Seed(want), r).repo)
  {
    var next := Do(sb.caps, Seed(want), r).repo;
    assert Governed(next, want.defaultBranch) == Governed(r, want.defaultBranch);
    assert Tagged(next.tags, want.tags + [BASELINE_TAG], want.baseline) == next.tags;
    assert next.branches[want.defaultBranch := want.baseline] == next.branches;
    assert GoalBranches(want, prev, r) == GoalBranches(want, prev, next);
    assert GoalTags(want, prev, r) == GoalTags(want, prev, next);
  }

  lemma SeedIsSound(sb: Sandbox, want: LockRepo, r: Repo)
    requires WellFormed(want) && Sound(sb, want, r) && NeedsSeed(want, r)
    ensures Sound(sb, want, Do(sb.caps, Seed(want), r).repo)
  {
    var next := Do(sb.caps, Seed(want), r).repo;
    if Do(sb.caps, Seed(want), r).ok && r.empty {
      assert Governed(next, want.defaultBranch) == Governed(r, want.defaultBranch);
      assert next.tags == BaselineTags(want);
    }
  }

  lemma SeedKeepsGoal(sb: Sandbox, want: LockRepo, prev: Option<LockRepo>, r: Repo)
    requires WellFormed(want) && Sound(sb, want, r) && NeedsSeed(want, r)
    ensures Sound(sb, want, Do(sb.caps, Seed(want), r).repo)
    ensures Goal(sb, want, prev, Do(sb.caps, Seed(want), r).repo) == Goal(sb, want, prev, r)
  {
    hide Goal, Sound, SameAim, NeedsSeed;
    SeedIsSound(sb, want, r);
    if Do(sb.caps, Seed(want), r).ok {
      SeedSettlesTheAim(sb, want, prev, r);
      SameAimSameGoal(sb, want, prev, r, Do(sb.caps, Seed(want), r).repo);
    }
  }

  lemma LiftKeepsGoal(sb: Sandbox, want: LockRepo, prev: Option<LockRepo>, r: Repo)
    requires WellFormed(want) && Sound(sb, want, r) && NeedsSeed(want, r)
    ensures Sound(sb, want, Do(sb.caps, LiftIfRefused(Seed(want)), r).repo)
    ensures Goal(sb, want, prev, Do(sb.caps, LiftIfRefused(Seed(want)), r).repo) == Goal(sb, want, prev, r)
  {
    hide GoalBranches, GoalTags;
    var next := Do(sb.caps, LiftIfRefused(Seed(want)), r).repo;
    LiftClearsTheWay(r, want.defaultBranch);
    assert next == r || next == Lifted(r, want.defaultBranch);
    LiftChangesNoRefs(want, prev, r);
  }

  lemma LiftChangesNoRefs(want: LockRepo, prev: Option<LockRepo>, r: Repo)
    ensures GoalBranches(want, prev, Lifted(r, want.defaultBranch)) == GoalBranches(want, prev, r)
    ensures GoalTags(want, prev, Lifted(r, want.defaultBranch)) == GoalTags(want, prev, r)
  {
    hide Lifted;
    var next := Lifted(r, want.defaultBranch);
    assert next.branches == r.branches && next.tags == r.tags && next.empty == r.empty by {
      LiftedKeepsRefs(r, want.defaultBranch);
    }
  }

  lemma LiftedKeepsRefs(r: Repo, branch: string)
    ensures Lifted(r, branch) == r.(rules := Lifted(r, branch).rules)
  {
  }

  /** Refs that are no longer declared are not part of the seed. */
  lemma RemovalKeepsSeed(want: LockRepo, prev: Option<LockRepo>, bs: seq<string>, ts: seq<string>, r: Repo)
    requires WellFormed(want) && LegalPrevious(prev)
    requires forall b :: b in bs ==> OldBranch(want, prev, b)
    requires forall t :: t in ts ==> OldTag(want, prev, t)
    ensures
      var next := r.(branches := r.branches - (set b | b in bs), tags := r.tags - (set t | t in ts), pending := true);
      Seeded(want, next) == Seeded(want, r)
  {
    forall t | t in want.tags + [BASELINE_TAG] ensures t !in ts {
      assert !OldTag(want, prev, t);
    }
  }

  lemma RemovalKeepsBranches(want: LockRepo, prev: Option<LockRepo>, bs: seq<string>, a: Repo, b: Repo)
    requires forall x :: x in bs ==> OldBranch(want, prev, x)
    requires b.branches == a.branches - (set x | x in bs) && NeedsSeed(want, a) == NeedsSeed(want, b)
    ensures GoalBranches(want, prev, a) == GoalBranches(want, prev, b)
  {
    hide NeedsSeed;
    assert !OldBranch(want, prev, want.defaultBranch);
  }

  lemma RemovalKeepsTags(want: LockRepo, prev: Option<LockRepo>, ts: seq<string>, a: Repo, b: Repo)
    requires forall x :: x in ts ==> OldTag(want, prev, x)
    requires b.tags == a.tags - (set x | x in ts) && NeedsSeed(want, a) == NeedsSeed(want, b)
    ensures GoalTags(want, prev, a) == GoalTags(want, prev, b)
  {
    hide NeedsSeed, OldTag;
    var declared := want.tags + [BASELINE_TAG];
    var left, right := GoalTags(want, prev, a), GoalTags(want, prev, b);
    forall t ensures t in left <==> t in right {
    }
    forall t | t in left ensures left[t] == right[t] {
    }
  }

  lemma RemovalKeepsGoal(sb: Sandbox, want: LockRepo, prev: Option<LockRepo>, step: Step, r: Repo)
    requires WellFormed(want) && LegalPrevious(prev) && Sound(sb, want, r)
    requires step.DeleteRefs? && Lawful(sb, want, prev, step, r)
    ensures Sound(sb, want, Do(sb.caps, step, r).repo)
    ensures Goal(sb, want, prev, Do(sb.caps, step, r).repo) == Goal(sb, want, prev, r)
  {
    hide GoalBranches, GoalTags, GoalRules, Seeded, OldTag, OldBranch;
    var next := Do(sb.caps, step, r).repo;
    if Do(sb.caps, step, r).ok {
      RemovalKeepsSeed(want, prev, step.oldBranches, step.oldTags, r);
      RemovalKeepsBranches(want, prev, step.oldBranches, r, next);
      RemovalKeepsTags(want, prev, step.oldTags, r, next);
      RemovalKeepsRules(want, r, next);
    }
  }

  lemma RemovalKeepsRules(want: LockRepo, a: Repo, b: Repo)
    requires a.rules == b.rules && NeedsSeed(want, a) == NeedsSeed(want, b)
    ensures GoalRules(want, a) == GoalRules(want, b)
  {
    hide NeedsSeed;
    assert Governed(a, want.defaultBranch) == Governed(b, want.defaultBranch);
    assert Lifted(a, want.defaultBranch).rules == Lifted(b, want.defaultBranch).rules;
  }

  /** The seed of a first push, once applied, is all there. */
  lemma SeededAtLast(want: LockRepo, a: Repo, b: Repo)
    requires a.branches == map[want.defaultBranch := want.baseline] && a.tags == BaselineTags(want)
    requires a.branches == b.branches && a.tags == b.tags && a.rules == b.rules && !Governed(a, want.defaultBranch)
    ensures Seeded(want, a)
    ensures forall prev :: GoalBranches(want, prev, a) == GoalBranches(want, prev, b)
    ensures forall prev :: GoalTags(want, prev, a) == GoalTags(want, prev, b)
    ensures GoalRules(want, a) == GoalRules(want, b)
  {
    assert a.branches[want.defaultBranch := want.baseline] == a.branches;
    assert Tagged(a.tags, want.tags + [BASELINE_TAG], want.baseline) == a.tags;
    assert Governed(b, want.defaultBranch) == Governed(a, want.defaultBranch);
  }

  lemma SettingsKeepGoal(sb: Sandbox, want: LockRepo, prev: Option<LockRepo>, step: Step, r: Repo)
    requires WellFormed(want) && Sound(sb, want, r) && Lawful(sb, want, prev, step, r)
    requires step.UpdateSettings? || step.SetTopics? || step.WaitPushed?
    ensures Sound(sb, want, Do(sb.caps, step, r).repo)
    ensures Goal(sb, want, prev, Do(sb.caps, step, r).repo) == Goal(sb, want, prev, r)
  {
    hide GoalBranches, GoalTags, GoalRules;
    var next := Do(sb.caps, step, r).repo;
    assert Governed(next, want.defaultBranch) == Governed(r, want.defaultBranch);
    assert Seeded(want, next) == Seeded(want, r);
    if r.empty && !next.empty {
      SeededAtLast(want, r, next);
    } else {
      SameRefsSameAim(want, prev, r, next);
    }
  }

  lemma StepKeepsGoal(sb: Sandbox, want: LockRepo, prev: Option<LockRepo>, step: Step, r: Repo)
    requires WellFormed(want) && LegalPrevious(prev) && Sound(sb, want, r) && Lawful(sb, want, prev, step, r)
    ensures Sound(sb, want, Do(sb.caps, step, r).repo)
    ensures Goal(sb, want, prev, Do(sb.caps, step, r).repo) == Goal(sb, want, prev, r)
  {
    hide Do, Goal, Sound;
    match step
    case PushSeed(_, _, _) => SeedKeepsGoal(sb, want, prev, r);
    case LiftIfRefused(_) => LiftKeepsGoal(sb, want, prev, r);
    case DeleteRefs(_, _) => RemovalKeepsGoal(sb, want, prev, step, r);
    case _ => SettingsKeepGoal(sb, want, prev, step, r);
  }

  /** And so does time: a repository soon to be applied is one already applied. */
  lemma AheadKeepsGoal(sb: Sandbox, want: LockRepo, prev: Option<LockRepo>, a: Repo, b: Repo)
    requires WellFormed(want) && Sound(sb, want, a) && Ahead(a, b)
    ensures Sound(sb, want, b) && Goal(sb, want, prev, b) == Goal(sb, want, prev, a)
  {
    hide GoalBranches, GoalTags, GoalRules;
    AheadDiffersInTimeOnly(a, b);
    assert Governed(b, want.defaultBranch) == Governed(a, want.defaultBranch);
    assert Seeded(want, b) == Seeded(want, a);
    if a.empty && !b.empty {
      SeededAtLast(want, a, b);
    } else {
      SameRefsSameAim(want, prev, a, b);
    }
  }
}
