/** apply to a repository that could not be read when the plan was made: archived, where that means unreadable. */
module ApplyUnread {
  import opened Text
  import opened ForgeModel
  import opened Compare
  import opened Apply
  import opened ApplyRuns

  /** What is planned unread: the settings, and to look at the baseline tag once that can be done. */
  predicate Unread(c: Change, r: Repo) {
    && c.live == Some(r) && r.archived
    && c.staleTags == [] && c.staleBranches == [] && !c.create && !c.push
    && c.recheck == (!c.want.archived && !c.want.empty)
  }

  lemma UnreadPlan(sb: Sandbox, want: LockRepo, prev: Option<LockRepo>, r: Repo)
    requires IsOurs(sb, r) && Blind(sb, r)
    ensures Diff(sb, want, prev, Some(r)).Plan?
    ensures Diff(sb, want, prev, Some(r)).change.want == want && Unread(Diff(sb, want, prev, Some(r)).change, r)
  {
    hide SettingsNotes, Seeded, StaleTags, StaleBranches;
  }

  /** Only the baseline tag is asked for: a push that follows is one the seed needs, but not the reverse. */
  lemma RecheckedIsNeeded(c: Change, r: Repo)
    requires Unread(c, r)
    ensures PushesSeed(c, r) <==> !c.want.archived && !c.want.empty && !BaselineIntact(c.want, r)
    ensures PushesSeed(c, r) ==> NeedsSeed(c.want, r)
  {
    assert BASELINE_TAG in c.want.tags + [BASELINE_TAG];
  }

  /** The forge knows the default branch the settings ask for. */
  predicate DefaultKnown(sb: Sandbox, want: LockRepo, current: Option<Repo>, r: Repo) {
    SettlingSettings(sb, want, current).defaultBranch.Some? ==> want.defaultBranch in r.branches
  }

  lemma UnreadFirstHalf(sb: Sandbox, prev: Option<LockRepo>, c: Change, r: Repo)
    requires WellFormed(c.want) && Sound(sb, c.want, r) && Unread(c, r)
    ensures
      var next := AfterFirst(sb.caps, c, r);
      && Goes(sb, c.want, prev, FirstHalf(c, r), r, next) && (!r.pending ==> Quiet(sb.caps, FirstHalf(c, r), r))
      && !next.archived
      && (if PushesSeed(c, r) then !c.want.empty && Lists(Applied(next), c.want.defaultBranch, c.want.baseline)
          else !next.pending && next.branches == r.branches)
  {
    RecheckedIsNeeded(c, r);
    FirstHalfGoes(sb, prev, c, r);
    hide Goes, Quiet, Governed, Lifted, BaselineIntact, NeedsSeed, FirstHalf;
  }

  lemma UnreadSettings(sb: Sandbox, want: LockRepo, prev: Option<LockRepo>, current: Option<Repo>, w: Repo)
    requires !w.archived && (SettingsSteps(sb, want, current) != [] ==> !w.pending)
    ensures LawfulRun(sb, want, prev, SettingsSteps(sb, want, current), w)
    ensures Quiet(sb.caps, SettingsSteps(sb, want, current), w)
    ensures Run(sb.caps, SettingsSteps(sb, want, current), w).ok <==> DefaultKnown(sb, want, current, w)
    ensures DefaultKnown(sb, want, current, w) ==>
      Run(sb.caps, SettingsSteps(sb, want, current), w).repo == AfterSettings(sb, want, current, w)
  {
    if SettingsSteps(sb, want, current) != [] {
      var step := SettingsSteps(sb, want, current)[0];
      assert SettingsSteps(sb, want, current) == [step];
      RunOne(sb.caps, step, w);
      QuietOne(sb.caps, step, w);
      assert [step][1..] == [];
    }
  }

  /** Past the settings nothing can be refused: there is nothing stale to remove. */
  lemma UnreadRest(sb: Sandbox, prev: Option<LockRepo>, c: Change, current: Option<Repo>, s: Repo)
    requires c.staleTags == [] && c.staleBranches == [] && !s.archived && (c.want.archived ==> !s.pending)
    ensures
      var steps := TopicsSteps(sb, c.want, current) + (RemovalSteps(c) + ArchiveSteps(c.want));
      var t := AfterTopics(sb, c.want, current, s);
      && Goes(sb, c.want, prev, steps, s, if c.want.archived then t.(archived := true, pending := false) else t)
      && Quiet(sb.caps, steps, s)
  {
    hide Run, LawfulRun, Quiet, TopicsSteps;
    var t := AfterTopics(sb, c.want, current, s);
    TopicsGo(sb, c.want, prev, current, s);
    ArchiveGoes(sb, c.want, prev, t);
    assert RemovalSteps(c) + ArchiveSteps(c.want) == ArchiveSteps(c.want);
    GoesOn(sb, c.want, prev, TopicsSteps(sb, c.want, current), ArchiveSteps(c.want), s, t);
  }

  lemma UnreadSecondHalf(sb: Sandbox, prev: Option<LockRepo>, c: Change, pushed: bool, current: Option<Repo>, r: Repo)
    requires c.staleTags == [] && c.staleBranches == [] && !r.archived
    requires if pushed then !c.want.empty && Lists(Applied(r), c.want.defaultBranch, c.want.baseline) else !r.pending
    ensures LawfulRun(sb, c.want, prev, SecondHalf(sb, c, pushed, current), r)
    ensures Quiet(sb.caps, SecondHalf(sb, c, pushed, current), r)
    ensures Run(sb.caps, SecondHalf(sb, c, pushed, current), r).ok <==> DefaultKnown(sb, c.want, current, r)
    ensures DefaultKnown(sb, c.want, current, r) ==>
      Run(sb.caps, SecondHalf(sb, c, pushed, current), r).repo == AfterSecond(sb, c, pushed, current, r)
  {
    var want := c.want;
    var a, b := Waits(sb, want, pushed, current), SettingsSteps(sb, want, current);
    var rest := TopicsSteps(sb, want, current) + (RemovalSteps(c) + ArchiveSteps(want));
    var w := AfterWaits(sb, want, pushed, current, r);
    var s := AfterSettings(sb, want, current, w);
    assert !w.archived && w.branches == r.branches && (b != [] || want.archived ==> !w.pending);
    assert !s.archived && (want.archived ==> !s.pending);
    hide Run, LawfulRun, Quiet, AfterWaits, AfterSettings, AfterTopics, Waits;
    hide SettingsSteps, TopicsSteps, Lists, Applied;
    SecondHalfIs(sb, c, pushed, current);
    WaitsGo(sb, prev, c, pushed, current, r);
    UnreadSettings(sb, want, prev, current, w);
    UnreadRest(sb, prev, c, current, s);
    LawfulAppend(sb, want, prev, b, rest, w);
    RunAppend(sb.caps, b, rest, w);
    QuietAppend(sb.caps, b, rest, w);
    GoesOn(sb, want, prev, a, b + rest, r, w);
  }

  /**
   * The whole run is lawful and keeps its settings clear of its own pushes. It is refused only where
   * the forge does not know the default branch to set, and no push of this run has made it known.
   */
  lemma UnreadRunGoes(sb: Sandbox, prev: Option<LockRepo>, c: Change, current: Option<Repo>, r: Repo)
    requires WellFormed(c.want) && Sound(sb, c.want, r) && Unread(c, r)
    ensures LawfulRun(sb, c.want, prev, Steps(sb, c, current, r), r)
    ensures !r.pending ==> Quiet(sb.caps, Steps(sb, c, current, r), r)
    ensures Run(sb.caps, Steps(sb, c, current, r), r).ok <==>
      PushesSeed(c, r) || DefaultKnown(sb, c.want, current, r)
    ensures Run(sb.caps, Steps(sb, c, current, r), r).ok ==>
      Run(sb.caps, Steps(sb, c, current, r), r).repo
        == AfterSecond(sb, c, PushesSeed(c, r), current, AfterFirst(sb.caps, c, r))
  {
    hide Run, LawfulRun, Quiet, FirstHalf, SecondHalf, AfterFirst, AfterSecond;
    hide Sound, PushesSeed, SettlingSettings, Applied;
    var mid := AfterFirst(sb.caps, c, r);
    UnreadFirstHalf(sb, prev, c, r);
    UnreadSecondHalf(sb, prev, c, PushesSeed(c, r), current, mid);
    GoesOn(sb, c.want, prev, FirstHalf(c, r), SecondHalf(sb, c, PushesSeed(c, r), current), r, mid);
    SameBranchesApplied(mid);
  }

  /** What the forge must hold for the settings of an unread plan to be taken. */
  predicate Settles(want: LockRepo, r: Repo) {
    || want.empty || r.defaultBranch == want.defaultBranch || want.defaultBranch in r.branches
    || (!want.archived && !BaselineIntact(want, r))
  }

  /** Planned from what was read before the run, it is refused exactly when `Settles` fails. */
  lemma UnreadIsRefusedWhen(sb: Sandbox, want: LockRepo, prev: Option<LockRepo>, r: Repo)
    requires WellFormed(want) && Sound(sb, want, r) && Blind(sb, r)
    ensures Diff(sb, want, prev, Some(r)).Plan?
    ensures Run(sb.caps, ApplySteps(sb, Diff(sb, want, prev, Some(r)).change, r), r).ok <==> Settles(want, r)
  {
    assert IsOurs(sb, r);
    hide Run, LawfulRun, Quiet, Diff, AfterFirst, AfterSecond, Sound, PushesSeed, FirstHalf, SecondHalf;
    UnreadPlan(sb, want, prev, r);
    var c := Diff(sb, want, prev, Some(r)).change;
    RecheckedIsNeeded(c, r);
    UnreadRunGoes(sb, prev, c, Some(r), r);
  }

  lemma SameBranchesApplied(r: Repo)
    ensures Applied(r).branches == r.branches
  {
  }

  /**
   * So a run of apply that could not read its repository never writes settings while its own push is
   * pending, on any schedule, and never leaves, finished or killed, one that reads as empty for good.
   */
  lemma UnreadKeepsSettingsClearOfPushes(sb: Sandbox, want: LockRepo, prev: Option<LockRepo>, current: Option<Repo>,
        r: Repo)
    requires WellFormed(want) && Sound(sb, want, r) && Blind(sb, r) && !r.pending
    ensures Diff(sb, want, prev, Some(r)).Plan?
    ensures
      var steps := Steps(sb, Diff(sb, want, prev, Some(r)).change, current, r);
      && (forall applies: seq<bool> | |applies| == |steps| :: QuietOn(sb.caps, steps, applies, r))
      && forall applies: seq<bool> | |applies| <= |steps| ::
           !Stuck(RunOn(sb.caps, steps[..|applies|], applies, r).repo)
  {
    assert !Stuck(r);
    hide WellFormed, Quiet, QuietOn, RunOn, Run, Steps, Careful, Stuck;
    hide LawfulRun, DefaultKnown, PushesSeed, Diff, Unread;
    UnreadPlan(sb, want, prev, r);
    var c := Diff(sb, want, prev, Some(r)).change;
    var steps := Steps(sb, c, current, r);
    UnreadRunGoes(sb, prev, c, current, r);
    QuietOnEverySchedule(sb.caps, steps, r);
    QuietIsCareful(sb.caps, steps, r);
    forall applies: seq<bool> | |applies| <= |steps|
      ensures !Stuck(RunOn(sb.caps, steps[..|applies|], applies, r).repo)
    {
      CarefulPrefixNeverSticks(sb.caps, steps, applies, r);
    }
  }
}
