# ForgeLab, in Dafny

ForgeLab keeps a declared fleet of repositories on a remote forge: it compares what is there with a
lock, and drives it back, through interruptions, stale reads, refusals, rate limits and concurrency.
This project models that machinery and proves what it keeps. `dafny verify dfyconfig.toml` checks all
of it.

## How it is laid out

| file | what it models |
|---|---|
| `Text.dfy`, `Helpers.dfy` | strings: order, sorting, splitting, ASCII case; numbers and constants several modules share |
| `ForgeModel.dfy` | one repository on a forge, the writes sent to it, what refuses one, pushes applied later |
| `Compare.dfy` | `compare_one`: guards, drift and what is listed for repair |
| `Reset.dfy` | `reset_one`: the order of its writes, what it reaches, killing it |
| `Apply.dfy`, `ApplyRuns.dfy`, `ApplyUnread.dfy`, `ApplyConverges.dfy` | `diff_one`, `apply_one`, `settle_one`: plan, run, goal, killing it; the plan made without reading |
| `ForgeApi.dfy` | the forge as a class, whose reads may miss what is there and whose writes may fail landed or not |
| `Creating.dfy` | `create_verified` and `get_confirmed` |
| `Commands.dfy` | `reset_one`, `apply_one`, `settle_one` and `force_push` as the requests they send |
| `Requests.dfy` | what the requests a command sends tell of it |
| `FleetReset.dfy`, `FleetApply.dfy`, `FleetDestroy.dfy` | verify and reset, apply, and destroy over a fleet |
| `Fleet.dfy` | whole sessions of any of them |
| `Lookup.dfy` | `for_each_collect`, batched lookups, `aggregate`, `lookup_confirmed` |
| `Ready.dfy` | `wait_one` and `parse_ls_remote` |
| `ForgejoGlob.dfy`, `FaultGlob.dfy` | the two glob matchers against what a pattern means |
| `FaultRules.dfy`, `FaultEngine.dfy`, `FaultRuns.dfy`, `FaultCaps.dfy`, `FaultDecisions.dfy` | the fault engine: one request, whole runs, how often rules fire, what they then decide |
| `Http.dfy` | the classifiers, the retry loop, the write lane |
| `Pace.dfy` | `GitPace` |
| `Keyed.dfy` | `KeyedOnce` under any interleaving |
| `Names.dfy` | namespaces, where names land, ref names |
| `Digest.dfy` | the byte stream a fleet's digest is taken of |

## What it comes to

A repository is a value: description, archived flag, visibility, topics, default branch, the forge's
own empty flag, whether a push is still pending, branches, tags, open requests and protection rules.
A write is a `Step` with a precondition (`Accepts`) and an effect; a run stops at the first refusal. A
push is taken in at once and applied later, whenever the forge likes (`RunOn`), and a settings write
that comes in between loses it. On that footing:

- Reset, from every repository the comparison does not guard, meets no refusal, with one exception that
  is exact: a repository that cannot be read while archived passes if and only if the lock asks nothing
  of refs that are not there (`Passes`). A second comparison finds nothing where the first could read the
  repository; where it could not, and the repository is to be readable, at most one more reset is needed.
- Killed after any write, any number of times, on any schedule of the forge, reset and apply keep
  every repository they may touch free of guards and aimed at the same end. One more run gets there if
  it can read the repository. If it cannot, because archived means unreadable, that run opens the
  repository and the one after it gets there, unless the lock wants it archived: then what can be seen
  of it is put right and its refs are left. Reset may lift protections of an unreadable repository that
  were not in its way; for such a one the end is the same but for those.
- Apply to a readable repository is refused if and only if an old default branch that must go has an open
  request on it; a plan against the lock it then writes needs nothing. What apply reaches, reset accepts,
  and after a reset there is nothing left for an apply to do.
- What a command reports is what has happened, however requests fail: a reset that is not a failure has
  left every repository where a reset leaves it, the lock is written only over changes whose every write
  went through, and no failure keeps a command from the rest of its work, but for the phases of apply.
- Over whole sessions of commands, against a forge that may miss reads and fail writes, a repository
  that is undeclared or unmarked ends exactly as it began, unless it sat in a namespace that carried
  ForgeLab's marker from the start and that a destroy of its own fleet removed.

## Where the code and its documentation differ

The model follows the code. Each of these is a theorem, not an impression.

- `settle_one` archives, which is a settings write, while the push that removes stale refs may still be
  pending, although `wait_pushed` is there so that no settings write meets a push of its own run.
  It happens exactly when an archived repository also loses a ref
  (`ApplyConverges.ApplyKeepsSettingsClearOfPushes`, `ApplyConverges.ArchivingMeetsItsOwnRemoval`); the
  repository never ends up reading as empty for it.
- `glob_match` compares characters before it looks for a star, so a star in the text can swallow one in
  the pattern. It is right for every pattern if and only if the text has no star
  (`ForgejoGlob.RightForEveryPattern`), which `check_refname` sees to for declared branches.
- The fault engine calls every decision a function of the seed and the path's own history. So it is for
  `probability` and `max_per_path`; `first_n`, `every_nth` and `max_total` count across paths, and are
  local only at the values where they never or always hold. Stale rules are not local by design.
- `KeyedOnce::set` says that it replaces a cell already initialised with another value. With nothing in
  between it keeps that value, and loses its own when an initialiser is running
  (`Keyed.SetRemembersWhen`); a key set in that moment is initialised twice (`Keyed.SetInFlightRunsTwice`).
  It takes the mutex twice, though, and an initialiser that succeeds between the check and the
  replacement has its value taken away (`Keyed.SetCanLoseAValue`).
- `repo_prefix` maps git's paths to Forgejo's layout, and so a git path meets the windows of API paths
  in that layout, up to three exceptions that are exact (`FaultRules.GitPathsMeetApiPaths`), and never
  those of GitHub's, GitLab's or Azure DevOps' (`FaultRules.SamePrefixSameRepository`).
- A request's default is to be repeatable unless it is a POST, and `RequestOpts` names GET, HEAD, PUT,
  PATCH and DELETE: section 9.2.2 of RFC 9110 does not count PATCH (`Http.AssumptionIsWider`).
- `GitPace::per_minute(n)` keeps to `n` commands in any minute if and only if `n` divides the minute in
  nanoseconds, and to `n + 1` if and only if the remainder of that division fits into one interval.

## Model

| member | source | states |
|---|---|---|
| `ForgejoGlob.GlobMatch` | crates/forgelab/src/forge/forgejo.rs:172-195 | the single-backtrack loop terminates on every pattern and text and computes `Glob`, the verdict the exactness results below are about |
| `ForgejoGlob.GlobIsExact` | crates/forgelab/src/forge/forgejo.rs:165-195 | a match it reports is always one that `*` (any run of characters) and `?` (any one) mean; where the text has no star it reports every such match |
| `ForgejoGlob.RightForEveryPattern` | crates/forgelab/src/forge/forgejo.rs:165-195 | it agrees with the meaning on all patterns if and only if the text has no literal star: for every text that has one, some pattern defeats it |
| `FaultGlob.SegmentMatches` | crates/faultproxy/src/rules.rs:293-315 | the greedy leftmost loop accepts a segment exactly when each `*` of the pattern can be filled with some string to give it |
| `FaultGlob.MatchSegments` | crates/faultproxy/src/rules.rs:282-291 | accepts a path exactly when each `**` can stand for some run of segments, the empty one included, and each other pattern for one segment it means |
| `FaultGlob.GlobMatches` | crates/faultproxy/src/rules.rs:276-280 | the same for a glob and a path as written, leading slashes aside on both |
| `ForgeModel.LiftClearsTheWay` | crates/forgelab/src/forge/forgejo.rs:419-451 | lifting takes away every rule that means the branch, and no other |
| `ForgeModel.LiftedPushPasses` | crates/forgelab/src/sandbox/apply.rs:465-493 | after lifting, the push it is for passes if and only if the repository is not archived and, for a reset, has a baseline tag to push |
| `ForgeModel.ScheduleDoesNotMatter` | crates/forgelab/src/sandbox/ready.rs:90-96 | for a run that never writes settings over a first push, every schedule on which the forge applies pushes gives the same verdict and the same repository |
| `ForgeModel.QuietOnEverySchedule` | crates/forgelab/src/sandbox/ready.rs:90-96 | no settings write meets a pending push on any schedule if and only if none does on the slowest one |
| `ForgeModel.CarefulPrefixNeverSticks` | crates/forgelab/src/sandbox/ready.rs:90-96 | such a run, cut off anywhere on any schedule, never leaves a repository that holds commits and reads as empty for good |
| `Compare.CompareOne` | crates/forgelab/src/sandbox/verify.rs:147-292 | guards in the order of precedence, exactly the drift there is, whether refs need a push, and every extra branch, tag and request listed once |
| `Compare.CompareTags` | crates/forgelab/src/sandbox/verify.rs:234-251 | tags alone: extra ones, moved ones and missing ones, and whether a declared one is amiss |
| `Compare.CleanIsAtBaseline` | crates/forgelab/src/sandbox/verify.rs:147-292 | a readable repository shows neither guard nor drift if and only if it holds the one branch, the declared tags, no request, and the settings of the lock |
| `Reset.ResetMeetsNoRefusal` | crates/forgelab/src/sandbox/reset.rs:62-146 | from every unguarded state, whatever the order of the lists, the writes in their order all pass if and only if `Passes`; what they leave is then `AfterReset` |
| `Reset.ResetConverges` | crates/forgelab/src/sandbox/reset.rs:62-146 | a readable repository is taken to exactly its target, and a second comparison is clean |
| `Reset.UnreadableNeedsAtMostOneMore` | crates/forgelab/src/sandbox/reset.rs:65-146 | one that was archived and unreadable is opened unseen by the first reset, its target unchanged but for protections, and whatever the comparison after it sees, one more finishes it |
| `Reset.UnreadableStaysSo` | crates/forgelab/src/sandbox/reset.rs:62-146 | one that is to stay unreadable passes if and only if the forge knows the default branch to set, and then compares clean |
| `Reset.UnreadableByDesignIsLeftAlone` | crates/forgelab/src/forge/azuredevops.rs:618-626 | the refusal `Passes` leaves cannot arise on a forge without topics and visibility, which is where archived means unreadable |
| `Reset.CleanIsNotTouched` | crates/forgelab/src/sandbox/reset.rs:33-37 | a repository without drift is never written |
| `Reset.ScriptKeepsTarget` | crates/forgelab/src/sandbox/reset.rs:22-146 | every write of a reset, wherever it stops and whenever pushes are applied, keeps the marker, the baseline tag, the commits and the target |
| `Reset.ResetSurvivesKills` | crates/forgelab/src/sandbox/reset.rs:22-146 | from any unguarded repository, unreadable ones included: killed after any write, any number of times, on any schedule, it stays unguarded and keeps its target but for protections; one that could be read keeps it exactly, and is unreadable later only when done |
| `Reset.ResumedResetReachesTarget` | crates/forgelab/src/sandbox/reset.rs:22-146 | the compare-and-reset after the kills finishes what it can read at the first target; what it cannot read it opens, and the one after finishes that; what is to stay unreadable is put right as far as it can be seen |
| `Reset.ResetKeepsSettingsClearOfPushes` | crates/forgelab/src/sandbox/reset.rs:94-99 | no reset writes settings while a push of its own is pending, on any schedule, and none leaves a repository reading as empty |
| `Apply.DiffOne` | crates/forgelab/src/sandbox/apply.rs:225-329 | the guard, or the plan: creation, push, recheck, stale refs and notes, branch by branch |
| `Apply.StaleRefs` | crates/forgelab/src/sandbox/apply.rs:308-325 | of what the previous lock declared, exactly what is no longer declared and still there |
| `Apply.StepKeepsGoal` | crates/forgelab/src/sandbox/apply.rs:331-461 | each write apply may send leaves a sound repository sound and aimed at the same goal |
| `ApplyRuns.LawfulSurvives` | crates/forgelab/src/sandbox/apply.rs:331-461 | any part of such a run, on any schedule, leaves a sound repository with the same goal, blocked later exactly if it was |
| `ApplyRuns.SecondHalfGoes` | crates/forgelab/src/sandbox/apply.rs:392-461 | settling is refused only over an old default branch with an open request, and otherwise ends as computed |
| `ApplyConverges.NothingNeededAtGoal` | crates/forgelab/src/sandbox/apply.rs:225-329 | apply plans nothing for a readable repository if and only if it is at its goal |
| `ApplyConverges.ApplyReachesGoal` | crates/forgelab/src/sandbox/apply.rs:225-461 | apply to a readable repository succeeds if and only if no open request holds an old default branch; it then ends at the goal, and a plan against the lock it writes needs nothing |
| `ApplyConverges.ApplySurvivesKills` | crates/forgelab/src/sandbox/apply.rs:225-461 | from any sound repository, unreadable ones included: killed between any two writes, any number of times, it stays sound, keeps its goal, and is refused later exactly if it would have been |
| `ApplyConverges.ResumedApplyReachesGoal` | crates/forgelab/src/sandbox/apply.rs:225-461 | re-running reaches what an uninterrupted run would have, or finds it reached; where the repository cannot be read, the run after its first write does |
| `ApplyUnread.UnreadRunGoes` | crates/forgelab/src/sandbox/apply.rs:263-461 | the run of a plan made unread keeps the goal write by write, writes no settings over its own push, and is refused only where the forge does not know the default branch and no push of the run makes it known |
| `ApplyUnread.UnreadIsRefusedWhen` | crates/forgelab/src/sandbox/apply.rs:263-461 | stated of the repository alone: it is refused if and only if the default branch has to be set, is not there, and no push will make it: the baseline tag is in its place, or the repository is to stay archived |
| `ApplyUnread.UnreadKeepsSettingsClearOfPushes` | crates/forgelab/src/sandbox/apply.rs:420-459 | nor does such a run write settings over its own push on any schedule, or leave, finished or killed, a repository reading as empty |
| `ApplyConverges.UnreadOpensFirst` | crates/forgelab/src/sandbox/apply.rs:357-385 | from its first write on, refused or killed, such a run leaves a readable repository that one more run takes to the goal |
| `ApplyConverges.UnreadStaysUnread` | crates/forgelab/src/sandbox/apply.rs:260-268 | one that is to stay archived needs nothing more once its settings are taken |
| `ApplyConverges.CreationReachesGoal` | crates/forgelab/src/sandbox/apply.rs:331-461 | a repository made a moment ago reaches the goal too, whatever default branch it adopted and whether or not it could be read back |
| `ApplyConverges.CreationSurvivesKills` | crates/forgelab/src/sandbox/apply.rs:331-461 | a creation killed after its create is an ordinary apply that has not finished |
| `ApplyConverges.ApplyKeepsSettingsClearOfPushes` | crates/forgelab/src/sandbox/apply.rs:420-459 | for every plan made of what was read, and every creation: no settings write meets a push of the same run, on any schedule, if and only if the run does not archive after removing stale refs; and no run leaves a repository reading as empty |
| `ApplyConverges.ArchivingMeetsItsOwnRemoval` | crates/forgelab/src/sandbox/apply.rs:440-459 | such a run exists for every archived fixture: it loses one declared tag in the same edit |
| `ForgeApi.Forge.Perform` | crates/forgelab/src/forge/mod.rs:154-242 | one write: refused as `Accepts` says, otherwise its effect, unless the forge is unreliable and it did not land |
| `ForgeApi.Forge.Create` | crates/forgelab/src/forge/mod.rs:191-206 | a create makes a marked, empty repository with the visibility asked for, and its namespaces, or nothing; what is there is refused |
| `ForgeApi.Forge.DeleteNamespace` | crates/forgelab/src/forge/gitlab.rs:844-868 | only a namespace with the marker goes, with all it holds |
| `Creating.GetConfirmed` | crates/forgelab/src/sandbox/mod.rs:286-304 | only looks; the clock of its looks is exact, with pauses that double up to a second; it looks again exactly until it is found, a look goes unanswered, or the six seconds are over; a truthful forge is believed at once |
| `Creating.CreateVerified` | crates/forgelab/src/sandbox/apply.rs:581-642 | at most five creates, none after the first without a lookup that found nothing, and none given up early: a failure that may pass is looked into, and tried again if nothing is there; what it reports is how its last request ended, success means the repository is there and marked, and fresh if it is new; an unmarked one is never written, and `NeverAdopts` means there is one; nothing else of the forge changes |
| `Commands.PushAndLift` | crates/forgelab/src/sandbox/apply.rs:468-493 | push, and only if that fails lift and push again: however its requests fail, the lift that is called for and the push, both or a part of them; it reports how its last request went |
| `Commands.ForcePush` | crates/forgelab/src/sandbox/apply.rs:468-493 | within a plan, that is two of its writes, both or a part of them |
| `Commands.ResetOne` | crates/forgelab/src/sandbox/reset.rs:65-146 | follows `ResetSteps` as far as it gets: success means all of it, failure that its last request went wrong; on a reliable forge it succeeds exactly when the plan runs; and it does write |
| `Commands.ApplyOne` | crates/forgelab/src/sandbox/apply.rs:331-385 | follows `FirstHalf`, and fails only as its last request does; a push that was put off until the repository could be read is decided then |
| `Commands.SettleOne` | crates/forgelab/src/sandbox/apply.rs:392-461 | follows `SecondHalf`, and fails only as its last request does |
| `FleetApply.ApplyToGoal` | crates/forgelab/src/sandbox/apply.rs:225-461 | plan and both halves for a readable repository on a reliable forge: success if and only if not blocked, and then the goal |
| `FleetReset.CompareAll` | crates/forgelab/src/sandbox/verify.rs:98-145 | every declared repository is looked up whatever became of the others, what is found is compared as it is, and all is answered exactly if every look was |
| `FleetReset.Verify` | crates/forgelab/src/sandbox/verify.rs:84-92 | sends reads and nothing else; passes only if every declared repository is there and clean, and fails with a clean fleet only for a look that went wrong |
| `FleetReset.ResetEach` | crates/forgelab/src/sandbox/reset.rs:38-48 | every drifted repository is written to, one failure or not; all is well exactly, on a reliable forge, if each plan runs, and otherwise only what failed can keep it from being so; each then ends where a reset leaves it |
| `FleetReset.ResetAll` | crates/forgelab/src/sandbox/reset.rs:22-60 | a guard anywhere, or a lookup without an answer, means that no write was sent; only declared, marked, drifted repositories are written, and all of those are, whatever becomes of the others; unless some request goes wrong, each ends, on any forge, at its target, or, unread, opened and aimed there, or clean if it is to stay unreadable, and those written report their baseline; it is fine only if the comparison at the end finds nothing, and on a forge that answers truly it is fine wherever all could be read |
| `FleetReset.Close` | crates/forgelab/src/sandbox/reset.rs:49-52 | it fails exactly, on a reliable forge, when some wait is in vain, and if it does not fail every repository waited for reports its baseline; the comparison that follows decides between fine and unclean; of the repositories nothing but time changes |
| `FleetReset.WaitReady` | crates/forgelab/src/sandbox/ready.rs:48-86 | each of those with commits that can be read is asked for, one that never comes or not; success means that each reports its default branch at the baseline, and on a reliable forge it is exactly when all would once everything is applied, as by then it is |
| `FleetReset.NextResetFinishes` | crates/forgelab/src/sandbox/reset.rs:19-21 | however the requests of one reset failed, the next that is answered ends where the first should have if it can read the repository, and opens it with that aim if it cannot |
| `FleetReset.TwoMoreResetsFinish` | crates/forgelab/src/sandbox/reset.rs:19-21 | and two that are answered finish any repository that is to be readable, protections aside |
| `FleetReset.LeftIsKilled` | crates/forgelab/src/sandbox/reset.rs:19-21 | what a reset leaves when its requests fail is what one leaves that was killed |
| `FleetApply.FollowedIsKilled` | crates/forgelab/src/sandbox/apply.rs:331-461 | the same for apply |
| `FleetApply.ApplyFirst` | crates/forgelab/src/sandbox/apply.rs:331-385 | the first half of one change, creation included: nothing but this repository and its namespaces changes, another's is met only by a lookup that missed it, and no repository that apply itself could have left is refused |
| `FleetApply.ApplySecond` | crates/forgelab/src/sandbox/apply.rs:392-461 | the second half, from what the first left and what was read back: done, the whole of the change has gone through; on a forge that answers truly the repository is at its goal, or where it could not be read opened for the next run, and it is done exactly if the forge takes what is planned |
| `FleetApply.ApplyChange` | crates/forgelab/src/sandbox/apply.rs:77-93 | both halves of one change: reported as done, on any forge, only if nothing was needed or the run of its writes went through whole, from what was found or made, with what was created read back; reported as failed only after a request that went wrong; on a forge that answers truly done exactly if the forge takes what is planned |
| `FleetApply.ChangedIsAchieved` | crates/forgelab/src/sandbox/apply.rs:73-93 | and what was done so, if it is new or was seen by the plan, is what an apply makes of it: at its goal where it was sound and readable |
| `FleetApply.ApplyEach` | crates/forgelab/src/sandbox/apply.rs:73-93 | every change that is needed is written, one failure or not; on a forge that answers truly all is well exactly if the forge takes what is planned for each |
| `FleetApply.FirstPhase` | crates/forgelab/src/sandbox/apply.rs:73-93 | where lookups are batched: the first half of every change, one failure or not; none fails on a forge that answers truly |
| `FleetApply.SecondPhase` | crates/forgelab/src/sandbox/apply.rs:110-127 | and the second half of every change, one failure or not; it looks nothing up |
| `FleetApply.ApplyTogether` | crates/forgelab/src/sandbox/apply.rs:95-129 | every first half, then, only if none failed, every created repository is read back, with an answer, and every second half follows; fine exactly, on a forge that answers truly, if the forge takes what is planned for each |
| `FleetApply.ApplyAll` | crates/forgelab/src/sandbox/apply.rs:52-140 | a guard seen while planning, or a lookup without an answer, means that no write was sent; a guard met while creating is reported, and takes a lookup that missed somebody else's repository; nobody else's repository changes; one that fails does not stop the rest, but where lookups are batched it keeps them from being settled; the lock is written only if all that is new, or was seen by the plan, is what an apply makes of it, and on a forge that answers truly exactly if the forge takes all that is planned; apply is then fine exactly if the comparison finds nothing, as it does where all is new |
| `FleetApply.NewIsClean` | crates/forgelab/src/sandbox/apply.rs:132-139 | a fleet of new repositories compares clean once it is applied: their goal is the baseline |
| `FleetApply.ApplyThenReset` | crates/forgelab/src/sandbox/reset.rs:62-146 | a repository at the goal of an apply is guarded by no reset, and where it can be read the next reset leaves it clean |
| `FleetApply.ResetThenApply` | crates/forgelab/src/sandbox/apply.rs:225-329 | a repository at its baseline is at the goal of an apply from any previous lock, which plans nothing for it |
| `FleetDestroy.DeleteTargets` | crates/forgelab/src/sandbox/destroy.rs:97-118 | each is asked to go, one that cannot be deleted or not; all is well exactly if none failed, and then they are gone |
| `FleetDestroy.RemoveNamespaces` | crates/forgelab/src/sandbox/destroy.rs:119-145 | each is asked to go, in order, one that cannot be removed or not; a namespace that is gone took all it held with it |
| `FleetDestroy.DestroyAll` | crates/forgelab/src/sandbox/destroy.rs:25-159 | deletes exactly the declared, marked repositories and the marked namespaces they sat in; nothing else goes; on any forge all that was found marked is asked to go, and every namespace, outermost first, whatever becomes of the rest; it is all done exactly if nothing failed, and then they are gone with all they held; a lookup without an answer ends it before the first |
| `FleetDestroy.RemovalSweeps` | crates/forgelab/src/forge/gitlab.rs:844-868 | a repository goes with a namespace exactly when it is inside it, and one that stays keeps all its namespaces |
| `Fleet.Execute` | crates/forgelab/src/sandbox/destroy.rs:18-25 | one command of any kind: it spares whatever is undeclared or unmarked, and says all is well only if the fleet is as the lock has it, or gone, as it does on a forge that answers truly where nothing is in its way |
| `Fleet.Session` | crates/forgelab/src/sandbox/destroy.rs:18-159 | the frame over whole sessions: any commands, fleets and locks, in any order, with missed reads and failed writes |
| `Lookup.ForEachCollect` | crates/forgelab/src/sandbox/pool.rs:13-38 | never more than `limit` tasks at once, and whatever the order they end in, each outcome stands where its item stood |
| `Lookup.Aggregate` | crates/forgelab/src/sandbox/report.rs:104-137 | guard failures win, all of them; else every failure, sorted by name, with the total; else every item in order |
| `Lookup.LinesNameTheFailed` | crates/forgelab/src/sandbox/report.rs:113-124 | a line is listed exactly when some item failed that way, under its own name |
| `Lookup.PerRepository` | crates/forgelab/src/sandbox/mod.rs:472-497 | a batch's outcome becomes that of each of its repositories, where they stand |
| `Lookup.ChunksAreTheNames` | crates/forgelab/src/sandbox/mod.rs:315-322 | the batches are the names, in order, none left out |
| `Lookup.LookupAll` | crates/forgelab/src/sandbox/mod.rs:310-351 | for every batch size, limit and completion order, the answer for a name stands at its index; it goes well exactly when every batch does, and each repository of a failed batch is named with the batch's own message, guards taking precedence |
| `Lookup.TrueAnswersStayTrue` | crates/forgelab/src/sandbox/mod.rs:306-351 | so where the forge answers truly, a batched lookup is a lookup of each name |
| `Lookup.LookupConfirmed` | crates/forgelab/src/sandbox/mod.rs:394-416 | rounds of batched lookups, the clock of which is exact: each asks for what no round before has found, and nothing else; what is missing at the end was missing in every round, and the time is up; it fails exactly when the last round did |
| `Lookup.FirstFoundMeans` | crates/forgelab/src/sandbox/mod.rs:389-416 | missing at the end means missing in every round; found means found in the first round that had it |
| `Ready.WaitOne` | crates/forgelab/src/sandbox/ready.rs:123-166 | ready exactly when the last look reports the branch at the commit; gives up on the repository's clock or the fleet's, says which, and within one pause and one look; the clock of its looks is exact |
| `Ready.ParseRefs` | crates/forgelab/src/seed/mod.rs:291-309 | branches at their lines; tags at their peeled line if there is one, wherever it stands, else at their own |
| `Ready.ReadsTheListing` | crates/forgelab/src/seed/mod.rs:286-309 | parsing what git lists, in any order, gives every branch and tag at its commit |
| `FaultRules.Matches` | crates/faultproxy/src/rules.rs:254-272 | scope, methods ignoring case, and the meaning of the glob |
| `FaultRules.PrefixIsFixed` | crates/faultproxy/src/engine.rs:365-378 | the prefix of a path is its own prefix, and the prefix of every path under it |
| `FaultRules.SamePrefixSameRepository` | crates/faultproxy/src/engine.rs:362-379 | two paths share a prefix if and only if they name the same repository in the same layout: no two layouts share one |
| `FaultRules.GitPathsMeetApiPaths` | crates/faultproxy/src/engine.rs:374-376 | a git path shares its prefix with the API paths of its repository in Forgejo's layout, except under an owner called `repos`, before an Azure DevOps tail, or for a repository whose own name ends in `.git` |
| `FaultEngine.FaultEngine.Decide` | crates/faultproxy/src/engine.rs:122-196 | counts the request, takes the rules in order, adds latency, and lets the first last word win; decision and whole new state are `Decided` |
| `FaultEngine.FaultEngine.Observe` | crates/faultproxy/src/engine.rs:289-319 | a good read is kept unless a window covers it; a good write opens its windows; nothing else changes |
| `FaultEngine.FaultEngine.ObserveMutation` | crates/faultproxy/src/engine.rs:323-342 | the windows a good write opens: its path, its repository, and the push window after a push |
| `FaultDecisions.TheLastWordIsTheRules` | crates/faultproxy/src/engine.rs:154-195 | of every request in every state: it is passed on exactly when no rule with a last word fires, and otherwise gets that rule's own word: its stale answer, a reset, or its own status, headers and body |
| `FaultDecisions.FiringsAddUp` | crates/faultproxy/src/engine.rs:124-196 | in every run the time added to a request is what the rules that fire on it draw, and the log grows by one entry for each of them, in order, with the number of times that method and path was asked for before |
| `FaultRuns.PathCountersAreRight` | crates/faultproxy/src/engine.rs:125-132 | the counter every draw is seeded with is the number of requests of that very method and path since the engine was made |
| `FaultCaps.CapsAreKept` | crates/faultproxy/src/rules.rs:80-99 | over every run from a fresh engine no rule fires, counted by the requests it acts on, more often than its `when` allows: in all, on any one method and path, by `first_n`, and one in so many of those it looks at |
| `FaultCaps.FiresExactlyWhenAllowed` | crates/faultproxy/src/engine.rs:200-252 | in every run a rule fires on exactly those requests it looks at that its conditions allow, read of how many it has looked at and fired on before, and of what is drawn at the number of times that method and path was asked for |
| `FaultCaps.CountersAreRight` | crates/faultproxy/src/engine.rs:131-196 | the engine's counters are the requests looked at and fired on since it was made, in all and per method and path |
| `FaultCaps.FiringsAreFelt` | crates/faultproxy/src/engine.rs:122-196 | a request is kept from the forge exactly when some rule with a last word fires on it |
| `FaultRuns.LocalRulesAreLocal` | crates/faultproxy/src/engine.rs:124-252 | without stale rules and conditions that count across paths, the decisions for one method and path in any run are those of the run with everything else removed |
| `FaultRuns.FirstNIsLocalOnlyAtZero` | crates/faultproxy/src/engine.rs:216-220 | with `first_n` alone, on a rule that covers two paths, that holds if and only if it is zero |
| `FaultRuns.EveryNthIsLocalOnlyUpToOne` | crates/faultproxy/src/engine.rs:221-225 | with `every_nth`, if and only if it is at most one |
| `FaultRuns.MaxTotalIsLocalOnlyAtZero` | crates/faultproxy/src/engine.rs:206-210 | with `max_total`, if and only if it is zero |
| `FaultRuns.StaleIsNotLocal` | crates/faultproxy/src/engine.rs:255-285 | an unconditional stale rule is never local, whichever writes open its windows, where it looks at a request whose windows can open |
| `FaultRuns.StaleAnswersPredateTheWrite` | crates/faultproxy/src/engine.rs:255-358 | in every run, what is served as stale comes from a stale rule that covers the request: its own body, or a 2xx read of that path observed before the write that opened the window it is served under, or a 404 where no read is kept |
| `FaultRuns.WindowsAreOfTheRun` | crates/faultproxy/src/engine.rs:321-358 | a window is open if and only if some good write of the run that opens it is less than the rule's time ago |
| `FaultRuns.KeptIsTheLastRead` | crates/faultproxy/src/engine.rs:292-316 | what is kept for a path is the last good read of it that no window covered, and nothing if there is none |
| `FaultRuns.StaleAnswersByTheRun` | crates/faultproxy/src/engine.rs:255-287 | what a stale rule answers, told by the run alone: while a write of the run keeps its window open, its own body, else the last read kept, else a 404 if it says so; nothing otherwise |
| `FaultRuns.CoveredReadsChangeNothing` | crates/faultproxy/src/engine.rs:296-300 | reads forwarded while any window covers the path never replace its snapshot |
| `FaultRuns.NothingStaleOnceElapsed` | crates/faultproxy/src/engine.rs:255-358 | once every rule's time has passed since the last write that could open its window over a path, no request for it is served anything stale |
| `Classify.PausesAreAtLeastASecond` | crates/forgelab/src/forge/classify.rs:25-174 | only a rate limit carries a pause, and no classifier asks for less than a second |
| `Classify.ClassesAreExact` | crates/forgelab/src/forge/classify.rs:40-174 | for each forge, exactly which answers are a rate limit, which a failure that may pass, and which a credential it does not take |
| `Classify.PausesAreAsAsked` | crates/forgelab/src/forge/classify.rs:27-160 | a rate limit is waited out for longer than the `Retry-After` asked for, or until GitHub's reset; a pause is made up only where none is named |
| `Classify.ForbiddenIsNotWaitedOut` | crates/forgelab/src/forge/classify.rs:84-127 | a 403 is a rate limit only on GitHub, and only when its headers or body say so |
| `Http.RetryIsSafe` | crates/forgelab/src/forge/http.rs:419-526 | a pause that is taken ends by the deadline, is at least a tenth of the base or a second, and follows a failure it is safe to repeat after |
| `Http.RetryMeans` | crates/forgelab/src/forge/http.rs:419-516 | there is another attempt exactly where one is called for and its pause fits before the deadline; what is reported otherwise is what the last attempt was |
| `Http.Send` | crates/forgelab/src/forge/http.rs:368-516 | the whole course of a request: each attempt but the last is one that may be repeated, is followed by the pause that is due and by the next; the last is reported as what it was, and one that might have been repeated is the last only for lack of time, or stopped; every pause ends by the deadline and lies within the time the request has the lane; it returns within one timeout of the later of lane and deadline; what must not be done twice is repeated only after a failure before sending or a rate limit |
| `Http.AssumptionIsWider` | crates/forgelab/src/forge/http.rs:384 | the default takes every verb but POST for repeatable, which section 9.2.2 of RFC 9110 does not |
| `Http.WriteLane.Acquire` | crates/forgelab/src/forge/http.rs:200-205 | the lane is got after it is free and after the interval, and no later than needed |
| `Http.Requests` | crates/forgelab/src/forge/http.rs:366-526 | any requests through one client: no two mutations overlap, each from its first attempt to its last with every pause between, and they start an interval apart; GET and HEAD are held up by none |
| `Http.Request` | crates/forgelab/src/forge/http.rs:366-393 | one request: a mutation takes the lane, keeps it through every attempt and pause, and lets it go at its end; a GET or a HEAD passes it by |
| `Pace.GitPace.Turn` | crates/forgelab/src/seed/mod.rs:75-84 | the next slot: no earlier than the caller, no earlier than the interval allows |
| `Pace.GitPace.Turns` | crates/forgelab/src/seed/mod.rs:75-84 | a whole run of turns hands out `Slots` |
| `Pace.SlotsAreSpaced` | crates/forgelab/src/seed/mod.rs:75-84 | slots come no earlier than their callers and are as many intervals apart as there are between them |
| `Pace.WindowHoldsAtMost` | crates/forgelab/src/seed/mod.rs:75-84 | no half-open window holds more slots than its length holds intervals, rounded up |
| `Pace.BurstReachesTheMost` | crates/forgelab/src/seed/mod.rs:75-84 | and a burst reaches that many |
| `Pace.CapIsKeptWhenItDivides` | crates/forgelab/src/seed/mod.rs:66-71 | the cap asked for is kept by every run if and only if the minute divides by it |
| `Pace.OneMoreThanTheCap` | crates/forgelab/src/seed/mod.rs:66-71 | one more than the cap is kept if and only if the remainder fits into an interval, as it does for every cap up to the square root of the minute |
| `Keyed.EveryRunIsSound` | crates/forgelab/src/forge/keyed.rs:27-66 | under any interleaving, of the four steps of `set` too, at most one initialiser runs on a cell and at most one succeeds, and all who got a value from it got the same |
| `Keyed.FailureReopens` | crates/forgelab/src/forge/keyed.rs:33-42 | after a failure whoever waits for the cell may run their own |
| `Keyed.OncePerKey` | crates/forgelab/src/forge/keyed.rs:27-66 | with nothing invalidated and no `set` trying a cell that is empty and being initialised, a key is initialised successfully at most once in the whole run |
| `Keyed.InvalidatedRunsTwice` | crates/forgelab/src/forge/keyed.rs:62-65 | a key that is invalidated is initialised again, to another value, without any set |
| `Keyed.SetInFlightRunsTwice` | crates/forgelab/src/forge/keyed.rs:51-59 | a key set while its initialiser runs is initialised twice |
| `Keyed.SetCanLoseAValue` | crates/forgelab/src/forge/keyed.rs:51-59 | a run in which the last step of a `set` takes away a value an initialiser left after the check |
| `Keyed.LostValueIsMadeAgain` | crates/forgelab/src/forge/keyed.rs:51-59 | and the key is then initialised again, to another value |
| `Keyed.UninterruptedSet` | crates/forgelab/src/forge/keyed.rs:51-59 | the steps of `set` with nothing in between come to `AfterSet` |
| `Keyed.SetRemembersWhen` | crates/forgelab/src/forge/keyed.rs:50-59 | with nothing in between, `set` is remembered if and only if the key had no cell, an idle empty one, or that value; a value that is there stays, and one set while an initialiser runs is lost |
| `Keyed.SetLeavesOthersAlone` | crates/forgelab/src/forge/keyed.rs:50-59 | no step of a `set`, interrupted or not, changes what is known of another key |
| `Keyed.KeyedOnce.Start` | crates/forgelab/src/forge/keyed.rs:36-42 | a caller gets the value, the permit, or a place to wait |
| `Keyed.KeyedOnce.HoldForSet` | crates/forgelab/src/forge/keyed.rs:28-31 | the first step, under the mutex: the key's cell, made if it had none |
| `Keyed.KeyedOnce.TrySet` | crates/forgelab/src/forge/keyed.rs:53 | the second, on the cell alone: it takes the value if it is empty and nobody is at work on it |
| `Keyed.KeyedOnce.CheckSet` | crates/forgelab/src/forge/keyed.rs:54 | the third: whether the cell is still empty |
| `Keyed.KeyedOnce.ReplaceCell` | crates/forgelab/src/forge/keyed.rs:55-57 | the last, under the mutex again: an empty cell, whatever the key has by then |
| `Keyed.KeyedOnce.SetValue` | crates/forgelab/src/forge/keyed.rs:51-59 | `set` where nothing comes between its steps: all of them in a row come to `AfterSet` |
| `Keyed.KeyedOnce.InvalidateWhere` | crates/forgelab/src/forge/keyed.rs:62-65 | forgets the keys given and nothing else |
| `Names.Namespaces` | crates/forgelab/src/fleet/spec.rs:36-48 | exactly the namespaces the names sit in, each once, in order, despite the early break |
| `Names.AddAbove` | crates/forgelab/src/fleet/spec.rs:39-45 | stopping at a namespace seen before loses nothing |
| `Names.SortedIsOutermostFirst` | crates/forgelab/src/fleet/spec.rs:34-48 | in that order nothing comes after something inside it |
| `Names.DoomedNamespaces` | crates/forgelab/src/sandbox/destroy.rs:172-189 | exactly the held namespaces the names sit in, outermost first and each with all above it, then the home if it was used |
| `Names.HoldsUpwards` | crates/forgelab/src/forge/mod.rs:77-83 | what a forge holds as a thing of its own it holds with everything above it |
| `Names.Collision` | crates/forgelab/src/fleet/spec.rs:192-205 | refuses a fleet exactly when two names land on one, ignoring case, and names two that do |
| `Names.SplitIsInjective` | crates/forgelab/src/forge/azuredevops.rs:238-252 | names that share a place on Azure DevOps already collide flat |
| `Names.AcceptedNamesNeverShare` | crates/forgelab/src/fleet/spec.rs:192-205 | an accepted fleet never has two names in one place, flat or on Azure DevOps |
| `Names.HomeMustBeRefused` | crates/forgelab/src/forge/azuredevops.rs:242-248 | a name in a namespace shares the place of its own flat rest, which it never collides with, if and only if the namespace is the sandbox's own project, which is exactly when Azure refuses it |
| `Names.DeclaredBranchesAreGlobSafe` | crates/forgelab/src/fleet/spec.rs:299-332 | every branch name that can be declared is one `glob_match` gets right, for every rule |
| `Digest.ReadsBack` | crates/forgelab/src/fleet/digest.rs:58-79 | the stream of any list of files with NUL-free paths can be read back |
| `Digest.StreamIsInjective` | crates/forgelab/src/fleet/digest.rs:18-79 | so two lists with one stream are one list |
| `Digest.SizesAreNeeded` | crates/forgelab/src/fleet/digest.rs:58-79 | without the sizes, any two files would read like one whose body swallows the second |
| `Digest.Add` | crates/forgelab/src/fleet/digest.rs:58-79 | reading the body in chunks, of whatever sizes the reads return, feeds what reading it whole would |
| `Digest.HashFleet` | crates/forgelab/src/fleet/digest.rs:18-53 | what is hashed is the stream of the files in the order walked |

## Left out

- A push, `Built::push`, `reset_to_baseline` or `delete_remote_refs`, is one atomic step: git may take some refs of a push
  and refuse others, and may refuse a branch whose name is a directory of another's.
- A settings write is one step, where a forge's client may send several requests for it.
- WaitPushed: a wait that ends in vain is a refusal in `ForgeModel`; its clocks are in `Ready.WaitOne`.
- A first push does not change the forge's own default branch in the model, and no forge protects a
  branch by itself; apply and reset then set and lift what they would have found.
- Nobody else writes to the forge while a command runs. A killed process is one whose later requests all fail.
- The fleet commands take repositories one after the other, which is one of the orders `Lookup.ForEachCollect` allows;
  they share nothing but the forge. `prefetch`, and the batched look that settles most waits, are not told apart
  from a lookup of each name.
- FleetReset.WaitReady: one wait is one step, whose clocks are in `Ready.WaitOne`.
- Creating.GetConfirmed: an interruption is a read without an answer.
- When the forge answered a request is not in the fault engine's runs, only when the engine observed it: a read
  answered after a write and observed before it can still be served as stale.
- The confirmation prompt, progress lines, messages and exit codes.
- `push_seed`, `wait_created` and `git_network` as loops of their own: retrying a push that did not land.
- `load_spec` apart from the collision check, `namespaces` and `check_refname`; YAML, JSON and the lock file.
- FaultEngine.FaultEngine.Decide: locks are taken one request at a time, counters are unbounded where the source wraps at
  64 bits, durations and probabilities are reals, and the ChaCha generator and its FNV seed are one unknown function.
- FaultEngine.FaultEngine.Observe: hop-by-hop headers are taken off before the call.
- Http.Send: headers, bodies and URLs; a sleep ends exactly when it should.
- Http.WriteLane.Acquire: who gets the lane next is up to the order of calls.
- Keyed.EveryRunIsSound: a task dropped while it waits; one dropped while it runs is a failure.
- Names.Collision: lower case is ASCII, which every name the fleet accepts is.
- Digest.HashFleet: the walk itself, SHA-256, and a file that changes while it is read; a path that is not UTF-8 is
  converted lossily before it is hashed, and two such paths may then be one.
- Ready.ParseRefs: lines come already cut at their tab; other lines are skipped.
- GitHub's and GitLab's GraphQL lookups, paging, polling of groups and projects, branch-protection payloads.
- The proxy, the transports and both command lines.
