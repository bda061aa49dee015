# Verification of the Hermes maintenance tools

Dafny models of the parts of this repository whose correctness is hardest to see by
reading, with machine-checked proofs about them: the crash-safe updater
(`updater/hermes_updater`), the run lifecycle, state file, supervisor buffer and
timestamps of `rust/hermes-maint-core`, and the usage ranking and migrations of
`hermes_layer2`. `dafny verify dfyconfig.toml` checks the whole project. Nothing of the
repository is executed: these are proofs about models.

## What is modelled

**The updater** (`vocabulary.dfy`, `store.dfy`, `deployment.dfy`, `orchestrator.dfy`,
`failed_runs.dfy`).
A `Process` may die, or raise, before any single commit or act; from then on it does
nothing, and the next process finds what was durable. `Store` has the tables as fields,
one commit per statement. `Host` is production: HEAD, the checked-out files, the virtual
environment and its copy, the unit files and what the service loaded when it last
started. How many boundaries a process will still pass is a number (`fate`) that nothing
else looks at, so that statements can say where it dies. Commands are oracles: each chooses whether it succeeds, and an act cut short
leaves any intermediate state (a mixed checkout, a partial copy, any venv content after
`pip`). A ghost `Record` keeps every command and check in order with its answer, so that
what the machine concludes can be stated by what was refused. What a daily run finds out
(`Findings`), the second factor's file (`Approval`) and whether the message can be sent are
inputs. `Deploy`, `Rollback` and `RecoverRun` are the write-ahead protocol; `Orchestrator`
is the machine around it, with the runs of `daily`, `apply` and `revoke` in any order.
The write-ahead invariant is `Recoverable`: production is untouched, or a rollback point
past its first phase is stored and the old venv is whole in its copy or back in place.
It holds at every boundary between two steps, because a death at a boundary is one of the
ways each method can end. `Durable` adds what the store promises: only the last run may be
open, green runs have their required checks at PASS, one pending candidate at most, one
lawful deployment per candidate, an open run past its deployment with an outcome that is
true, and, while the clock goes forward, no two runs that failed in production on the same
pair of target and source.

**Health** (`health.dfy`): the wait for the gateway over a log of observations.

**Run lifecycle and state file** (`run_history.dfy`, `atomic_save.dfy`): processes, lock
inodes and the state file as a transition system over every interleaving; and `save` over a
file system whose visible and durable contents differ.

**Time** (`calendar.dfy`, `timestamps.dfy`): the civil calendar against counting days one
by one under the Gregorian leap-year rule (RFC 3339, appendix C), and the printer and
parser of the RFC 3339 section 5.6 subset.

**Ranking and migrations** (`ranking.dfy`, `migrations.dfy`, `sorting.dfy`): decayed scores
over the reals with an exponential weight as a parameter, the ranking and its cache; and
migrations by any number of interleaved processes.

**Loops** (`drain.dfy`, `ci_suites.dfy`, `prune.dfy`): the bounded tail buffer, the
classification of test failures, and the pruning of backups.

## Findings

- `parse_iso8601(format_iso8601(e)) == Some(e)` holds exactly for -93692592000 <= e <
  253402300800, that is for years -999 to 9999: negative years of up to three digits read
  back because the parser accepts signs. For every other instant the text is refused, never
  misread (`Timestamps.RoundTrip`).
- The parser is documented as strict, and is not, in six ways. A sign may stand for the first
  digit of any of the six fields (`Timestamps.AcceptsSignedHour`) and of the zone's hours and
  minutes, as in `+-1:-2` (`Timestamps.AcceptsSignedZone`). The separator may be a space, as in
  `2026-02-03 10:05:00Z`; the zone may be hours alone, as in `+01`, or a lower-case `z`; the
  fraction may have any number of digits; and the day may be one its month does not have, as
  in `2026-02-31`. It accepts exactly the documented texts among those with none of these
  (`Timestamps.ExactLanguage`, `Timestamps.AcceptedTexts`).
- The stored score is the sum of the decays of all uses exactly when the clock never went
  back between uses; otherwise it is less (`CommandUsage.ClosedForm`).
- The recorded migration version can go down when two processes interleave
  (`Migrations.VersionCanGoDown`). It never does when no process starts while another still
  has a migration to run (`Migrations.MonotoneOneAtATime`); in general, exactly when no
  process commits a version below the one recorded at that moment
  (`Migrations.MonotoneWhenForward`). What is recorded has been applied all the same.
- A recovery that finds every post-test passing changes nothing: it leaves the service up
  exactly when the dead process had left it up (`Deployment.RecoverRun`). It may be down
  there because its restart failed, or because the rollback had just stopped it
  (`Deployment.StoppedServiceMayPass`).
- A deployment that failed is remembered by an attempt, committed after the candidate's
  status. If the process dies before that commit, the next one may prepare the same pair
  again, and otherwise never does (`Orchestration.Orchestrator.AfterAFailure`). Runs that
  end ROLLED_BACK or RECOVERY_FAILED are all on record, so no pair ends so twice, deaths and
  exceptions included, while the clock goes forward (`Orchestration.Orchestrator.Operate`).
- FAILED is documented as "production was not touched" (`updater/hermes_updater/status.py:71`),
  but an application ends FAILED for two other reasons as well. The deployment went well and
  the message about it could not be sent: the candidate is in place
  (`FailedRuns.UnsentMessage`). Or `deploy` raised: after the merge, say, reading the lock file
  (`updater/hermes_updater/deploy.py:323`), or in the rollback, copying a unit file with the
  service stopped (`updater/hermes_updater/deploy.py:455`); the run is closed with production
  half changed (`FailedRuns.ExceptionHalfway`). Production is known to be untouched exactly when
  there is an exception on record and the stored data has no rollback point or is still in its
  first phase (`FailedRuns.FailedLeftAlone`); otherwise the way back is whole, and that is all
  (`Orchestration.Orchestrator.Guarded`).

## Model

| member | source | states |
|---|---|---|
| Deployment.Deploy | updater/hermes_updater/deploy.py:264-360 | wherever the process dies, the stored data and production stand in `Recoverable`; when it returns, it succeeded exactly when production was at the payload's source, no command was refused and every check passed, and then by 21 steps all PASS, a known log of commands and checks, one restart, and HEAD and the healthy service at the candidate; "deployed" exactly when nothing was refused before the code; whatever is refused later is rolled back, and the rollback is verified exactly when nothing is refused after it began |
| Deployment.ChangeProduction | updater/hermes_updater/deploy.py:300-351 | from the code on: success exactly when no command is refused and no check fails, with the fetch, merge, tag check, installs, restart, wait and post-tests on record in this order; any other end is a rollback, verified exactly when nothing is refused after it began |
| Deployment.RestartAndTest | updater/hermes_updater/deploy.py:342-360 | success exactly when the restart, the health wait and all eight post-tests answer well, each of them asked; anything else is rolled back |
| Deployment.RollbackAndVerify | updater/hermes_updater/deploy.py:404-416 | "rolled back" exactly when none of its commands was refused and there was a copy to put back; "recovered" exactly when, besides, the service was found healthy, and then with the old code, venv and units and the service on them; the way back is recorded throughout |
| Deployment.Rollback | updater/hermes_updater/deploy.py:419-461 | asks exactly for the stop, the reset, the renames, the reload when a unit file differed, and the restart, in this order; keeps the way back whole at every step, even when repeated; when none was refused production is restored and the service runs it; its verdict is OK exactly when, besides, there was a copy; each step's verdict is the answer of its command |
| Deployment.SwapVenv | updater/hermes_updater/deploy.py:434-446 | between and after the two renames the old venv is whole in its copy or back in place; which of them is asked depends on what is there; unless one fails the old venv is back |
| Deployment.Host.RestoreUnits | updater/hermes_updater/deploy.py:447-458 | the saved files, and no others, end with their saved content, in any order and from any death; it reports a change exactly when there was one |
| Deployment.Host.Preconditions | updater/hermes_updater/deploy.py:219-247 | the eight checks in order, each asked once and each verdict its answer; the first passes exactly at the payload's source commit, the third only on a clean checkout; all pass exactly when nothing failed and production is at the source |
| Deployment.Host.PostTests | updater/hermes_updater/deploy.py:363-401 | the eight checks in order, each asked once and each verdict its answer, the first passing exactly with HEAD at the candidate; all pass exactly when nothing failed and it is |
| Deployment.Persist | updater/hermes_updater/machine.py:467-471 | two commits: after a death the data is the old or the merged one, and no other run changed |
| Deployment.RecoverRun | updater/hermes_updater/machine.py:109-144 | a run that died anywhere is closed INTERRUPTED; nothing to undo exactly when nothing had begun, with the copy gone if it could be removed; ended well exactly when HEAD is the candidate and the seven other post-tests pass; otherwise rolled back, and, when no command was refused, restored with the service running it; without a rollback the gateway is exactly as found; a death inside it stays recoverable |
| Deployment.FinishOrUndo | updater/hermes_updater/machine.py:125-135 | ends well, touching nothing, exactly when HEAD is the candidate and the other post-tests pass; else rolls back, and with no command refused production is restored, the service running it |
| Deployment.DeployAndRecover | updater/hermes_updater/machine.py:109-144 | a deployment that dies at any step (no exception caught), and recoveries that die in turn: when the first recovery to end had no command refused, production is untouched, or at the candidate with eight passing post-tests, or restored with the service running it |
| Deployment.StoppedServiceMayPass | updater/hermes_updater/machine.py:125-135 | from any production and approved payload, through the acts and commits of the protocol: after a restart that failed, or a rollback that stopped the service, eight passing post-tests end the recovery with the service stopped |
| Orchestration.Orchestrator.Guarded | updater/hermes_updater/machine.py:68-103 | a run whose process survives is closed once, with the outcome returned; green only with all required checks at PASS, however the body ended; an exception on record means FAILED; closed runs never change. Without an exception a daily run's outcome is the one its findings determine, an application deploys exactly when some candidate passes the gate, and its outcome says exactly what was refused (`ApplyTells`) and is true of production |
| Orchestration.Orchestrator.Body | updater/hermes_updater/machine.py:76-87 | an exception on record means FAILED, on production still recoverable; without one, the promises of `DailyBody` and of `ApplyBody` |
| Orchestration.Orchestrator.Close | updater/hermes_updater/machine.py:88-95 | the outcome differs from the claim exactly when the claim is green and a required check is not at PASS; then it is FAILED; the outcome returned is the stored one |
| Orchestration.Orchestrator.Reconcile | updater/hermes_updater/machine.py:109-144 | afterwards no run is open; only the one that was open changed; past its deployment production stays as it was and some outcome is true of it; within it, the recovery ends as `RecoverRun` says, by what was refused |
| Orchestration.Orchestrator.DailyRun | updater/hermes_updater/machine.py:147-158 | a second run is opened exactly when the policy is automatic and the first ended PENDING_APPROVAL; without the policy nothing is deployed and production is as it was; at most one deployment otherwise |
| Orchestration.Orchestrator.DailyBody | updater/hermes_updater/machine.py:160-243 | each outcome if and only if the findings say so; a candidate is prepared exactly when there is an update, resources, preparation is enabled and the skip rule does not apply at the time read; PENDING_APPROVAL leaves one pending candidate, of this run and pair; it never touches production |
| Orchestration.Orchestrator.HermesSkips | updater/hermes_updater/machine.py:245-269 | with a clock that goes forward, skips exactly when a candidate of the pair awaits approval, or the pair's newest attempt is a rollback or a recent failure of its own; so a failed pair is never prepared |
| Orchestration.Orchestrator.PrepareHermes | updater/hermes_updater/machine.py:303-415 | ends PENDING_APPROVAL exactly when nothing stands against the candidate, BLOCKED exactly on evidence against it; one attempt more, whose kind agrees, and the pending candidate with it |
| Orchestration.CheckApproval | updater/hermes_updater/approval.py:67-103 | an approval is valid exactly when it is of this code, names a factor, was given after the candidate was made and at most 300 s ahead of the clock, and neither its own expiry nor its age is exceeded |
| Orchestration.Orchestrator.Authorise | updater/hermes_updater/machine.py:432-464 | grants exactly when a candidate is the one meant, pending, intact, not past its expiry at the time read, attested by its own second factor or automatic under the policy, and its approval was not used before; the approval is then used up; exactly an expired candidate is withdrawn; a refusal leaves a required check not at PASS |
| Orchestration.Orchestrator.ApplyBody | updater/hermes_updater/machine.py:432-527 | adds one grant exactly when some candidate passes the gate; BLOCKED exactly when nothing had begun, SUCCESS or FAILED exactly when production was at the source and nothing was refused (by whether the message can be sent), ROLLED_BACK exactly when nothing was refused after the rollback began; the outcome is true of production, and so is the candidate's final status of it; a failure is the first on its pair |
| Orchestration.Orchestrator.Invoke | updater/hermes_updater/machine.py:474-474 | the single call of `deploy`, on a grant that no earlier call used, with what `deploy` promises |
| Orchestration.Orchestrator.NoteSteps | updater/hermes_updater/machine.py:476-477 | each step of the deployment ends as a required check with its own verdict |
| Orchestration.Orchestrator.Conclude | updater/hermes_updater/machine.py:483-527 | the outcome is true of production and determined by what `deploy` told and whether the message was sent: BLOCKED exactly when nothing was deployed, SUCCESS and FAILED exactly on a success with and without the message, the others by whether recovery is verified; and the candidate's status matches |
| FailedRuns.UnsentMessage | updater/hermes_updater/machine.py:486-488 | a history of the protocol to its end, from any production: every step passes, the message does not, and FAILED leaves the candidate in place |
| FailedRuns.ExceptionHalfway | updater/hermes_updater/machine.py:79-95 | two histories cut by an exception, after the merge and within the rollback: production is neither untouched nor at the candidate, and the way back is recorded |
| FailedRuns.LeftAloneExactly | updater/hermes_updater/machine.py:118-123 | the stored data shows production untouched if and only if it has no rollback point or is in its first phase |
| FailedRuns.FailedLeftAlone | updater/hermes_updater/machine.py:79-95 | of a FAILED application, production is known to be untouched if and only if an exception is on record and nothing had begun |
| Orchestration.Orchestrator.RememberFailure | updater/hermes_updater/machine.py:489-503 | which of the two commits went through, by how many boundaries the process passes; the failed pair had not failed before, and cannot be prepared again once the attempt is in |
| Orchestration.Orchestrator.AfterAFailure | updater/hermes_updater/machine.py:245-269 | a failed application, a death or an exception, the reconciliation and the next process: past the waits, the pair is skipped exactly when the attempt was committed |
| Orchestration.Orchestrator.Revoke | updater/hermes_updater/cli.py:35-60 | exactly a pending candidate stops being pending, with an attempt that says so; nothing else changes |
| Orchestration.Orchestrator.Operate | updater/hermes_updater/machine.py:68-158 | over any number of processes, each dying or raising where it may: `Durable`, closed runs unchanged, deployments only added, and no two runs that failed in production on one pair while the clock goes forward |
| Orchestration.AttemptBurns | updater/hermes_updater/machine.py:500-503 | recording a rollback keeps failures distinct and burns the new pair |
| Orchestration.NewestIsLast | updater/hermes_updater/store.py:205-207 | with a strictly increasing clock, the latest attempt by time is the newest row |
| Orchestration.NewestIsOnRecord | updater/hermes_updater/store.py:202-207 | a pair whose newest attempt is a rollback is among the failures on record |
| UpdaterStore.Store.OpenRun | updater/hermes_updater/store.py:107-115 | one new open run at the end, or none if the process died |
| UpdaterStore.Store.Transition | updater/hermes_updater/store.py:117-126 | a closed run refuses with an exception; otherwise only the state of that run changes |
| UpdaterStore.Store.MergeData | updater/hermes_updater/store.py:151-155 | only the given keys of that run's data change |
| UpdaterStore.Store.CloseRun | updater/hermes_updater/store.py:131-143 | refused exactly when already closed, or green with a required check not at PASS; otherwise closed with the given outcome |
| UpdaterStore.Store.RecordCheck | updater/hermes_updater/store.py:167-182 | the verdicts of other runs are untouched, and a required check that is not PASS forbids green |
| UpdaterStore.Store.SaveCandidate | updater/hermes_updater/store.py:185-191 | wherever it dies at most one candidate is pending, and it is the new one once it returns; others are superseded exactly if they were pending |
| UpdaterStore.Store.PendingCandidate | updater/hermes_updater/store.py:196-197 | the newest pending candidate, and none exactly when nothing is pending |
| UpdaterStore.Store.LastAttempt | updater/hermes_updater/store.py:205-207 | no attempt on the pair is later, and none exactly when there is none |
| UpdaterStore.Store.ConsumeApproval | updater/hermes_updater/store.py:209-216 | true exactly the first time |
| Health.WaitHealthy | updater/hermes_updater/deploy.py:82-115 | true only after one nonzero PID, active, with the base restart count, was seen at every second of a window of at least `stable_s`, and, when wanted, the ready line afterwards under that PID; it gives up only when the time is over, and, with time for the window, only after something bad was seen; returns before `timeout_s + stable_s + 3` |
| Health.StableWindow | updater/hermes_updater/deploy.py:94-101 | steady means one good observation of each kind at every second of the window, nothing skipped |
| Health.WatchReady | updater/hermes_updater/deploy.py:102-113 | found means the PID was still up at every look and the last look saw the ready line |
| RunHistory.EveryHistory | rust/hermes-maint-core/src/run.rs:109-312 | over every interleaving of starts, dry runs, failed saves, finishes and deaths, from no file: one lock inode, one holder, and a well-kept file that the real run in progress agrees with |
| RunHistory.OneRunAtATime | rust/hermes-maint-core/src/run.rs:109-312 | no two processes are ever between start and finish |
| RunHistory.InterruptionIsRecorded | rust/hermes-maint-core/src/run.rs:102-175 | the next saved start records a run that never closed first in the history, as interrupted, without an end |
| RunHistory.ReconciledIsWellKept | rust/hermes-maint-core/src/state.rs:288-306 | reconciling keeps ids gap-free and descending, at most 30, and leaves no open run |
| RunHistory.StartedIsWellKept | rust/hermes-maint-core/src/run.rs:152-165 | a start keeps the history well kept, with the open run the newest id |
| RunHistory.FinishedIsWellKept | rust/hermes-maint-core/src/run.rs:284-312 | so does a finish; a finished run is never marked interrupted |
| RunHistory.FinishStoresTheRun | rust/hermes-maint-core/src/run.rs:284-312 | over every possible history: a saved finish puts the run first, with exactly the tasks recorded since it began, its end and the verdict these deserve |
| RunHistory.LiveState.Reconcile | rust/hermes-maint-core/src/state.rs:288-300 | in place: no open run, no new id; the open run first in the history, interrupted unless it had an end, and the others one place further; reports exactly the run without an end |
| RunHistory.LiveState.PushHistory | rust/hermes-maint-core/src/state.rs:303-306 | the new run first, every other one place further, and only a thirty-first lost |
| RunHistory.LiveState.Open | rust/hermes-maint-core/src/run.rs:152-165 | in place: the new run, open, with the next id, time and trigger, after the reconciliation |
| RunHistory.LiveState.Close | rust/hermes-maint-core/src/run.rs:284-294 | in place: the run first in the history with its end and the verdict its tasks deserve, the others one place further, no open run |
| RunHistory.Aggregate | rust/hermes-maint-core/src/run.rs:336-364 | no task is worse than the verdict, and some task is as bad (or all is well): each verdict if and only if such tasks occur |
| RunHistory.AggregateIgnoresOrder | rust/hermes-maint-core/src/run.rs:315-364 | the verdict depends only on the set of task outcomes |
| RunHistory.UnlinkWouldBreakTheLock | rust/hermes-maint-core/src/lock.rs:120-126 | with an unlink on release, two processes hold the lock at once |
| AtomicSave.FileSystem.Save | rust/hermes-maint-core/src/state.rs:324-361 | at every boundary the target is, whole, an old version or the new one; success exactly when no call failed, and then only the new one; no temp file is left unless a second call failed |
| AtomicSave.ReadsWholeVersion | rust/hermes-maint-core/src/state.rs:308-361 | after a power loss the target reads as one of the allowed versions |
| AtomicSave.OnlyVersionsIsNeeded | rust/hermes-maint-core/src/state.rs:308-361 | the converse: any disk outside that condition has a power loss after which the target reads as something else |
| AtomicSave.FileSystem.SaveRepeatedly | rust/hermes-maint-core/src/state.rs:324-361 | over any sequence of saves, failures and power losses, the target is, whole, the last version reported as saved or one handed to `save` since |
| Calendar.DaysOfDateAt | rust/hermes-maint-core/src/tasks/backup_freshness.rs:484-491 | the formula equals counting days one at a time from 1970-01-01, in both directions |
| Calendar.NextDayCountsOne | rust/hermes-maint-core/src/tasks/backup_freshness.rs:484-491 | the next valid date under the leap-year rule counts exactly one more |
| Calendar.CivilFromDaysCounts | rust/hermes-maint-core/src/tasks/backup_freshness.rs:512-523 | the inverse formula is the date found by counting |
| Calendar.MutuallyInverse | rust/hermes-maint-core/src/tasks/backup_freshness.rs:484-523 | inverse both ways on all integers, and on a date exactly when it is valid |
| Calendar.StrictlyMonotone | rust/hermes-maint-core/src/tasks/backup_freshness.rs:484-491 | valid dates are ordered exactly as their day numbers |
| Calendar.QuotIsFloor | rust/hermes-maint-core/src/tasks/backup_freshness.rs:486-514 | the conditional before each truncating division makes it floor |
| Timestamps.RoundTrip | rust/hermes-maint-core/src/tasks/backup_freshness.rs:411-523 | the printed instant reads back as itself exactly within the printable years, and is refused outside |
| Timestamps.PrintableYears | rust/hermes-maint-core/src/tasks/backup_freshness.rs:499-523 | the instants of years -999 to 9999 as two constants |
| Timestamps.ReadsEveryForm | rust/hermes-maint-core/src/tasks/backup_freshness.rs:411-480 | every form (separator, fraction, zone, second 60, day 31, minus signs for leading digits) reads as the instant it denotes |
| Timestamps.ReadsZone | rust/hermes-maint-core/src/tasks/backup_freshness.rs:458-480 | every zone form, with minus signs inside or not, reads as its seconds |
| Timestamps.ParsePadded | rust/hermes-maint-core/src/tasks/backup_freshness.rs:499-509 | a zero-padded number, negative or not, reads back |
| Timestamps.AcceptsSignedHour | rust/hermes-maint-core/src/tasks/backup_freshness.rs:420-435 | a text with a negative hour is accepted, though not documented |
| Timestamps.ExactLanguage | rust/hermes-maint-core/src/tasks/backup_freshness.rs:403-480 | an accepted text is a documented one if and only if it has no inner sign, a `T`, a fraction of six digits or none, `Z` or a zone with minutes, and a day of its month |
| Timestamps.AcceptedTexts | rust/hermes-maint-core/src/tasks/backup_freshness.rs:403-480 | every text of unsigned fields in range is accepted, and is strict exactly when it is of the documented form |
| Timestamps.UnsignedLanguage | rust/hermes-maint-core/src/tasks/backup_freshness.rs:411-480 | without inner signs, in the fields or the zone, exactly the texts of unsigned fields in range are accepted |
| Timestamps.AcceptsSignedZone | rust/hermes-maint-core/src/tasks/backup_freshness.rs:458-480 | a text with a negative zone hour after the zone's sign is accepted, though not documented |
| CommandUsage.ClosedForm | hermes_layer2/command_usage.py:91-162 | the score read is at most the sum of the decays of all uses, and equal exactly when the times never went back |
| CommandUsage.ScoreAtMostUses | hermes_layer2/command_usage.py:108-162 | never more than the number of uses, nor negative |
| CommandUsage.SixHalfLives | hermes_layer2/command_usage.py:91-100 | six half-lives divide a score by 64 |
| CommandUsage.RowOfUses | hermes_layer2/command_usage.py:108-142 | a row exists exactly for used commands, and counts the uses |
| CommandUsage.RankCommands | hermes_layer2/command_usage.py:174-197 | the given names reordered, best first by score, last use and place, or an error exactly for a nameless command |
| CommandUsage.RankedBestFirst | hermes_layer2/command_usage.py:174-197 | the order returned is the names reordered, none before a better one |
| CommandUsage.CommandMeans | hermes_layer2/command_usage.py:85-88 | the name counted is the text without the white space around it and then the slashes before it, and a blank one is refused |
| CommandUsage.RankingIsUnique | hermes_layer2/command_usage.py:174-197 | exactly one permutation is in that order, and it is the one returned |
| CommandUsage.RankingIsTimeless | hermes_layer2/command_usage.py:91-197 | the ranking is the same at any two times not before the stored scores |
| CliRanking.Menu.Ranked | hermes_layer2/cli_ranking.py:81-108 | the cached order is the order a fresh ranking would give now, as long as no other process wrote the table, and otherwise exactly when the table it was filled from ranks alike; a miss reads the table once |
| CliRanking.Menu.RecordUse | hermes_layer2/cli_ranking.py:60-78 | a recorded use invalidates the cache; a failure changes nothing |
| CliRanking.Menu.Invalidate | hermes_layer2/cli_ranking.py:42-46 | no list is answered from the cache any more, so that the next ranking is fresh |
| Migrations.Registry.MigrateComponent | hermes_layer2/state_schema.py:85-118 | run alone: exactly the gap-free versions after the old one, in order; an error stops at the first that fails or is missing below the target, keeping the last complete one |
| Migrations.RecordedImpliesApplied | hermes_layer2/state_schema.py:85-118 | under any interleaving, every migration up to the recorded version was committed |
| Migrations.VersionCanGoDown | hermes_layer2/state_schema.py:92-112 | two interleaved processes that lower the recorded version |
| Migrations.MonotoneOneAtATime | hermes_layer2/state_schema.py:92-112 | it never does when no process starts while another has a migration to run; then the busy one stands right above the recorded version |
| Migrations.MonotoneWhenForward | hermes_layer2/state_schema.py:92-112 | over every history, the version never decreases exactly when no commit is below the version recorded at that moment |
| Migrations.LastCommitter | hermes_layer2/state_schema.py:85-118 | with one target, a recorded version below it has a process still on its way to it |
| Migrations.QuiescentVersion | hermes_layer2/state_schema.py:85-118 | once all processes returned, the recorded version is the target and all of it was applied |
| Migrations.TargetVersion | hermes_layer2/state_schema.py:58-60 | the largest registered version, zero without any |
| Drain.ReadToEnd | rust/hermes-maint-core/src/supervisor.rs:552-589 | the last `cap` bytes and the exact total, however the stream was split into reads and interrupted |
| Drain.StreamIsEveryChunk | rust/hermes-maint-core/src/supervisor.rs:552-589 | the stream is the bytes of every read in order, up to the end or an error |
| Drain.TruncatedFlag | rust/hermes-maint-core/src/supervisor.rs:552-589 | more than `cap` implies truncated, truncated implies at least `cap`, and they coincide when `cap` exceeds the read buffer |
| Drain.MakeRoom | rust/hermes-maint-core/src/supervisor.rs:571-574 | the pop loop ends with the newest bytes that still fit |
| CiSuites.ParseReport | updater/hermes_updater/ci.py:76-101 | the number of cases of each kind, and every failed id once, nothing else |
| CiSuites.Suite.Recheck | updater/hermes_updater/ci.py:155-183 | sets aside exactly the failures seen passed and not failed when repeated, unless the repetition ran nothing or they are more than five and more than 1% |
| CiSuites.Suite.Classify | updater/hermes_updater/ci.py:186-204 | known to the baseline, or a regression; a baseline that ran nothing excuses nothing |
| CiSuites.Suite.Finish | updater/hermes_updater/ci.py:207-222 | passes exactly when it ended, ran something and has no regression |
| CiSuites.FlakyMeans | updater/hermes_updater/ci.py:155-183 | what is set aside, in terms of the two reports alone |
| CiSuites.ExcusedMeans | updater/hermes_updater/ci.py:155-222 | the three lists, and being excused, in terms of the three reports alone |
| CiSuites.UpstreamSuite | updater/hermes_updater/ci.py:225-243 | passes exactly when it ended, ran something and every failure either passed and did not fail on repetition, few enough, or fails on a baseline that ran something; each list in terms of the reports |
| CiSuites.SplitIsPartition | updater/hermes_updater/ci.py:155-204 | no failure is lost: the three lists partition the failures, and at most max(5, 1%) are flaky |
| BackupPrune.Root.Prune | updater/hermes_updater/backup.py:287-309 | removes exactly the removable ones, whatever order the directory is listed in |
| BackupPrune.Decision | updater/hermes_updater/backup.py:293-306 | the positional test of the loop is the rule by number of newer verified backups |
| BackupPrune.NeverRemoved | updater/hermes_updater/backup.py:287-309 | foreign ones, those without a verdict and everything after the last verified one stay |
| BackupPrune.KeepsTheNewest | updater/hermes_updater/backup.py:287-309 | each of the max(1, keep) newest verified ones stays |
| BackupPrune.StaysExactly | updater/hermes_updater/backup.py:287-309 | what stays, if and only if, in terms of names, verdicts and owners |
| BackupPrune.NewestStay | updater/hermes_updater/backup.py:287-309 | pruning leaves every backup as many newer verified ones, up to max(1, keep), as it had |
| BackupPrune.PruneIsIdempotent | updater/hermes_updater/backup.py:287-309 | pruning again removes nothing |

## Left out

- Subprocesses, git, pip, systemd, the journal, the network, SQLite, JSON and SHA-256: oracles with free answers, tables as fields with one commit per statement, hashing as an injective function.
- The transition log, the outbox, `meta` rows, notifications and report text: presentation of the same states.
- The bodies of `discover`, `prepare`, `verify_backup`, backups and the AI review: each is one verdict; several auxiliary updates or test suites of one daily run share one.
- The updater's lock: runs are one after another, so the Busy answer does not appear; `_revoke`, which takes no lock, is serialised with them.
- Orchestration.Orchestrator.Reconcile: covers deaths. An exception inside `deploy` is closed FAILED with production as the exception left it, because `reconcile` only looks at open runs.
- Orchestration.Orchestrator.Body: an error while recording an exception, or while closing, counts as the death of the process.
- Deployment.RecoverRun: a run that died at its report or later is only closed, as the code does. A second rollback, after the venv is back, finds no copy and reports failure on restored production; its verdict is exact about that.
- The owner and readability of the approval file are one answer: a file that cannot be trusted is `NoApproval`.
- Orchestration.Orchestrator.Operate: "no pair fails twice" counts the runs that end ROLLED_BACK or RECOVERY_FAILED; a deployment cut short by a death before its attempt, or by an exception, ends INTERRUPTED or FAILED and is not remembered. It is claimed while the clock strictly increases: equal times leave the latest attempt undetermined.
- Deployment.Host.Preconditions: branch, candidate, lock file, backup, disk and gateway are free answers.
- Deployment.Host.PostTests: the seven checks besides HEAD are free answers.
- Health.WaitHealthy: sleeping is exact and observing takes no time; inside `deployment.dfy` the wait is an oracle that never passes a stopped service, which is what its evidence gives of a service that does not change meanwhile (`Deployment.EvidenceMeansUp`).
- The log test after a recovery: the restart time it starts from is lost with the process, so it is one free answer.
- Unit files are copied in one step each; any content a copy cut short could leave is overwritten by the next rollback.
- Copies left by earlier deployments, the removal of the failed venv, hard database restores and the manual rollback command.
- Floating point: scores are reals, the weight is any exponential with the given half-life, and 1% is integer division by 100.
- Widths of `i64` and `u64`: integers are unbounded.
- Characters stand for bytes, and only ASCII white space is trimmed from command names.
- CliRanking.Menu.Ranked: one thread; an invalidation that lands between the read and the store of another thread can be lost.
- Corrupt, foreign or future state files and their quarantine, also in dry runs: the histories start from no file.
- `supervise`, its signals and its unbounded final wait: only `drain` is modelled.
- BackupPrune.Root.Prune: a directory whose removal fails is not modelled.
