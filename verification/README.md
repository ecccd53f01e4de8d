# ClusterGuard HA: a Dafny model of its role-moving protocols

ClusterGuard HA moves the write role of a database cluster. This project models the code that does so,
and proves what that code keeps over every run: the MySQL and PostgreSQL switchover and failover
executors, the host agent's command receipts, its reconciler and its permits, the base-backup directory
swap, the recovery binlog check, GTID arithmetic, the topology resolver, candidate ranking, and the
verification of a switchover.

## How the executors are modelled

A switchover or failover executor is a sequence of external calls that may each fail, in a process that
may die at any point and be run again. Each executor is a state machine: a state names the call the
executor is about to make (`Pc`), `Next` consumes the answer to that call, and `After` folds any sequence
of events over a start state. An answer is success, failure after taking effect, or failure without
effect. The other events are a step of the environment (clients, replication, WAL), a crash of the
executor, and a launch of the operation. So `After(c, s, events)` ranges over every number of runs, every
crash point, every half-lost command and every resume, for any number of followers. Steps are durable
records; a failing record may have been committed.

Invariants hold for every environment step of the model, however a member came by a transaction. Where
something is said to be possible, the environment is held to causes: in `MySQLMembers.CausalStep` a member
executes a new transaction of its own only while it accepts writes, and any other only from the member it
follows. The runs shown to be possible for the MySQL failover contain no environment step, and in the
PostgreSQL model a standby never replays more than its source has written.

Four kinds of statements are made about these machines: invariants of every reachable state; the course of
a run, that is, in which order calls are made, that the first failing call ends it, and which class and
which clean-up belong to it; what the end of a run tells about the cluster; and, where a promise is false of
the code, the exact condition under which it holds together with a run that breaks it.

The promise that an interrupted operation can be run again is of the last kind. For each executor a lemma
`CanFinishIff` says in which states between runs some further run can still finish the operation:

- MySQL switchover: every mutating step is recorded, or the roles are those of the untouched healthy
  cluster and the target has no transaction the source lacks, or the fence is recorded, the roles agree
  with the records, and a fenced target has no transaction that a source without a replication source
  lacks.
- MySQL failover: the promotion is recorded, or the target is still a fully fenced replica of the old
  primary without foreign transactions.
- PostgreSQL switchover: every mutating step is recorded, or source and target are still a running primary
  and a running standby and no stop of the source is recorded.
- PostgreSQL failover: the promotion is recorded, or the target is still a running standby.

In all other states no run moves the write role any more, and the lemmas named `...Window` show that such
states are reached from every healthy start by a single death, rollback or failing call at a bad moment.

Facts about the code that the proofs bring out:

- A resumed PostgreSQL switchover trusts a recorded write fence even when an earlier abort has lifted it,
  and can then lose commits (`TwoRunsCanLose`); `NextRunCanLoseIff` says exactly when.
- A PostgreSQL switchover that was rolled back after stopping its source reports `pre_commit` and can
  never promote afterwards (`RollbackWindow`, `RolledBackNeverPromotes`), and one that died between
  promoting and recording, or anywhere with the source down, can never be resumed (`PromotionWindow`,
  `InterruptedStaysInterrupted`): the precheck of every run demands a running primary and a standby. The
  same window exists in the PostgreSQL failover.
- A PostgreSQL switchover that obtains its lease and fails to record it reports `pre_commit` and leaves
  the lease behind (`LeaseCanBeLeft`); this is the only such exit (`PreCommitIsAllOrNothing`).
- A MySQL failover can leave the target writable and unpublished exactly when semi-sync is required and
  there is a follower to reparent (`LeavesWriterIff`), and only when recording a reparented follower fails.
- A MySQL failover can report `pre_commit` although it has detached its target, exactly when the promotion
  is not recorded and the target can be promoted (`PreCommitDetachesIff`), and although it has isolated the
  old primary, exactly when that was not isolated before (`PreCommitIsolatesIff`). With a detached target
  and no recorded promotion it cannot be resumed (`StrandedTargetBlocks`, `DetachWindow`).
- A MySQL switchover has four windows in which a death blocks it for good: between fencing and recording
  the fence, between detaching the target and recording the promotion, with the target already open, and
  between reparenting the former source and recording that (`FenceWindow`, `DetachWindow`, `OpenWindow`,
  `ReparentWindow`). In a fifth one nothing dies: the promoted target takes one transaction, a follower
  call fails, the target is fenced again as it should be, and the resume precheck refuses the operation
  from then on because the source will never have that transaction (`ErrantWindow`).
- A completed agent receipt can change its stored answer exactly when an older agent left a completed,
  successful VIP receipt: two concurrent processes then both publish (`ReceiptChangesIffLegacy`).

## Modules

- `Progress`: recorded steps against a plan.
- `MySQLMembers`, `MySQLSteps`: members, SQL statements, reparenting, what a recorded step means.
- `MySQLSwitchover`, `MySQLSwitchoverSafety`, `MySQLSwitchoverProgress`, `MySQLSwitchoverOutcome`,
  `MySQLSwitchoverCourse`, `MySQLSwitchoverHistories`, `MySQLSwitchoverRuns`, `MySQLSwitchoverLiveness`,
  `MySQLSwitchoverWindows`: the planned switchover.
- `MySQLFailover`, `MySQLFailoverSafety`, `MySQLFailoverProgress`, `MySQLFailoverCourse`,
  `MySQLFailoverRuns`, `MySQLFailoverLiveness`, `MySQLFailoverExits`: the failover.
- `MySQLVerification`, `MySQLCandidates`: verification with retries, and candidate ranking.
- `PostgreSQLMembers`, `PostgreSQLSwitchover`, `PostgreSQLSwitchoverSafety`,
  `PostgreSQLSwitchoverProgress`, `PostgreSQLSwitchoverOutcome`, `PostgreSQLSwitchoverCourse`,
  `PostgreSQLSwitchoverRuns`, `PostgreSQLSwitchoverLiveness`, `PostgreSQLSwitchoverLoss`: the planned
  PostgreSQL switchover.
- `PostgreSQLFailover`, `PostgreSQLFailoverSafety`, `PostgreSQLFailoverCourse`,
  `PostgreSQLFailoverLiveness`: its failover.
- `PostgreSQLTopology`: the in-place topology resolver.
- `AgentLedger`, `AgentReceipts`, `AgentRequests`: the command handler with its receipts.
- `AgentReconciler`, `AgentPermits`: the reconciler and its decision client.
- `BaseBackup`, `BaseBackupCourse`: the directory swap. `BinlogChain`, `Gtid`: the recovery check and the set arithmetic.

Check everything with `dafny verify dfyconfig.toml`.

## Assumptions

- The executor of an operation is the only actor that changes roles while the operation lasts, and one
  executor runs at a time.
- `super_read_only = ON` also sets `read_only`, and `read_only = OFF` also clears `super_read_only`. A
  member accepts client writes exactly while both flags are off.
- `default_transaction_read_only`, once loaded and with client sessions terminated, stops client commits.
- Isolation of a failed primary, once in effect, lasts for the operation; its verification succeeds only
  for an isolated primary.
- Digests are injective, signatures cannot be forged, and a directory sync makes earlier entries durable.

## Model

| member | source | states |
|---|---|---|
| Progress.AdvanceKeepsPrefix | adapters/mysql/switchover.go:584-619 | recording at most the next plan entry, or finding it recorded, keeps the recorded steps a prefix of the plan |
| Progress.PrefixIsOrdered | adapters/mysql/switchover.go:425-458 | in a plan of distinct steps no step is recorded before an earlier one |
| MySQLMembers.ExecKeepsRoles | adapters/mysql/switchover.go:20-23 | no statement but `read_only = OFF` opens a member, fencing the source makes everything it executed owed, nothing owed is forgotten |
| MySQLMembers.ReparentKeepsRoles | adapters/mysql/reparent.go:117-172 | every call of reparenting, failing or not, opens no member, and changes no member but the reparented one |
| MySQLMembers.RefenceCloses | adapters/mysql/switchover.go:916-927 | re-fencing ends with a read-only target unless its first command was lost without effect |
| MySQLSteps.ReparentBuilds | adapters/mysql/reparent.go:117-172 | reparenting that succeeds leaves a fully read-only replica of the new source |
| MySQLSwitchoverSafety.SwitchoverIsSafe | adapters/mysql/switchover.go:971-1215 | over all runs, crashes and resumes: at most one member accepts writes, the target only while the source has both flags on, and then it has executed everything the source had executed when fenced and everything acknowledged |
| MySQLSwitchoverSafety.NoWriterLeft | adapters/mysql/switchover.go:1107-1207 | a run failing after it was about to open the target and before its lease is finalized leaves no member writable unless its re-fence command was lost |
| MySQLSwitchoverProgress.SwitchoverProgressIsPrefix | adapters/mysql/switchover.go:425-458 | over all runs the recorded steps are a prefix of the plan, for any number of followers, and the whole plan once a run completed |
| MySQLSwitchoverOutcome.CompletedMeansSwitched | adapters/mysql/switchover.go:1079-1214 | a completed run leaves the target detached, open and owning the endpoint, the source and every follower fully read-only replicas of it, semi-sync active if required, the lease finalized, every step recorded |
| MySQLSwitchoverOutcome.RestoredMeansRestored | adapters/mysql/switchover.go:948-969 | a run that had to give the candidate its old source back reports `fenced` exactly when it did so, else `fenced_unknown` |
| MySQLSwitchoverOutcome.ReportedClassIsTrue | adapters/mysql/switchover.go:1004-1056 | a `pre_commit` run changed no member, a `fenced` run leaves the source fully fenced, and recorded fences and reparentings are true |
| MySQLSwitchoverOutcome.LeaseOnlyAfterChecks | adapters/mysql/switchover.go:676-914 | the lease is asked for only after all live checks, or after the resume checks of an operation that owns its fence |
| MySQLSwitchoverCourse.CallsAreInOrder | adapters/mysql/switchover.go:971-1215 | over all runs no call is made before the calls it depends on have succeeded in the same run: all checks before the lease, the lease obtained and recorded before any statement, both health proofs before a follower is recorded, a verified transfer before anything after it |
| MySQLSwitchoverCourse.FailureIsClassified | adapters/mysql/switchover.go:916-1215 | over all runs a run with a failed call never completes, and a failing run reports the class of the call that ended it after the clean-up that belongs to it: the candidate restored, or the target closed, exactly when no clean-up call failed; `fenced` never leaves a target open that the run opened, a run past recording the promotion reports `promoted_unverified`, a finalized run leaves its target open |
| MySQLSwitchoverCourse.EveryRunEnds | adapters/mysql/switchover.go:916-1215 | over all runs every answer, good or bad, brings the run closer to its end, clean-ups included, so a run makes boundedly many calls |
| MySQLSwitchoverHistories.PromotedCoversSource | adapters/mysql/switchover.go:1057-1129 | over all runs in which nothing is executed out of nowhere: once the promotion is recorded the source is fenced and has executed nothing the target has not |
| MySQLSwitchoverLiveness.CanFinishIff | adapters/mysql/switchover.go:971-1215 | in every reachable state between runs the switchover can still be finished if and only if every mutating step is recorded, or the live precheck holds with no transaction of the target missing on the source, or the fence is recorded, the roles pass the resume precheck, and a fenced target has no transaction that a source without a replication source lacks; otherwise no further run changes a role or records a step |
| MySQLSwitchoverLiveness.CanFinishFrom | adapters/mysql/switchover.go:804-914 | the same for every state between runs, reachable or not, where in addition a detached target must have everything of the source |
| MySQLSwitchoverLiveness.WrongRolesBlock | adapters/mysql/switchover.go:1004-1015 | from a state whose roles pass neither precheck, such as a fenced source without a recorded fence, no run finishes, changes a role or records a step, whatever the members execute |
| MySQLSwitchoverWindows.FenceWindow | adapters/mysql/switchover.go:1037-1055 | from every healthy start a run can die with the source fenced and no fence recorded, and no further run finishes, whatever the members execute |
| MySQLSwitchoverWindows.DetachWindow | adapters/mysql/switchover.go:1087-1129 | the same with the target detached, still closed, and no promotion recorded |
| MySQLSwitchoverWindows.OpenWindow | adapters/mysql/switchover.go:1107-1129 | the same with the target open and no promotion recorded |
| MySQLSwitchoverWindows.ReparentWindow | adapters/mysql/switchover.go:1137-1154 | the same with the former source following the target and its reparenting not recorded |
| MySQLSwitchoverWindows.ErrantWindow | adapters/mysql/switchover.go:904-912 | from every healthy start with a follower a run can end with its target correctly fenced again and all roles in accordance with the records, and yet no further run can finish, because the target has executed a transaction of its own |
| MySQLFailoverSafety.FailoverIsSafe | adapters/mysql/failover.go:146-340 | over all runs at most one member accepts writes, the target only while the old primary is isolated |
| MySQLFailoverSafety.WriterLeftOnlyUnrecorded | adapters/mysql/failover.go:298-311 | a run that leaves a writer before publishing ended by failing to record a reparented follower |
| MySQLFailoverSafety.NoWriterLeft | adapters/mysql/failover.go:240-338 | without semi-sync or without followers no failing run leaves a writer before publishing |
| MySQLFailoverProgress.FailoverProgressIsPrefix | adapters/mysql/failover.go:107-133 | over all runs the recorded steps are a prefix of the plan, endpoint before or after the followers |
| MySQLFailoverProgress.OnlySafeTargetsAreDetached | adapters/mysql/failover.go:190-231 | the target is first detached only as a fully fenced replica of the isolated old primary, and whatever it was seen to have executed beyond the observed history of that primary originated there |
| MySQLFailoverProgress.CompletedMeansFailedOver | adapters/mysql/failover.go:146-340 | a completed run leaves the old primary isolated, the target detached, open and owning the endpoint, every eligible follower its read-only replica, semi-sync active if required, every step recorded |
| MySQLFailoverCourse.CallsAreInOrder | adapters/mysql/failover.go:146-340 | over all runs no call is made before the calls it depends on have succeeded in the same run; nothing is done to the target before isolation was proven and the lease obtained and recorded in that run |
| MySQLFailoverCourse.FailureIsClassified | adapters/mysql/failover.go:264-340 | over all runs a run with a failed call never completes, and a failing run reports the class of the call that ended it after the clean-up that belongs to it; a run that has published its target never closes it again |
| MySQLFailoverCourse.EveryRunEnds | adapters/mysql/failover.go:146-340 | over all runs every answer, good or bad, brings the run closer to its end, clean-ups included, so a run makes boundedly many calls |
| MySQLFailoverExits.LeavesWriterIff | adapters/mysql/failover.go:307-309 | some run leaves a writer before publishing if and only if semi-sync is required and there is a follower |
| MySQLFailoverExits.ReportedClassIsTrue | adapters/mysql/failover.go:146-340 | after a `pre_commit` run all roles are those it found, except that a fenced replica of the isolated old primary may have been detached; a `fenced` run leaves the old primary isolated |
| MySQLFailoverExits.PreCommitDetachesIff | adapters/mysql/failover.go:222-235 | in every reachable state between runs the next run can report `pre_commit` with the target detached if and only if the promotion is not recorded and the target is a fully fenced replica of the old primary without foreign transactions |
| MySQLFailoverExits.PreCommitIsolatesIff | adapters/mysql/failover.go:172-189 | in every reachable state between runs the next run can report `pre_commit` and have isolated the old primary if and only if that is not isolated yet; a recorded fence means isolation |
| MySQLFailoverLiveness.CanFinishIff | adapters/mysql/failover.go:146-340 | in every reachable state between runs the failover can still be finished if and only if the promotion is recorded or the target is a fully fenced replica of the old primary without foreign transactions |
| MySQLFailoverLiveness.StrandedTargetBlocks | adapters/mysql/failover.go:218-228 | in any other state between runs every further run fails and touches no member |
| MySQLFailoverLiveness.DetachWindow | adapters/mysql/failover.go:229-240 | from every start with a promotable target a run can die with the target detached and no promotion recorded, and the operation is then blocked |
| MySQLVerification.VerifyOnce | adapters/mysql/switchover.go:1261-1348 | an attempt passes exactly for a writable, detached, identified target and otherwise fully read-only, identified, replicating members; the uniqueness check counts the members that accept writes; only convergence is missing exactly when everything else is settled |
| MySQLVerification.FollowerChecks | adapters/mysql/reparent.go:174-202 | the checks of a follower all pass exactly when it is reachable, itself, fully read-only and replicating |
| MySQLVerification.ConvergencePending | adapters/mysql/switchover.go:1217-1231 | the loop answers true exactly when something fails and only converging checks fail |
| MySQLVerification.Verify | adapters/mysql/switchover.go:1233-1259 | every attempt that was retried lacked only convergence; a failed result before the last attempt is a failure that waiting cannot mend |
| MySQLVerification.WaitHealthy | adapters/mysql/reparent.go:76-115 | the polling loop succeeds at the first moment with three healthy samples in a row, and only then |
| MySQLCandidates.Add | adapters/mysql/candidates.go:80-88 | the two flags stay summaries of the checks: a failure makes ineligible, a warning is remembered |
| MySQLCandidates.Evaluate | adapters/mysql/candidates.go:70-236 | a candidate is eligible exactly when all conditions hold and warned exactly when a tolerated one fails; the missing count is the size of the set difference, the data-loss risk and the risk level follow from it, and every check is kept in its order |
| MySQLCandidates.EligibleExactly | adapters/mysql/candidates.go:90-225 | condition by condition who is eligible: a candidate cut off from a failed primary is excused from health, promotability, a running connection and a known lag, and from nothing else; a history may be ahead only with transactions of the primary, and only if nothing is missing |
| MySQLCandidates.CleanExactly | adapters/mysql/candidates.go:90-236 | an eligible candidate carries no warning exactly when it is healthy, promotable, running, without lag, with the same history, and every instance was probed |
| MySQLCandidates.SortEvaluations | adapters/mysql/candidates.go:34-56 | the result is a sorted permutation |
| MySQLCandidates.SortIsUnique | adapters/mysql/candidates.go:34-56 | a sorted list is determined by its elements, whatever sort is used |
| MySQLCandidates.Rank | adapters/mysql/candidates.go:58-67 | the loop gives each eligible candidate the number of eligible ones up to it |
| MySQLCandidates.EvaluateAll | adapters/mysql/candidates.go:27-68 | the output is the ranking of the assessments of all instances, with their checks, risks and levels |
| MySQLCandidates.RankingIgnoresOrder | adapters/mysql/candidates.go:27-68 | the ranking does not depend on the order of the input |
| MySQLCandidates.RanksAreConsecutive | adapters/mysql/candidates.go:58-67 | eligible candidates come first with ranks exactly 1, 2, and so on; the others have none |
| MySQLCandidates.FirstLosesLeast | adapters/mysql/failover.go:88-90 | the rank 1 candidate has the fewest missing transactions of all eligible ones although warnings are compared first |
| PostgreSQLSwitchoverSafety.SwitchoverIsSafe | adapters/postgresql/execution.go:435-693 | over all runs source and target are never both running outside recovery |
| PostgreSQLSwitchoverSafety.PromotedIsCaughtUp | adapters/postgresql/execution.go:587-612 | over all runs a target out of recovery has replayed the recorded source position and the source is no primary |
| PostgreSQLSwitchoverSafety.FreshRunsLoseNothing | adapters/postgresql/execution.go:531-592 | no commit is lost in any sequence of runs that each fence the source or find it still fenced |
| PostgreSQLSwitchoverSafety.RolesMoveSafely | adapters/postgresql/execution.go:558-619 | the target leaves recovery only while the source is stopped and after replaying the recorded position; the source becomes a running primary only while the target is in recovery; a run that fences by itself loses no commit |
| PostgreSQLSwitchoverProgress.SwitchoverProgressIsPrefix | adapters/postgresql/operations.go:324-349 | over all runs the recorded steps are a prefix of the plan, and the whole plan once a run completed |
| PostgreSQLSwitchoverOutcome.PreCommitIsAllOrNothing | adapters/postgresql/execution.go:467-529 | a `pre_commit` run moved nothing or, once past reading its fence progress, restored a writable primary with its standby; it leaves an obtained lease exactly when it gave up before recording it |
| PostgreSQLSwitchoverOutcome.CompletedMeansSwitched | adapters/postgresql/execution.go:601-692 | a completed run leaves the target a writable primary owning the endpoint, the former source and every follower its standbys, the lease finalized, every step recorded |
| PostgreSQLSwitchoverCourse.CallsAreInOrder | adapters/postgresql/execution.go:435-693 | over all runs no call is made before the calls it depends on have succeeded in the same run; nothing is done before the lease was obtained and recorded in it; a transfer is verified before anything else happens |
| PostgreSQLSwitchoverCourse.FailureIsClassified | adapters/postgresql/execution.go:480-619 | over all runs a failing run reports the class of the call that ended it; a run that gives up while fencing, or with the source proven stopped and the target not promoted, has tried to undo it, and reports `pre_commit` exactly when every call of that succeeded, with a writable primary, its standby and no lease |
| PostgreSQLSwitchoverCourse.EveryRunEnds | adapters/postgresql/execution.go:435-693 | over all runs every answer, good or bad, brings the run closer to its end, clean-ups included, so a run makes boundedly many calls |
| PostgreSQLSwitchoverLiveness.CanFinishIff | adapters/postgresql/execution.go:435-693 | in every reachable state between runs the switchover can still be finished if and only if every mutating step is recorded, or the live precheck holds and no stop of the source is recorded |
| PostgreSQLSwitchoverLiveness.EndpointIsReconciled | adapters/postgresql/execution.go:446-464 | when everything is recorded and only the endpoint is elsewhere, a run without further failures brings it back and gives its lease up |
| PostgreSQLSwitchoverLiveness.InterruptedStaysInterrupted | adapters/postgresql/execution.go:467-469 | whenever the live precheck fails with a mutating step missing, every further run fails without changing a server or recording a step |
| PostgreSQLSwitchoverLiveness.PromotionWindow | adapters/postgresql/execution.go:606-611 | from every healthy start a run can die with the target promoted and no promotion recorded, and the operation is then blocked |
| PostgreSQLSwitchoverLiveness.RolledBackNeverPromotes | adapters/postgresql/execution.go:561-584 | a recorded stop with a running source means no later run stops the source, promotes the target or finishes |
| PostgreSQLSwitchoverLiveness.RollbackWindow | adapters/postgresql/execution.go:500-529 | from every healthy start a run can roll back cleanly after stopping the source, reporting `pre_commit` with its lease aborted and a healthy cluster, and the operation is then blocked |
| PostgreSQLSwitchoverLoss.NextRunCanLoseIff | adapters/postgresql/execution.go:531-559 | in every reachable healthy state the next run can lose a commit if and only if the fence is recorded, the source is no longer fenced, and no stop is recorded |
| PostgreSQLSwitchoverLoss.TwoRunsCanLose | adapters/postgresql/execution.go:480-556 | from every healthy start a first run can report `pre_commit` with its lease aborted and the source writable again, and the run launched after it can lose a commit |
| PostgreSQLSwitchoverLoss.LeaseCanBeLeft | adapters/postgresql/execution.go:359-379 | from every healthy start a run can report `pre_commit` with its lease still held |
| PostgreSQLFailoverSafety.FailoverIsSafe | adapters/postgresql/execution.go:695-853 | over all runs a running target outside recovery implies an isolated old primary |
| PostgreSQLFailoverSafety.FailoverProgressIsPrefix | adapters/postgresql/operations.go:440-459 | over all runs the recorded steps are a prefix of the plan |
| PostgreSQLFailoverSafety.CompletedMeansFailedOver | adapters/postgresql/execution.go:695-853 | a completed run leaves the old primary isolated, the target a writable primary owning the endpoint, every follower on it, the lease finalized, every step recorded |
| PostgreSQLFailoverCourse.CallsAreInOrder | adapters/postgresql/execution.go:695-853 | over all runs no call is made before the calls it depends on have succeeded in the same run; nothing is done to the target before isolation was proven and the lease obtained and recorded in that run |
| PostgreSQLFailoverCourse.FailureIsClassified | adapters/postgresql/execution.go:695-853 | over all runs a run with a failed call never completes, and a failing run reports the class of the call that ended it; `pre_commit` and `fence_unknown` leave the target and the followers as they were; a run that fails before publishing keeps its lease |
| PostgreSQLFailoverCourse.EveryRunEnds | adapters/postgresql/execution.go:695-853 | over all runs every answer, good or bad, brings the run closer to its end, clean-ups included, so a run makes boundedly many calls |
| PostgreSQLFailoverLiveness.CanFinishIff | adapters/postgresql/execution.go:695-853 | in every reachable state between runs the failover can still be finished if and only if the promotion is recorded or the target is a running standby |
| PostgreSQLFailoverLiveness.EndpointIsReconciled | adapters/postgresql/execution.go:707-729 | when everything is recorded and only the endpoint is elsewhere, a run without further failures brings it back and gives its lease up, after proving the isolation again |
| PostgreSQLFailoverLiveness.StrandedTargetBlocks | adapters/postgresql/execution.go:736-747 | in any other state between runs every further run fails, records nothing and leaves the target as it is |
| PostgreSQLFailoverLiveness.PromotionWindow | adapters/postgresql/execution.go:791-796 | from every start with a running standby a run can die with the target promoted and no promotion recorded, and the operation is then blocked |
| PostgreSQLTopology.CountSenders | adapters/postgresql/topology.go:183-195 | the loop answers whether exactly one sender serves the standby and streams from a valid position |
| PostgreSQLTopology.FindSource | adapters/postgresql/topology.go:100-125 | the search finds a confirming primary exactly when there is one, and reports ambiguity exactly when two confirming primaries differ |
| PostgreSQLTopology.Resolve | adapters/postgresql/topology.go:47-138 | the three loops over the array equal the pure resolution of the original observations |
| PostgreSQLTopology.OrderDoesNotMatter | adapters/postgresql/topology.go:47-138 | the result for an observation depends on the set of observations only |
| PostgreSQLTopology.ResolutionIsIdempotent | adapters/postgresql/topology.go:47-138 | resolving the resolved observations changes nothing |
| PostgreSQLTopology.EligibleMeansConfirmed | adapters/postgresql/topology.go:77-137 | an eligible standby has one link, to the single observed primary, confirmed at both ends and not shared |
| PostgreSQLTopology.EligibleExactly | adapters/postgresql/topology.go:77-195 | condition by condition which standby is eligible, healthy and linked; every other one is degraded without upstream and links, and nobody else gets a link |
| PostgreSQLTopology.SharedMeansClash | adapters/postgresql/topology.go:64-76 | an identity is shared exactly when two observations report it from different hosts or ports |
| PostgreSQLTopology.SharedIsNeverTrusted | adapters/postgresql/topology.go:62-76 | an identity shared by distinct endpoints is never eligible and never the source of a link |
| PostgreSQLTopology.NeverAmbiguous | adapters/postgresql/topology.go:117-125 | the ambiguity branch is never taken: two confirming primaries carry one identity |
| AgentLedger.AtMostOnce | internal/agent/mutation_ledger.go:144-194 | a command other than a VIP command is entered at most once per key, over all interleavings of processes, kills and power losses |
| AgentReceipts.ReceiptMovesForward | internal/agent/mutation_ledger.go:215-271 | while power lasts a receipt moves from absent over started to completed, and a completed one never changes, unless an older agent left a completed VIP receipt |
| AgentReceipts.ReplayIsGenuine | internal/agent/mutation_ledger.go:83-131 | a replayed answer was stored before for the replaying intent, or is the answer of an execution of the same intent, lease included except for VIP commands |
| AgentReceipts.AnswerIsStored | internal/agent/protocol.go:815-823 | the answer of the executing process is durable before it is given |
| AgentReceipts.VipReplayIsTrue | internal/agent/protocol.go:514-530 | over all interleavings a process that replayed a successful VIP answer had itself observed the ownership the command wants |
| AgentReceipts.NoAnswerAfterFailure | internal/agent/mutation_ledger.go:144-271 | over all interleavings no process answers, executes or publishes after one of its own operations failed |
| AgentReceipts.ReceiptChangesIffLegacy | internal/agent/mutation_ledger.go:236-246 | a completed receipt can change if and only if an older agent left a completed successful VIP receipt |
| AgentRequests.FirstRequestExecutes | internal/agent/mutation_ledger.go:144-213 | without a receipt and without failures the command is executed exactly once and answered after its receipt was stored durably |
| AgentRequests.LaterRequestReplays | internal/agent/protocol.go:500-535 | a request that finds a receipt gets the stored answer exactly when the receipt is completed and matches; a successful VIP command whose effect has drifted is executed exactly once more; any other request is refused; the receipt stays |
| AgentRequests.SecondRequestReplays | internal/agent/mutation_ledger.go:83-131 | the same request twice is executed once and answered twice alike |
| AgentRequests.MatchesExactly | internal/agent/mutation_ledger.go:83-131 | which requests a receipt belongs to: equal fields, and equal leases unless a current agent recorded a VIP command; an older finished VIP success matches all |
| AgentRequests.FailedWriteLeavesNothing | internal/agent/mutation_ledger.go:156-166 | a receipt that could not be written and was removed leaves no trace, so the next request is a first one |
| AgentRequests.EnteringCounts | internal/agent/protocol.go:532-535 | every entry of the command switch is counted, early returns included, and nothing else |
| AgentReconciler.Reconciler.Reconcile | internal/agent/reconciler.go:99-156 | success means the state the decision demands and that no call of the cycle failed; any error means a VIP release after any acquire; every acquire follows a proof of writability; a successful transition cycle keeps roles and takes the VIP only from a closed target; a cycle without faults ends with exactly the node and error of `Reached` |
| AgentReconciler.Reconciler.ConvergeSelfIsolation | internal/agent/reconciler.go:48-92 | success means the VIP is gone and the node closed; the VIP is released in any case; without faults the node ends closed, and a PostgreSQL service in an unknown state is stopped unless its standby intent is on disk |
| AgentReconciler.Reconciler.ReconcileRecovery | internal/agent/reconciler.go:158-226 | recovery decisions succeed only with access closed and the VIP away, or with a proven writer and the VIP |
| AgentReconciler.Reconciler.ReconcilePostgreSQL | internal/agent/reconciler.go:275-331 | a PostgreSQL node keeps or takes the VIP only as a proven running primary; a standby target loses it |
| AgentReconciler.Reconciler.Bootstrap | internal/agent/reconciler.go:369-426 | a rebooted primary is exposed only once proven open; without faults a fully closed one is opened and exposed, an open one must own the VIP, any other is closed |
| AgentReconciler.Reconciler.ConvergeWritableRestartState | internal/agent/reconciler.go:242-273 | success means no isolation intent and a writable database, whatever the restart fence says |
| AgentReconciler.Reconciler.KeepCycles | internal/agent/reconciler.go:131-155 | without faults, after one keep cycle any number of further cycles succeeds and none of their calls changes a role or moves the VIP, with a durable role controller or without |
| AgentReconciler.SuccessIsStable | internal/agent/reconciler.go:99-156 | for every decision a successful cycle without faults leaves nothing to change for the next one |
| AgentReconciler.BootstrapComesBack | internal/agent/reconciler.go:369-426 | a rebooted MySQL primary comes back after two cycles without faults at the latest, after one if it is fully closed |
| AgentReconciler.SoundMeans | internal/agent/reconciler.go:131-155 | every acquire comes after a read proving the node writable, with no role change in between |
| AgentReconciler.ReleasedMeans | internal/agent/reconciler.go:94-97 | a released cycle contains a release after which there is no acquire |
| AgentPermits.DecisionClient.Decision | internal/agent/reconcile_client.go:107-186 | the first response that verifies when it is looked at is returned; the cache is used only when every failure was one of availability; a decision is signed, in scope, unexpired and expires within a minute, field by field |
| AgentPermits.DecisionClient.Accept | internal/agent/reconcile_cache.go:48-94 | a cached permit runs out at most one minute after the last verified response, ten seconds for recovery |
| AgentPermits.PickIsVerified | internal/agent/reconcile_protocol.go:127-156 | a chosen permit was sent by a controller and verified at the last clock reading |
| AgentPermits.PickIsFirst | internal/agent/reconcile_client.go:107-176 | the first verifying response is picked, and nothing exactly when none verifies |
| AgentPermits.VerifiedMeansCarries | internal/agent/reconcile_protocol.go:127-156 | what verification demands of a permit, action by action: signature, scope, expiry, task and lease |
| AgentPermits.DecisionIsThePermit | internal/agent/reconcile_client.go:107-186 | the reconciler is told exactly what the permit says |
| AgentPermits.OutageCycle | internal/agent/reconciler.go:103-106 | with no response verifiable from now on, though a replayed permit may have been before, a cycle that starts once the cached permit ran out, or a minute after the last verified response, ends in self-isolation |
| AgentPermits.Outage | internal/agent/reconcile_client.go:178-186 | the same for every cycle of an outage of any length |
| BaseBackup.OriginalIsConserved | internal/agent/postgresql.go:463-549 | over all attempts and crashes the original data is whole in the data directory or a quarantine until some attempt verified its copy |
| BaseBackup.OriginalGivenUpOnlyVerified | internal/agent/postgresql.go:543-547 | only the final removal by an ordinary attempt that moved the original itself and verified its copy can give it up |
| BaseBackup.AttemptKeepsItsPromise | internal/agent/postgresql.go:441-461 | before verification the data an attempt found is whole, success leaves a verified copy and the archive, a report of restored data is true |
| BaseBackupCourse.AttemptIsOrderly | internal/agent/postgresql.go:463-549 | over all attempts operations succeed in order, an attempt with a failed operation reports a failure, a failure before the swap leaves the data and drops the stage, and after a failed start or verification restored data is reported exactly when every clean-up operation succeeded |
| BaseBackupCourse.AttemptSucceeds | internal/agent/postgresql.go:463-549 | an attempt without failures replaces the data by its copy and keeps the old data exactly under an archive name |
| BinlogChain.IncrementalAvailable | adapters/mysql/disaster_binlog.go:113-168 | true exactly for a complete chain of readable logs; false only for a lost log or an unsafe first boundary |
| BinlogChain.CompleteIsSound | adapters/mysql/disaster_binlog.go:113-168 | with a complete chain every transaction the replica lacks is held by a listed log |
| BinlogChain.CompleteMeans | adapters/mysql/disaster_binlog.go:133-168 | a complete chain, transaction by transaction |
| BinlogChain.DistinctIsExact | adapters/mysql/disaster_binlog.go:124-132 | skipping duplicates loses no log and keeps none twice |
| Gtid.Normalize | pkg/gtid/gtid.go:195-218 | normalization keeps the set and leaves sorted, disjoint, non-adjacent intervals |
| Gtid.Count | pkg/gtid/gtid.go:242-252 | counting a normal list never overflows and gives the size of its set |
| Gtid.WalkIsOverlap | pkg/gtid/gtid.go:254-281 | the two-pointer walk computes the size of the intersection |
| Gtid.Overlap | pkg/gtid/gtid.go:254-281 | the loop never overflows and returns the size of the intersection |
| Gtid.Difference | pkg/gtid/gtid.go:220-240 | in any iteration order the loop returns the exact size of the set difference, or fails when it does not fit |
| Gtid.Compare | pkg/gtid/gtid.go:69-85 | the comparison succeeds exactly when both sets are countable, and its counts are the sizes of the two differences |
| Gtid.HasOnlyAdditionsFromSource | pkg/gtid/gtid.go:129-148 | the loop over counts and overlaps answers true exactly when the owner is well-formed and every transaction the candidate has beyond the baseline belongs to it |
| Gtid.LikelySamplingSkew | pkg/gtid/gtid.go:116-127 | true exactly when the candidate lacks nothing and is ahead only with transactions of the primary; no answer for sets too large to count |
| Gtid.AssessRecovery | pkg/gtid/gtid.go:91-114 | a rejoin is called safe exactly when the former primary has nothing of its own and every transaction it lacks is still available in a log; purged history outside the executed one is refused |

## Left out

- The executors are value-level state machines and not classes updated in place, because every proof is about interleavings of answers, crashes and runs; aliasing plays no role in them.
- Plan digests, plan validation, observation tokens and revisions: flat equality checks before the first call.
- The sorted follower list is an input of the executor models; that the plan and the executor sort alike is not modelled.
- Thread states, lag, versions, log settings and identity texts in live probes are part of the answer to a probe; flags, replication sources and GTID sets are modelled.
- GTID sets of followers are not modelled: the live precheck also rejects a follower with a transaction the source lacks (adapters/mysql/switchover.go:788-799), which here is a failing answer to the probe of that follower.
- Semi-sync activation is one call that makes the acknowledgement active.
- Endpoint providers, lease issuing, quorum and the operation engine appear as answers and as the lease and endpoint flags; the endpoint does not move by itself during an operation.
- Writes by administrators that bypass `read_only`, and clients that override `default_transaction_read_only`, are not modelled.
- Commands that take effect after their failure was reported are not modelled: a lost command is lost.
- The switch of `Handle` is one step that answers or returns early; the commands themselves and the extra recovery checks on replay are not modelled, so a replay in the model may be blocked in the code.
- Receipt keys are modelled one at a time: other keys only appear as directory syncs.
- The candidate model takes probe bindings, coverage and release families as given flags; the message text of a check is not modelled.
- AgentReceipts.ReplayIsGenuine: excludes a key whose receipt an older agent left as a completed VIP success; such a receipt is replayed by key alone, and `ReceiptChangesIffLegacy` shows what else can happen to it.
- AgentReceipts.ReceiptMovesForward: power loss can take an unsynced receipt back to its last synced form, so the statement is about steps while power lasts.
- MySQLCandidates.EvaluateAll: instances have distinct identifiers, as the inventory guarantees; with repeated identifiers the order of equal ones would depend on the sort.
- PostgreSQLTopology.Resolve: a native identity is its key and its system identifier; further identity fields, message texts and lag are not modelled.
- Host names are canonical values, so address parsing and case folding are not modelled.
- The failover verification and the PostgreSQL verifications: they repeat the switchover verification with other checks.
- Oracle and SQL Server adapters, the Docker controller, the CLI, HTTP and TLS clients, metrics, configuration and the console.
