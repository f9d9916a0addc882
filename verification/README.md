# A verified model of the durable workflow engine

A workflow run is a compiled graph of nodes driven by a fenced Master over a
transactional store. This project models the store's tables for one run within its
session (run row, node runs, tasks, ChangeSets, approvals, privilege requests, grants,
leases, event log, session HEAD) and every repository step as one transaction over them,
and proves what the repositories promise together: the scheduler computes the meaning of
the graph whatever order nodes finish in, the event log replays to the rows, approvals,
grants and waiting nodes agree, cancellation and merging are linearised, fencing tokens
order their holders. Beside the tables stand the parts with a state of their own: the
evidence chain, commit reconciliation of captures, artifact files, event paging,
idempotency keys and the timestamp text.

## How it is built

- `Records`, `Leases`, `WorkflowRuns`, `Approvals`, `ChangeSets` give each step as a function
  from tables to tables or a fault; a fault means the transaction was rolled back.
- `Database` holds the tables in an object with guarded updates; `RunRepository`,
  `ApprovalRepository`, `ChangeSetRepository` and `LeaseRepository` change it in place, in the
  order the source does, and each method is proved to do exactly what its step function says.
- `Actions` makes one transition relation of all steps. `Audit`, `RunInvariant`, `RunInvariantOfApprovals`,
  `Agreement`, `AgreementOnDecisions` and `AgreementOnWithdrawal` prove the invariant step by step;
  `Invariance.RunSound` is the invariant after any sequence of steps from a freshly created run.
- `RunOutcomes` and `ApprovalOutcomes` say of every step, in rows and events alone, which check refuses it
  and what it writes; `Effects`, `History`, `Timelines`, `Waiting`, `Guarantees` and `Confluence` state what follows;
  `Witnesses` gives runs from creation to where a condition on callers is needed.
- `Graphs`, `Scheduling` and `Meaning` treat the topological order, the reconcile loop and the
  evaluation of a graph; `Clock`, `EventLog`, `Idempotency`, `Artifacts`, `Capture` and `Evidence`
  stand alone.

## Assumptions

- The compiler delivers unique node ids, known edge endpoints, no cycle and one output node.
- A lookup by node id over several rows finds the latest attempt; the output row is the first
  attempt. Queries without an order may return rows in any order (the order is a parameter).
- A node run has at most one task and a task at most one ChangeSet (both are unique columns), so
  tasks and ChangeSets are keyed by node run; a request has at most one grant, so grants are keyed by
  request. The task named by a privilege request is its node run's task.
- Ids and hashes are injective. Operation ids of tasks, node runs and recoveries differ. Each capture
  attempt has a timestamp of its own.
- A session has one active run (a unique index), so another run of it moves the HEAD only after this
  run has completed, failed or been cancelled.
- Callers: `transition` is used for the guard, test, policy and staleness edges; a node that asks for
  a privilege names the approval of its own request; a new request is not created already granted.
  `Guarantees.LostWakeUp` and `Guarantees.NewRequestLedger` say exactly what the last two are needed for,
  `Witnesses` gives runs in which they fail. That a caller looks whether the approval is still pending
  before it parks a node is assumed only where it is said.

Where code and schema meet: `renew_changeset` does not itself look for another pending approval, but
the unique index on pending ChangeSet approvals refuses its insert, so the model refuses it too. A
`decide` that comes late marks the approval expired and then raises; the mark is rolled back with it.
The sequence of texts produced by `utc_now_text` is in time order only from the year 1000 on
(`Clock.TextOrderBreaks` says where it breaks); the schema admits only the 27-character texts for which it is
(`Clock.TextOrder`).

## Model

| member | source | states |
|---|---|---|
| `Graphs.TopologicalOrder` | storage/workflow_run_repository.py:2883-2900 | succeeds exactly when the graph has a topological order; then lists every node once with every edge forward, and the list is a function of the set of ids and the set of edges alone |
| `Graphs.OrderCoversIffAcyclic` | storage/workflow_run_repository.py:2898-2900 | the queue walk reaches all ids if and only if some topological order exists |
| `Graphs.OrderIsByRelease` | storage/workflow_run_repository.py:2883-2900 | the order is the one, and the only one, in which every edge points forward, nodes stand by the moment their last predecessor was listed, and those released together by id |
| `Scheduling.LoopEqualsSweep` | storage/workflow_run_repository.py:2635-2693 | the loop that decides from rows read once per pass leaves the rows of a single topological sweep over always-fresh rows |
| `Scheduling.ClosedUnique` | storage/workflow_run_repository.py:2635-2693 | the rows after reconciliation are the only solution of one equation, however decisions spread over passes |
| `Scheduling.PassShrinks` | storage/workflow_run_repository.py:2642-2693 | a pass that decides anything strictly reduces the pending rows, so the loop ends |
| `Scheduling.NothingStuck` | storage/workflow_run_repository.py:2642-2693 | if a pass would change nothing and nothing is under way, every node is terminal |
| `RunOutcomes.ReconciledRow` | storage/workflow_run_repository.py:2642-2693 | after reconciling, a pending node is ready if it is an input, still pending while a source has not ended, and else ready exactly when some incoming edge and its source's outcome are one of seven written-out pairs and the source was neither skipped nor superseded, otherwise skipped |
| `Scheduling.EdgeTable` | storage/workflow_run_repository.py:2865-2880 | an edge is satisfied exactly by the seven condition and outcome pairs |
| `RunOutcomes.ReconciledStatus` | storage/workflow_run_repository.py:2695-2718 | the run ends exactly when every row is terminal: completed by its output row, else blocked by any guard, else failed |
| `RunOutcomes.PassTells` | storage/workflow_run_repository.py:2670-2693 | a pass tells one event for every decision, in the order of the graph, and nothing else |
| `RunOutcomes.LatestIsLast` | storage/workflow_run_repository.py:2636-2640 | the row looked up for a node is that of its highest attempt |
| `RunOutcomes.NodeEndings` | storage/workflow_run_repository.py:56-66 | the seven statuses in which a node run has ended |
| `RunOutcomes.RunEndings` | storage/workflow_run_repository.py:67-75 | the five statuses in which a run has ended |
| `RunOutcomes.WriteNodes` | storage/workflow_run_repository.py:691-701 | the write nodes are exactly the agent tasks compiled to write |
| `RunRepository.WorkflowRunRepository.Wanted` | storage/workflow_run_repository.py:2648-2669 | the edge loop with its early stop gives the decision of the declarative rule |
| `RunRepository.WorkflowRunRepository.PassOnce` | storage/workflow_run_repository.py:2635-2693 | one pass writes every decision taken from the rows it read, and no compare-and-swap is lost |
| `RunRepository.WorkflowRunRepository.ReconcileIn` | storage/workflow_run_repository.py:2622-2746 | the loop of passes and the terminal transition do what the reconcile function says |
| `RunRepository.WorkflowRunRepository.StartAndReconcile` | storage/workflow_run_repository.py:463-499 | starts a pending run or refuses, then reconciles; a fault leaves everything as it was |
| `RunOutcomes.StartOutcome` | storage/workflow_run_repository.py:463-499 | which check refuses a start and with which fault; else a pending run is moved and told as running, and a running one reconciled |
| `RunRepository.WorkflowRunRepository.ClaimNext` | storage/workflow_run_repository.py:501-556 | claims the first ready node in topological order, or nothing |
| `Effects.ClaimsFirst` | storage/workflow_run_repository.py:520-529 | the claimed node is ready and no earlier one is; none is claimed only if none is ready |
| `RunOutcomes.ClaimOutcome` | storage/workflow_run_repository.py:501-556 | a claim needs only the lease; it writes exactly the claimed row and its event, or nothing |
| `RunRepository.WorkflowRunRepository.CompleteNode` | storage/workflow_run_repository.py:558-828 | ends a running node of a running run with a legal status and outcome, under the write-node checks; a write node with a task ends completed exactly when its task succeeded and its ChangeSet is captured, and never while the task is unfinished; whatever the kind of node, the row is exactly the verdict and the newest event says so |
| `RunOutcomes.CompleteOutcome` | storage/workflow_run_repository.py:558-828 | the checks of a completion in their order with their faults, and the whole state after an accepted one |
| `RunOutcomes.LegalVerdicts` | storage/workflow_run_repository.py:570-589 | the seven status and outcome pairs a handler may report |
| `RunOutcomes.NewestTaskEvent` | storage/workflow_run_repository.py:736-748 | the task event the window check reads is the task's last one in the log |
| `RunRepository.WorkflowRunRepository.CreateTask` | storage/workflow_run_repository.py:830-885 | inserts a pending task for a running node on the run's current commit, once |
| `RunOutcomes.CreateTaskOutcome` | storage/workflow_run_repository.py:830-885 | checks with their faults; one pending task without a grant, and its event |
| `RunRepository.WorkflowRunRepository.CreateAndStartTask` | storage/workflow_run_repository.py:887-1043 | creates and starts a task, or starts a prepared retry task: one running task on the run's current commit, a prepared grant kept, creation (if new) and start logged in order |
| `RunOutcomes.StartTaskOutcome` | storage/workflow_run_repository.py:887-1043 | checks with their faults; the started row keeps base and grant; one or two events, in order |
| `RunRepository.WorkflowRunRepository.FinishTask` | storage/workflow_run_repository.py:1233-1386 | ends a running task; a write task only while it holds the workspace lock, whose token its newest event carries, and successful exactly with a captured ChangeSet |
| `RunOutcomes.FinishTaskOutcome` | storage/workflow_run_repository.py:1233-1386 | checks with their faults; the task's status and one event under the lease's token, nothing else |
| `Effects.FinishThenComplete` | storage/workflow_run_repository.py:701-790 | right after a write task ended, the Master can complete its node exactly with a verdict that agrees with how it ended, and its row is then that verdict |
| `RunRepository.WorkflowRunRepository.EnterWaitingApproval` | storage/workflow_run_repository.py:1388-1472 | waits together with the run, or resumes at once on an approval already decided |
| `RunOutcomes.EnterOutcome` | storage/workflow_run_repository.py:1388-1472 | checks with their faults; node and run wait together with two events, or the gate resumes on a decided approval |
| `Effects.GateWaits` | storage/workflow_run_repository.py:1388-1472 | a gate waits exactly on an approval not yet decided; on a decided one it goes on at once, rejected if the approval was |
| `RunRepository.WorkflowRunRepository.ResumeAfterApprovalIn` | storage/workflow_run_repository.py:1563-1687 | resumes a waiting gate or a gate that decided before it waited; rejection reconciles |
| `RunOutcomes.ResumeOutcome` | storage/workflow_run_repository.py:1563-1687 | checks with their faults; what a waiting and what a running gate's row, run and events become, approved or rejected |
| `RunRepository.WorkflowRunRepository.PreparePrivilegeRetry` | storage/workflow_run_repository.py:1111-1231 | parks task, node and run together on the named approval under the source task's workspace lease; only a first attempt can be parked |
| `RunOutcomes.PrepareOutcome` | storage/workflow_run_repository.py:1111-1231 | checks with their faults, the two-attempt limit among them; task, node, run and events of the parked attempt |
| `RunRepository.WorkflowRunRepository.ApprovePrivilegeIn` | storage/workflow_run_repository.py:1736-1819 | adds the sole retry attempt and its task and supersedes the source |
| `RunOutcomes.ApproveOutcome` | storage/workflow_run_repository.py:1736-1819 | checks with their faults; both attempts' rows, both tasks and the two events |
| `RunRepository.WorkflowRunRepository.RejectPrivilegeIn` | storage/workflow_run_repository.py:1821-1994 | the rejection branch: source task failed, node completed as rejected, run resumed and reconciled |
| `RunOutcomes.RejectOutcome` | storage/workflow_run_repository.py:1821-1994 | checks with their faults; the ended attempt and its failed task, a prepared retry dropped with its task, the events in order, then reconciliation |
| `RunRepository.WorkflowRunRepository.ActivateCapabilityTargetIn` | storage/workflow_run_repository.py:1996-2058 | readies a pending retry and resumes the run |
| `RunOutcomes.ActivateOutcome` | storage/workflow_run_repository.py:1996-2058 | checks with their faults; the readied row, the run woken if it waited, and their events |
| `RunRepository.WorkflowRunRepository.BeginMergeFinalizing` | storage/workflow_run_repository.py:1689-1734 | marks the run as finalizing under the merge node's own workspace lease: afterwards the mark is set and nothing else has changed |
| `RunOutcomes.BeginMergeOutcome` | storage/workflow_run_repository.py:1689-1734 | checks with their faults; the mark and only the mark |
| `ApprovalOutcomes.MergeShutsOutCancel` | storage/workflow_run_repository.py:1689-1734 | after an accepted begin no cancel goes through, and the merge under the same leases goes through exactly if HEAD is still the run's commit and the ChangeSet approved |
| `RunRepository.WorkflowRunRepository.ClearMergeFinalizing` | storage/workflow_run_repository.py:2060-2101 | clears the mark under a merge or recovery lease of this run: afterwards it is clear and nothing else has changed |
| `RunOutcomes.ClearMergeOutcome` | storage/workflow_run_repository.py:2060-2101 | checks with their faults; the mark and only the mark |
| `ApprovalOutcomes.ClearedMergeCancels` | storage/workflow_run_repository.py:2060-2101 | after the mark is cleared a cancel under a valid lease goes through |
| `RunRepository.WorkflowRunRepository.FinalizeMerge` | storage/workflow_run_repository.py:2103-2217 | moves HEAD, run commit, ChangeSet and node together, or rolls all of it back |
| `RunOutcomes.FinalizeOutcome` | storage/workflow_run_repository.py:2103-2217 | checks with their faults; HEAD, commit, mark, ChangeSet, node and event of a merge, then reconciliation |
| `RunRepository.WorkflowRunRepository.MarkOrphaned` | storage/workflow_run_repository.py:2551-2620 | quarantines uncertain nodes and the run, in any fetch order |
| `RunOutcomes.OrphanOutcome` | storage/workflow_run_repository.py:2551-2620 | only the lease is checked; every row afterwards |
| `RunOutcomes.OrphanTells` | storage/workflow_run_repository.py:2583-2606 | one event for every quarantined node, in fetch order |
| `RunRepository.WorkflowRunRepository.CancelNodesIn` | storage/workflow_run_repository.py:2473-2549 | cancels every active node and its unfinished task with one event each |
| `RunOutcomes.CancelNodesRows` | storage/workflow_run_repository.py:2473-2549 | exactly the given nodes are cancelled; of their tasks the pending, running and privilege-requested ones are, every other task keeps its status, and no base or grant changes |
| `RunOutcomes.CancelTells` | storage/workflow_run_repository.py:2516-2549 | one event for every cancelled node, in fetch order, and none for its task |
| `Effects.MergeCompletes` | storage/workflow_run_repository.py:2186-2210 | a finalized merge leaves its node completed with success |
| `ApprovalOutcomes.CancelEnds` | storage/workflow_run_repository.py:2383-2549 | what cancelling an open run makes of every row: run, nodes, tasks (unfinished tasks of open nodes cancelled, all others kept), approvals, ChangeSets, requests, grants and grant pointers |
| `Effects.OrphanQuarantines` | storage/workflow_run_repository.py:2551-2620 | exactly the running and waiting nodes asked for become orphaned, and so does the run |
| `Meaning.MeaningExists` | storage/workflow_run_repository.py:2648-2669 | direct recursive evaluation in topological order satisfies the evaluation equation |
| `Meaning.MeaningUnique` | storage/workflow_run_repository.py:2648-2669 | fixed answers give an acyclic graph one meaning |
| `Meaning.SettlingFollows` | storage/workflow_run_repository.py:2635-2693 | reconciling keeps every row on the way to the meaning |
| `Meaning.DoneIsMeaning` | storage/workflow_run_repository.py:2695-2718 | once all rows are terminal they are the meaning, and so is the run status |
| `Actions.NewRunCreated` | storage/workflow_run_repository.py:325-398 | a compiled graph yields a created run, with every node pending and the creation event numbered one |
| `Guarantees.CanProceed` | storage/workflow_run_repository.py:501-828 | a ready node makes claiming succeed and start one; a running node that is not a write node can be completed with any legal answer, a running write node exactly when its task has ended, its ChangeSet agrees and the lock still carries the token the task ended under; an accepted completion leaves exactly the verdict |
| `Confluence.FinishedIsMeaning` | storage/workflow_run_repository.py:463-828 | a finished run without cancel, orphaning, retry or an expiry that ends a node has given every node its evaluated status and outcome, and the run the status they imply, over every interleaving of steps |
| `Confluence.Confluent` | storage/workflow_run_repository.py:463-828 | two finished runs with the same answers agree on every node and on the run |
| `Guarantees.NoDeadlock` | storage/workflow_run_repository.py:463-499 | start_and_reconcile leaves the run running only with some node ready or running; otherwise all nodes are terminal and the run has the status they imply |
| `Guarantees.ThreeMoves` | storage/workflow_run_repository.py:2778-2816 | a node run that never waits changes status at most three times in any run |
| `Guarantees.RetryShape` | storage/workflow_run_repository.py:1045-1109 | each node has one row, or a superseded first and a second past pending; never a third |
| `Invariance.StepSound` | storage/db.py:180-192 | every step, committed or rolled back, keeps the whole invariant |
| `Invariance.RunSound` | storage/db.py:180-192 | the invariant holds after any sequence of steps from creation |
| `Guarantees.LogReplays` | storage/event_repository.py:200-233 | after any run the log replays to every node run's status and outcome, the run's status and every approval's status and version; numbers are 1..n, Master tokens never fall |
| `Guarantees.WaitingAgrees` | storage/workflow_run_repository.py:1388-1472 | a waiting run has one waiting node, others none unless orphaned; no node waits on a decided approval; and with callers that look at the approval first, every wait for a privilege, in every run, is on a pending approval of a request that asks |
| `Guarantees.LostWakeUp` | storage/workflow_run_repository.py:1111-1231 | preparing a retry reads neither approval nor request: the wait is attended exactly when the named approval is a pending one of the node's own request, and stranded exactly when the node has no pending approval |
| `Witnesses.ExpiredBeforeWait` | storage/workflow_run_repository.py:1111-1231 | a run from creation in which the approval expires before its node is parked on it: the wait is stranded |
| `Witnesses.DecidedBeforeWait` | storage/workflow_run_repository.py:1111-1231 | a run from creation after which parking a node on another node's refused approval waits for a decision already taken |
| `Waiting.WaitingStep` | storage/workflow_run_repository.py:1563-2058 | a waiting run goes on only by being cancelled or orphaned or because a pending approval belonged to the waiting node; every other step moves nothing and leaves attended waits attended |
| `Waiting.StrandedStays` | storage/workflow_run_repository.py:1111-1231 | a stranded wait lasts until the run is cancelled or orphaned or a new approval of the node is asked for |
| `Waiting.PrivilegeAnswered` | storage/approval_repository.py:740-821 | a timely decision on an attended wait always goes through and ends it: retry readied or attempt rejected, nothing waiting (privilege statements as intended, see Left out) |
| `Waiting.PrivilegeTimesOut` | storage/approval_repository.py:2088-2176 | expiry of an attended wait always goes through and ends the attempt rejected |
| `Waiting.GateAnswered` | storage/approval_repository.py:706-738 | a timely decision on a waiting gate's ChangeSet goes through exactly while the ChangeSet still awaits approval, and then ends the wait |
| `Guarantees.SingleDecision` | storage/approval_repository.py:578-828 | at most one approval of a ChangeSet is decided, now or at any earlier moment of the run; a merged one has exactly one approved approval, not L4; version one means pending |
| `Timelines.DecisionLasts` | storage/approval_repository.py:578-828 | over any later steps an approval that ended, by decision, expiry or invalidation, keeps its status and version |
| `Guarantees.DecideTwice` | storage/approval_repository.py:605-656 | repeating a successful decision with the same request succeeds and changes nothing |
| `Guarantees.GrantLedger` | storage/approval_repository.py:1407-1698 | requests, grants and task pointers agree after any run; every use was before grant and approval expired (privilege statements as intended, see Left out) |
| `Guarantees.UsedOnce` | storage/approval_repository.py:1551-1698 | a grant is used by the second attempt's running task under its valid workspace token, and never again |
| `Guarantees.NewRequestLedger` | storage/approval_repository.py:1011-1033 | a new request keeps the ledger exactly when it is not born approved or consumed |
| `Witnesses.BornGranted` | storage/approval_repository.py:1011-1033 | a run from creation after which recording a request as approved or consumed breaks the ledger |
| `AgreementOnWithdrawal.CreateGrantIdle` | storage/approval_repository.py:1248-1405 | on every reachable state the idempotent grant call changes nothing |
| `ApprovalRepository.ApprovalRepository.Create` | storage/approval_repository.py:408-576 | with an approval pending on its subject nothing changes; otherwise the new one is pending at version one, below L4, and its subject awaits it |
| `ApprovalOutcomes.FindOutcome` | storage/approval_repository.py:422-441 | a pending approval of the subject is returned if it binds the same subject and refused as a conflict if not |
| `ApprovalOutcomes.InsertOutcome` | storage/approval_repository.py:442-576 | checks with their faults; the inserted row, its subject's new status and the events |
| `ApprovalOutcomes.CreateApprovalOutcome` | storage/approval_repository.py:416-421 | what a new approval must be before anything is read |
| `ApprovalRepository.ApprovalRepository.RenewChangeSet` | storage/approval_repository.py:857-970 | replaces an expired ChangeSet approval of unchanged terms |
| `ApprovalOutcomes.RenewOutcome` | storage/approval_repository.py:857-970 | checks with their faults, and the one row and event written |
| `Effects.Renewed` | storage/approval_repository.py:857-970 | renewal replaces an expired approval on the same terms, leaves the ChangeSet alone, and the new approval is the only one pending on it |
| `ApprovalRepository.ApprovalRepository.CreatePrivilegeRequest` | storage/approval_repository.py:972-1052 | inserts a fenced request once |
| `ApprovalOutcomes.RequestOutcome` | storage/approval_repository.py:972-1052 | checks with their faults; a known request is returned untouched |
| `ApprovalRepository.ApprovalRepository.CreatePrivilegeRequestAndApproval` | storage/approval_repository.py:1054-1246 | request and approval commit together or not at all |
| `ApprovalOutcomes.RequestAndApprovalOutcome` | storage/approval_repository.py:1054-1246 | the request, then its approval; a fault of either is the fault of both |
| `ApprovalRepository.ApprovalRepository.CreateGrantIn` | storage/approval_repository.py:1248-1405 | the idempotent grant creation with its refusals |
| `ApprovalOutcomes.CreateGrantOutcome` | storage/approval_repository.py:1248-1405 | checks with their faults on any tables; what is bound and activated |
| `ApprovalRepository.ApprovalRepository.Decide` | storage/approval_repository.py:578-828 | decision, subject, retry, grant, resume and events in one transaction, in source order |
| `ApprovalOutcomes.DecideOutcome` | storage/approval_repository.py:657-828 | checks with their faults, then the subject's part, then every field of the decided row and its event |
| `ApprovalOutcomes.ReplayOutcome` | storage/approval_repository.py:605-656 | what a repeated key answers: the stored decision if it is this very one, a row decided before decisions were stored completed, else a refusal |
| `ApprovalOutcomes.DecideChangeSetOutcome` | storage/approval_repository.py:706-738 | the ChangeSet must await approval; its status, then its gate |
| `ApprovalOutcomes.ApproveRequestOutcome` | storage/approval_repository.py:740-806 | the request must ask; its row and event, then the retry, then the grant |
| `ApprovalOutcomes.RejectRequestOutcome` | storage/approval_repository.py:740-821 | the request must ask; its row and event, then the end of the attempt |
| `ApprovalRepository.ApprovalRepository.GrantRetryIn` | storage/approval_repository.py:1407-1549 | returns a grant already there for this very retry, refuses any other, or binds one grant to the pending retry task and activates it |
| `ApprovalOutcomes.GrantRetryOutcome` | storage/approval_repository.py:1407-1549 | the whole new grant, its expiry the earlier of the approval's and the limit, the retry's pointer and the event; or the earlier grant, or a refusal |
| `ApprovalRepository.ApprovalRepository.ExpireIn` | storage/approval_repository.py:2088-2176 | expires one approval and resumes a node waiting on its request |
| `ApprovalOutcomes.ExpireOutcome` | storage/approval_repository.py:2088-2176 | the row, its request if it asks, and the waiting node's end; refused if not pending |
| `ApprovalRepository.ApprovalRepository.ExpireDue` | storage/approval_repository.py:830-855 | expires all due approvals in fetch order, or none if one fails |
| `ApprovalOutcomes.ExpireDueOutcome` | storage/approval_repository.py:830-855 | only the lease is checked; exactly the pending rows that ran out are expired one by one |
| `Effects.NothingOverdue` | storage/approval_repository.py:830-855 | exactly the overdue pending approvals are expired, and no other approval is touched |
| `ApprovalRepository.ApprovalRepository.ConsumeGrant` | storage/approval_repository.py:1551-1698 | consumes a live grant with every guard of the source |
| `ApprovalOutcomes.ConsumeOutcome` | storage/approval_repository.py:1551-1698 | checks with their faults; grant, request, pointer and event |
| `ApprovalRepository.ApprovalRepository.InvalidateForRunIn` | storage/approval_repository.py:1873-1967 | invalidates pending approvals and withdraws their subjects in fetch order, then sweeps the run's ChangeSets |
| `ApprovalOutcomes.InvalidateOutcome` | storage/approval_repository.py:1896-1952 | one approval's subject, row and events |
| `ApprovalRepository.ApprovalRepository.RevokeUnconsumedForRunIn` | storage/approval_repository.py:1969-2051 | revokes live grants, denies their requests and clears pointers in fetch order |
| `ApprovalOutcomes.RevokeOutcome` | storage/approval_repository.py:1980-2051 | one grant's row, pointer, request and events |
| `ApprovalRepository.ApprovalRepository.CancelWithCleanup` | storage/workflow_run_repository.py:2383-2471 | cancellation and all it withdraws in one transaction, refused while a merge is finalizing |
| `ApprovalOutcomes.CancelOutcome` | storage/workflow_run_repository.py:2383-2471 | refused only for the lease or a merge being finalized; a run that ended otherwise is left as it is |
| `Effects.ChangeSetDecided` | storage/approval_repository.py:706-738 | approving readies the waiting gate, rejecting ends it rejected, and the ChangeSet says which |
| `Effects.PrivilegeApproved` | storage/approval_repository.py:759-806 | approving supersedes the attempt and readies a second whose task holds one live grant no longer than the approval and the time to live allow (privilege statements as intended, see Left out) |
| `Effects.PrivilegeRefused` | storage/approval_repository.py:740-821 | rejecting ends the waiting attempt rejected, leaves no node waiting and grants nothing (privilege statements as intended, see Left out) |
| `Effects.PrivilegeLapsed` | storage/approval_repository.py:2088-2176 | a lapsed privilege approval expires its request and ends a node that waits for it (privilege statements as intended, see Left out) |
| `AgreementOnWithdrawal.WithdrawnQuiet` | storage/approval_repository.py:1873-2051 | after withdrawal no approval is pending, no grant live, no ChangeSet awaits or holds approval |
| `Timelines.CancelledForGood` | storage/workflow_run_repository.py:2383-2549 | once cancelled a run and its nodes never change again, nothing in it can be approved, used or merged, and its steps never move the HEAD |
| `Timelines.CancelOrMerge` | storage/workflow_run_repository.py:1689-1734 | a cancel request and merge finalization are never both set |
| `History.HeadMovesByMerge` | storage/workflow_run_repository.py:2146-2185 | the HEAD moves only by a merge whose run commit equalled it, together with run and ChangeSet |
| `History.StepWalks` | storage/change_set_repository.py:58-99 | whatever step writes a ChangeSet takes an edge of the transition table; new ones are born captured or abandoned |
| `RunOutcomes.TransitionTable` | storage/change_set_repository.py:58-99 | the table, edge by edge |
| `ChangeSetRepository.ChangeSetRepository.PersistCapture` | storage/change_set_repository.py:296-352 | stores a ChangeSet and ends its task in one step, once per task, captured exactly if the task succeeded, under the token of the workspace lock that task holds |
| `RunOutcomes.CaptureOutcome` | storage/change_set_repository.py:296-352 | checks with their faults; ChangeSet, task and the two events in order |
| `Effects.CaptureThenComplete` | storage/workflow_run_repository.py:701-790 | right after a capture the Master can complete the node exactly with a verdict that agrees with how the task ended, and its row is then that verdict |
| `ChangeSetRepository.ChangeSetRepository.FinishTaskIn` | storage/change_set_repository.py:742-789 | ends the running write task with an event carrying the workspace token |
| `ChangeSetRepository.ChangeSetRepository.Transition` | storage/change_set_repository.py:476-555 | a fenced compare-and-swap along the transition table |
| `RunOutcomes.TransitionOutcome` | storage/change_set_repository.py:476-555 | checks with their faults; one status and one event |
| `LeaseRepository.MasterLeaseRepository.Acquire` | storage/leases.py:75-143 | gives the one lease that is valid from then on, exactly until now plus the span: a live owner's with its token, else the next token; refused exactly while another owner's lease is valid |
| `LeaseRepository.MasterLeaseRepository.Heartbeat` | storage/leases.py:145-179 | renews only a valid lease, and then it is valid exactly until now plus the span |
| `LeaseRepository.MasterLeaseRepository.Release` | storage/leases.py:181-202 | a released lease is not valid from then on |
| `LeaseRepository.WorkspaceLeaseRepository.Acquire` | storage/leases.py:252-356 | as for the Master, and a released lock is taken under the next token |
| `LeaseRepository.WorkspaceLeaseRepository.Heartbeat` | storage/leases.py:358-395 | renews only a valid, unreleased lease, and then it is valid exactly until now plus the span |
| `LeaseRepository.WorkspaceLeaseRepository.Release` | storage/leases.py:397-421 | a released lease is never valid again, whatever the clock reads |
| `LeaseRepository.WorkspaceLeaseRepository.RunFenced` | storage/leases.py:457-501 | runs inside the fence; goes through exactly if the lease is valid and the operation does not raise, and then the lease is valid exactly until now plus the span; nothing is renewed otherwise |
| `Timelines.TokensOrdered` | storage/leases.py:75-501 | over any run tokens never fall and one token has one owner for ever |
| `Timelines.StaleForGood` | storage/leases.py:145-245 | once a newer token is issued the older lease fails every check, heartbeat and release whatever the clock reads |
| `Timelines.WorkspaceWindow` | storage/workflow_run_repository.py:701-790 | from a write task's terminal event to the accepted completion of its node the workspace lock kept one token and one holder |
| `Clock.TextOrder` | storage/db.py:65-68 | on 27-character texts text order is time order |
| `Clock.Width` | storage/db.py:65-68 | the text has 27 characters exactly from the year 1000 on |
| `Clock.TextReads` | storage/db.py:65-68 | from the year 1000 on every field can be read back from its place between the marks |
| `Clock.TextOrderBreaks` | storage/db.py:65-68 | of an earlier and a later moment the texts stand in the wrong order exactly when the later year is longer and its leading digits are below the earlier year |
| `EventLog.EventRepository.AppendIn` | storage/event_repository.py:122-249 | a run event takes the next gapless number of its run; lineage faults append nothing |
| `EventLog.EventRepository.ListAll` | storage/event_repository.py:455-502 | paging a run's or a session's events at any size, with appends by the repository between pages, returns exactly the rows past the cursor when the last page was read, in order and without gaps, and covers everything present at the start |
| `EventLog.PastIsSuffix` | storage/event_repository.py:421-453 | the rows past a cursor are a suffix of the log |
| `EventLog.ListingsRise` | storage/event_repository.py:382-453 | in every log the repository keeps, a run's events by number and a session's by id have rising keys |
| `EventLog.ListingRows` | storage/event_repository.py:382-453 | a listing holds exactly the rows of its run or session, each under its number or id |
| `Idempotency.IdempotencyRepository.Execute` | storage/idempotency_repository.py:87-160 | replays a live key, refuses another request under it, otherwise runs; a raising mutation changes nothing |
| `Idempotency.IdempotencyRepository.DeleteExpired` | storage/idempotency_repository.py:162-168 | removes exactly the expired rows and counts them |
| `Idempotency.OncePerWindow` | storage/idempotency_repository.py:87-160 | under a forward clock a key runs its mutation at most once per time-to-live window |
| `Idempotency.LookupAgrees` | storage/idempotency_repository.py:48-85 | lookup answers exactly what execute would without running |
| `Idempotency.DeletionInvisible` | storage/idempotency_repository.py:162-168 | under a forward clock no caller can tell whether expired rows were deleted |
| `Idempotency.DeletionVisible` | storage/idempotency_repository.py:162-168 | a clock that runs backwards sees a deletion exactly between its reading and the row's expiry |
| `Artifacts.ArtifactStore.Publish` | storage/artifact_store.py:400-461 | never changes an existing final; says for every mix of failing file operations where the handle ends and whether the final is there |
| `Artifacts.PublishedMeans` | storage/artifact_store.py:400-461 | a handle is published exactly when every operation went through, and rolled back or owing cleanup exactly when one failed after the link |
| `Artifacts.ArtifactStore.RollbackPublish` | storage/artifact_store.py:463-490 | removes its own final or says cleanup is needed |
| `Artifacts.ArtifactStore.Finalize` | storage/artifact_store.py:492-505 | succeeds exactly on a published final whose bytes are its own |
| `Artifacts.ArtifactStore.DiscardStaged` | storage/artifact_store.py:507-523 | drops a staged or rolled-back temp file |
| `Artifacts.ArtifactStore.Abort` | storage/artifact_store.py:525-557 | removes the final exactly when the handle had published it or owes its cleanup |
| `Artifacts.ArtifactRepository.CreateIn` | storage/artifact_repository.py:360-463 | quota, duplicate check, publication and insert in one transaction; existing files are untouched and every committed row is backed |
| `Artifacts.ArtifactRepository.ReconcileCreateCommit` | storage/artifact_repository.py:584-633 | reports a row only if it is there and backed, a rollback only if it is not, and never removes a vouched file |
| `Artifacts.ArtifactRepository.Create` | storage/artifact_repository.py:321-549 | the caller is told of a row exactly when one was committed, through file failures and ambiguous commits |
| `Artifacts.ArtifactRepository.AbortCreate` | storage/artifact_repository.py:551-567 | cleanup outside a transaction breaks the agreement exactly when a row has come to vouch for the file |
| `Artifacts.AbortTooLate` | storage/artifact_repository.py:551-567 | such a run: cleanup owed, orphan reconciled, same artifact created again, and the late cleanup removes the new file |
| `Artifacts.ArtifactRepository.PublishStagedIn` | storage/artifact_repository.py:155-252 | creates exactly when no row has the id, the quotas admit it and publication goes through; reuses exactly an identical artifact where that is allowed; refuses otherwise |
| `Artifacts.ArtifactRepository.ReconcileOrphan` | storage/artifact_repository.py:765-779 | removes a file only when no row has its id |
| `Artifacts.ArtifactRepository.DeleteRow` | storage/artifact_repository.py:756-761 | removes exactly one id's row and keeps quota and agreement |
| `Artifacts.ArtifactRepository.DeleteFile` | storage/artifact_repository.py:762-763 | the file half of delete breaks the agreement exactly when the id was committed again |
| `Artifacts.DeleteTooLate` | storage/artifact_repository.py:756-763 | such a run: between the halves of a deletion the id is committed again and loses its file |
| `Capture.ReconcileCaptureCommit` | storage/change_set_repository.py:937-1244 | answers committed exactly when the whole write set is there and its files verify, rolled back exactly when none of it is, and refuses otherwise |
| `Capture.WholeMeans` | storage/change_set_repository.py:1112-1210 | "committed" reads exactly what the attempt's commit writes: every artifact, ChangeSet, task and node row, both events last and once, and the security row |
| `Capture.UntouchedMeans` | storage/change_set_repository.py:1212-1233 | "rolled back" reads the rows as the attempt found them and none of what it would have written |
| `Capture.CommittedIsSound` | storage/change_set_repository.py:1112-1210 | without a commit, no run of other writers' steps, other captures of the same task among them, makes the write set look committed |
| `Capture.RolledBackIsSound` | storage/change_set_repository.py:1212-1233 | after a commit, no run of other writers' steps makes it look rolled back |
| `Capture.AnswerLater` | storage/change_set_repository.py:937-1244 | asked after any run of other writers' steps, "committed" is answered only if the attempt committed and "rolled back" only if it did not |
| `Capture.PromptAnswers` | storage/change_set_repository.py:937-1244 | asked at once the answer is exact, up to an artifact reused with another creation time |
| `Evidence.Closure` | workflow/approval_evidence.py:39-59 | the growing set is exactly what can be reached along the edges |
| `Evidence.ChainIsPaths` | workflow/approval_evidence.py:60-63 | forward and backward reachability together are lying on a source-to-approval path |
| `Evidence.BuildManifest` | workflow/approval_evidence.py:39-169 | a manifest is built exactly when the chain is complete and every evidence run passes; it lists those runs and its risk bounds every reported risk, the floor and the hint, and is one of them |
| `Evidence.ManifestAdmits` | workflow/approval_evidence.py:60-147 | when a manifest can be built, by kinds of nodes and contents of runs |
| `Evidence.ManifestLists` | workflow/approval_evidence.py:70-147 | the entries are exactly the runs that count, none with an unverified output |
| `Evidence.ManifestRisk` | workflow/approval_evidence.py:117-154 | the manifest's risk is at least the hint, the floor and every risk a classifier reported, and is one of them or the lowest |
| `Evidence.ManifestVouches` | workflow/approval_evidence.py:70-147 | if a manifest can be built, every guard, test and risk node on every source-to-approval path has a run, and only completed, successful, bound ones |

## Left out

- SQL text, row conversion and validation of models.
- The privilege path as its statements stand: two queries (storage/approval_repository.py:494-501 and 1171-1179) select an ambiguous `status` over joined tables, and two updates (storage/workflow_run_repository.py:1778 and 1904) set an `error_code` that tasks lack. SQLite refuses all four, so privilege approvals, their decisions and expiries are modelled as these statements are evidently meant, and every result about them is about that.
- The rows of other runs: one run's tables are modelled, so `finalize_merge` naming a ChangeSet of another run is not.
- Assigned agents, runtime policy artifacts and node output artifacts: the ownership checks of `complete_node` and `create_and_start_task` on them.
- The stand-alone `resume_after_approval`, `request_cancel`, `complete_cancel`, `invalidate_for_run` and `revoke_unconsumed_for_run`, and the `approved=True` branch of the privilege resume: nothing on the modelled paths calls them.
- Security events outside capture, the session's blocked status, timestamps of node and task rows.
- Leases of resources other than the session's integration workspace.
- Replay of task and privilege-request events: cancellation writes tasks without task events, and consumption writes the request without a request event.
- Evidence.BuildManifest: does not model the runtime policy artifact, the capability lineage checks, the sorting of entries or the manifest hash; they do not affect the chain or the risk.
- Artifacts.ArtifactStore.Publish: does not model permissions, symlinks and tampering with files from outside.
- EventLog.EventRepository.ListAll: appends stop at some point, since paging against endless appends need not end.
- HTTP, CLI, settings, the executor, the compiler, planner templates, router scoring and path policies.
- RunRepository.WorkflowRunRepository.CompleteNode: does not model the ownership checks of the output artifact.
- RunRepository.WorkflowRunRepository.CreateTask: does not model the check of the assigned agent.
- RunRepository.WorkflowRunRepository.CreateAndStartTask: does not model the checks of agent and runtime policy artifact.
- RunRepository.WorkflowRunRepository.FinalizeMerge: does not model a ChangeSet that belongs to another run.
- RunRepository.WorkflowRunRepository.MarkOrphaned: does not model the session's blocked status.
- Actions.NewRunCreated: does not model the lease and snapshot checks of run creation.
- ApprovalRepository.ApprovalRepository.CreatePrivilegeRequest: does not tell the task, action, resource and seal of a request apart; one subject stands for them.
- ChangeSetRepository.ChangeSetRepository.PersistCapture: does not model the artifacts published in its transaction; `Capture` and `Artifacts` do.
- ChangeSetRepository.ChangeSetRepository.Transition: does not model the optional security event.
- EventLog.EventRepository.AppendIn: does not model the validation of payloads.
- Artifacts.ArtifactRepository.Create: does not model steps of others between its transactions; its second transaction and its cleanup are stated for any rows by ReconcileCreateCommit and AbortCreate.
- Artifacts.ArtifactRepository.PublishStagedIn: does not model the validation of the owner.
