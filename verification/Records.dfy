/** The tables of one workflow run within its session, and the two statements
    every status write is made of: a guarded row update and an appended event. */
module Records {
  import opened Graphs
  import opened Wrappers

  datatype RunStatus =
    | Pending | Running | WaitingApproval | Paused | Blocked | Failed | Completed | Cancelled | Orphaned

  datatype NodeStatus =
    | Pending | Ready | Running | WaitingApproval | BlockedByGuard | Failed | Completed | Skipped
    | Superseded | Cancelled | Orphaned

  datatype Outcome = Success | Failure | Matched | NotMatched | Approved | Rejected | Blocked | Cancelled

  datatype TaskStatus =
    | Pending | Running | Succeeded | PrivilegeRequested | Failed | TimedOut | Cancelled | BlockedByGuard
    | ParseFailed | Orphaned

  datatype ChangeSetStatus =
    | Captured | GuardPassed | GuardRejected | TestPassed | TestFailed | PolicyRejected | PendingApproval
    | Approved | Rejected | Cancelled | Stale | Merged | AbandonedPartial | Quarantined

  datatype ApprovalStatus = Pending | Approved | Rejected | Expired | Invalidated

  datatype RequestStatus = Pending | WaitingApproval | Approved | Rejected | Consumed | Expired | Denied

  datatype Risk = L0 | L1 | L2 | L3 | L4

  /** A node run is one attempt at a node; its id is derived from the pair. */
  datatype NodeRun = NodeRun(node: int, attempt: nat)

  datatype RunRow = RunRow(status: RunStatus, cancelRequested: bool, mergeFinalizing: bool, commit: int)

  /** What a pending `error_code` names: its prefix tells a gate's approval from
      the approval of a privilege. */
  datatype Awaited = ForGate(approval: int) | ForPrivilege(approval: int)

  datatype NodeRow = NodeRow(status: NodeStatus, outcome: Option<Outcome>, waitsFor: Option<Awaited>)

  /** Each node run has at most one task, so tasks are keyed by node run. */
  datatype TaskRow = TaskRow(status: TaskStatus, base: int, grant: Option<int>)

  /** A ChangeSet is keyed by the task that owns it. */
  datatype Subject = OfChangeSet(task: NodeRun) | OfRequest(request: int)

  /** What a decision binds; its hash is injective, so the tuple stands for it. */
  datatype Decision = Decision(approval: int, version: nat, subjectHash: int, target: ApprovalStatus, actor: int, key: int)

  /** `terms` stands for the immutable commit, patch, evidence, risk and scope. */
  datatype ApprovalRow = ApprovalRow(node: NodeRun, subject: Subject, subjectHash: int, terms: int, risk: Risk,
    status: ApprovalStatus, version: nat, key: Option<int>, decision: Option<Decision>, actor: Option<int>, expires: int)

  datatype RequestRow = RequestRow(node: NodeRun, subject: int, risk: Risk, status: RequestStatus)

  datatype Use = Use(at: int, fence: nat)

  datatype GrantRow = GrantRow(target: NodeRun, subject: int, expires: int, consumed: Option<Use>, revoked: bool)

  /** Fencing tokens start at one. */
  type Token = x: nat | 1 <= x witness 1

  datatype LeaseRow = LeaseRow(owner: int, token: Token, expires: int)

  datatype OwnerKind = AgentTask | Merge | Recovery | Other

  /** Operation ids of tasks, node runs and recoveries never coincide. */
  datatype Operation = TaskOf(nodeRun: NodeRun) | NodeOf(nodeRun: NodeRun) | RecoveryOfRun | Foreign(id: int)

  datatype Holder = Holder(kind: OwnerKind, operation: Operation, process: int)

  datatype LockRow = LockRow(holder: Holder, token: Token, expires: int, released: bool)

  datatype Event =
    | RunCreated(status: RunStatus)
    | RunMoved(runWas: RunStatus, runIs: RunStatus)
    | NodeMoved(nodeRun: NodeRun, nodeWas: NodeStatus, nodeIs: NodeStatus, outcome: Option<Outcome>)
    | TaskMoved(task: NodeRun, taskWas: Option<TaskStatus>, taskIs: TaskStatus, fence: Option<nat>)
    | ApprovalMoved(approval: int, approvalWas: Option<ApprovalStatus>, approvalIs: ApprovalStatus, version: nat)
    | RequestMoved(request: int, requestWas: Option<RequestStatus>, requestIs: RequestStatus)
    | GrantChanged(grant: int, consumedFence: Option<nat>)
    | ChangeSetMoved(changeSet: NodeRun, changeWas: Option<ChangeSetStatus>, changeIs: ChangeSetStatus)
    | CancellationRecovered

  datatype Entry = Entry(number: nat, token: nat, event: Event)

  datatype Tables = Tables(graph: Graph, run: RunRow, nodes: map<NodeRun, NodeRow>, tasks: map<NodeRun, TaskRow>,
    changeSets: map<NodeRun, ChangeSetStatus>, approvals: map<int, ApprovalRow>, requests: map<int, RequestRow>,
    grants: map<int, GrantRow>, log: seq<Entry>, nextSeq: nat, head: int, master: Option<LeaseRow>, lock: Option<LockRow>)

  // ---------------------------------------------------------------- terminal states

  predicate NodeDone(s: NodeStatus) {
    s.BlockedByGuard? || s.Failed? || s.Completed? || s.Skipped? || s.Superseded? || s.Cancelled? || s.Orphaned?
  }

  predicate RunDone(s: RunStatus) {
    s.Blocked? || s.Failed? || s.Completed? || s.Cancelled? || s.Orphaned?
  }

  // ---------------------------------------------------------------- lookups

  /** Every node of the graph keeps a row, so the default is never met. */
  function Row(nodes: map<NodeRun, NodeRow>, r: NodeRun): NodeRow {
    if r in nodes then nodes[r] else NodeRow(NodeStatus.Cancelled, None, None)
  }

  /** The row the last-wins lookup by node id finds: the latest attempt. */
  function Latest(nodes: map<NodeRun, NodeRow>, n: int): NodeRun {
    if NodeRun(n, 2) in nodes then NodeRun(n, 2) else NodeRun(n, 1)
  }

  function LatestRow(nodes: map<NodeRun, NodeRow>, n: int): NodeRow {
    Row(nodes, Latest(nodes, n))
  }

  function MasterToken(t: Tables): nat {
    if t.master.Some? then t.master.value.token else 0
  }

  function LockToken(t: Tables): nat {
    if t.lock.Some? then t.lock.value.token else 0
  }

  /** What all steps but a few leave alone: the compiled graph, the lease rows and
      the session HEAD. */
  predicate Framed(t: Tables, u: Tables) {
    u.graph == t.graph && u.master == t.master && u.lock == t.lock && u.head == t.head
  }

  /** Steps outside the books of approvals, ChangeSets, requests and grants. */
  predicate Apart(t: Tables, u: Tables) {
    u.approvals == t.approvals && u.requests == t.requests && u.grants == t.grants && u.changeSets == t.changeSets
  }

  /** Steps that move neither the run nor any node run. */
  predicate Unmoved(t: Tables, u: Tables) {
    u.nodes == t.nodes && u.run.status == t.run.status && u.run.cancelRequested == t.run.cancelRequested
  }

  // ---------------------------------------------------------------- writes

  /** Appends an event with the next sequence number. Every mutation has checked
      its Master lease, so the row's token is the token the event carries. */
  function Log(t: Tables, e: Event): Tables {
    t.(log := t.log + [Entry(t.nextSeq, MasterToken(t), e)], nextSeq := t.nextSeq + 1)
  }

  function MoveNode(t: Tables, r: NodeRun, was: NodeStatus, row: NodeRow): Tables {
    Log(t.(nodes := t.nodes[r := row]), NodeMoved(r, was, row.status, row.outcome))
  }

  function MoveRun(t: Tables, was: RunStatus, next: RunStatus): Tables {
    Log(t.(run := t.run.(status := next)), RunMoved(was, next))
  }

  function MoveTask(t: Tables, r: NodeRun, was: Option<TaskStatus>, row: TaskRow, fence: Option<nat>): Tables {
    Log(t.(tasks := t.tasks[r := row]), TaskMoved(r, was, row.status, fence))
  }
}
