/** Every step a Master, an executor or another process can take, as one
    transition relation over the tables. */
module Actions {
  import opened Graphs
  import opened Wrappers
  import opened Records
  import opened Leases
  import opened Scheduling
  import opened Meaning
  import opened WorkflowRuns
  import opened Approvals
  import opened ChangeSets

  datatype Action =
    | StartRun(c: Call)
    | ClaimNext(c: Call)
    | CompleteNode(c: Call, r: NodeRun, v: Verdict, hasError: bool)
    | NewTask(c: Call, r: NodeRun, base: int)
    | BeginTask(c: Call, r: NodeRun, base: int)
    | EndTask(c: Call, r: NodeRun, target: TaskStatus, hasError: bool, fence: Option<WorkLease>)
    | CaptureChange(c: Call, r: NodeRun, status: ChangeSetStatus, target: TaskStatus, hasError: bool, w: WorkLease)
    | MoveChangeSet(c: Call, r: NodeRun, was: ChangeSetStatus, next: ChangeSetStatus, fence: Option<WorkLease>)
    | AwaitApproval(c: Call, r: NodeRun, a: int)
    | AwaitPrivilege(c: Call, r: NodeRun, a: int, w: WorkLease)
    | NewApproval(c: Call, a: int, row: ApprovalRow)
    | RenewApproval(c: Call, prior: int, version: nat, hash: int, a: int, row: ApprovalRow)
    | DecideApproval(c: Call, d: Decision, ttl: nat)
    | ExpireApprovals(c: Call, rows: seq<int>)
    | NewRequest(c: Call, q: int, request: RequestRow, w: WorkLease)
    | NewRequestAndApproval(c: Call, q: int, request: RequestRow, w: WorkLease, a: int, row: ApprovalRow)
    | FindGrant(c: Call, q: int, grant: GrantRow)
    | ConsumeGrant(c: Call, q: int, r: NodeRun, subject: int, a: int, fence: Option<WorkLease>)
    | StartMerge(c: Call, w: WorkLease, picked: NodeRun)
    | AbandonMerge(c: Call, w: WorkLease, merge: Option<NodeRun>)
    | CommitMerge(c: Call, r: NodeRun, cs: NodeRun, commit: int, w: WorkLease)
    | CancelRun(c: Call, approvals: seq<int>, grants: seq<int>, nodes: seq<NodeRun>)
    | OrphanRun(c: Call, nodes: seq<NodeRun>, only: Option<NodeRun>)
    | TakeMaster(owner: int, span: int, now: int)
    | KeepMaster(c: Call, span: int)
    | DropMaster(c: Call)
    | TakeLock(holder: Holder, span: int, now: int)
    | KeepLock(w: WorkLease, span: int, now: int)
    | DropLock(w: WorkLease, now: int)
    | OtherRunMerges(head: int)

  /** A session has one active run, so another run of it can only move the HEAD
      after this one is over. */
  predicate Inactive(s: RunStatus) {
    s.Completed? || s.Failed? || s.Cancelled?
  }

  predicate OnLeases(x: Action) {
    x.TakeMaster? || x.KeepMaster? || x.DropMaster? || x.TakeLock? || x.KeepLock? || x.DropLock? || x.OtherRunMerges?
  }

  predicate OnBooks(x: Action) {
    x.NewApproval? || x.RenewApproval? || x.DecideApproval? || x.ExpireApprovals? || x.NewRequest? || x.NewRequestAndApproval?
    || x.FindGrant? || x.ConsumeGrant? || x.CancelRun?
  }

  predicate OnTasks(x: Action) {
    x.NewTask? || x.BeginTask? || x.EndTask? || x.CaptureChange? || x.MoveChangeSet?
  }

  ghost function Do(t: Tables, x: Action): Result<Tables> {
    if OnLeases(x) then LeaseStep(t, x)
    else if OnBooks(x) then BookStep(t, x)
    else if OnTasks(x) then TaskStep(t, x)
    else RunStep(t, x)
  }

  ghost function RunStep(t: Tables, x: Action): Result<Tables> {
    match x
    case StartRun(c) => Start(t, c)
    case ClaimNext(c) => Claim(t, c)
    case CompleteNode(c, r, v, e) => Complete(t, c, r, v, e)
    case AwaitApproval(c, r, a) => EnterWaiting(t, c, r, a)
    case AwaitPrivilege(c, r, a, w) => PrepareRetry(t, c, r, a, w)
    case StartMerge(c, w, picked) => BeginMerge(t, c, w, picked)
    case AbandonMerge(c, w, merge) => ClearMerge(t, c, w, merge)
    case CommitMerge(c, r, cs, commit, w) => FinalizeMerge(t, c, r, cs, commit, w)
    case OrphanRun(c, nodes, only) => Orphan(t, c, nodes, only)
    case _ => Err(Fault.Invalid)
  }

  ghost function TaskStep(t: Tables, x: Action): Result<Tables> {
    match x
    case NewTask(c, r, base) => CreateTask(t, c, r, base)
    case BeginTask(c, r, base) => StartTask(t, c, r, base)
    case EndTask(c, r, target, e, w) => FinishTask(t, c, r, target, e, w)
    case CaptureChange(c, r, status, target, e, w) => Capture(t, c, r, status, target, e, w)
    case MoveChangeSet(c, r, was, next, w) => Transition(t, c, r, was, next, w)
    case _ => Err(Fault.Invalid)
  }

  ghost function BookStep(t: Tables, x: Action): Result<Tables> {
    match x
    case NewApproval(c, a, row) => CreateApproval(t, c, a, row)
    case RenewApproval(c, prior, version, hash, a, row) => Renew(t, c, prior, version, hash, a, row)
    case DecideApproval(c, d, ttl) => Decide(t, c, d, ttl)
    case ExpireApprovals(c, rows) => ExpireDue(t, c, rows)
    case NewRequest(c, q, row, w) => CreateRequest(t, c, q, row, w)
    case NewRequestAndApproval(c, q, row, w, a, approval) => CreateRequestAndApproval(t, c, q, row, w, a, approval)
    case FindGrant(c, q, grant) => CreateGrant(t, c, q, grant)
    case ConsumeGrant(c, q, r, subject, a, w) => Consume(t, c, q, r, subject, a, w)
    case CancelRun(c, approvals, grants, nodes) => Cancel(t, c, approvals, grants, nodes)
    case _ => Err(Fault.Invalid)
  }

  ghost function LeaseStep(t: Tables, x: Action): Result<Tables> {
    match x
    case TakeMaster(owner, span, now) => OnMaster(t, AcquireMaster(t.master, owner, span, now))
    case KeepMaster(c, span) => OnMaster(t, BeatMaster(t.master, c.lease, span, c.now))
    case DropMaster(c) => OnMaster(t, ReleaseMaster(t.master, c.lease, c.now))
    case TakeLock(holder, span, now) => OnLock(t, AcquireLock(t.lock, holder, span, now))
    case KeepLock(w, span, now) => OnLock(t, BeatLock(t.lock, w, span, now))
    case DropLock(w, now) => OnLock(t, ReleaseLock(t.lock, w, now))
    case OtherRunMerges(head) => if Inactive(t.run.status) then Ok(t.(head := head)) else Err(Fault.Conflict)
    case _ => Err(Fault.Invalid)
  }

  function OnMaster(t: Tables, row: Result<LeaseRow>): Result<Tables> {
    var r :- row;
    Ok(t.(master := Some(r)))
  }

  function OnLock(t: Tables, row: Result<LockRow>): Result<Tables> {
    var r :- row;
    Ok(t.(lock := Some(r)))
  }

  /** A refused step is rolled back: it leaves every table as it was. */
  ghost function After(t: Tables, x: Action): Tables {
    var r := Do(t, x);
    if r.Ok? then r.value else t
  }

  /** What the callers the repositories are written for keep to: ChangeSet
      verdicts leave the approval, merge and cancellation edges alone; a node
      that asks for a privilege names the approval of its own request; a new
      request has not already been granted. */
  predicate Proper(t: Tables, x: Action) {
    match x
    case MoveChangeSet(_, _, _, next, _) => !Reserved(next)
    case AwaitPrivilege(_, r, a, _) => a in t.approvals ==> t.approvals[a].subject.OfRequest? && t.approvals[a].node == r
    case NewRequest(_, _, row, _) => !row.status.Approved? && !row.status.Consumed?
    case NewRequestAndApproval(_, _, row, _, _, _) => !row.status.Approved? && !row.status.Consumed?
    case _ => true
  }

  // ---------------------------------------------------------------- runs

  /** The tables after a run of steps, newest step last. */
  ghost function Trace(t: Tables, steps: seq<Action>): Tables {
    if steps == [] then t else After(Trace(t, steps[..|steps| - 1]), steps[|steps| - 1])
  }

  ghost predicate AllProper(t: Tables, steps: seq<Action>) {
    forall i | 0 <= i < |steps| :: Proper(Trace(t, steps[..i]), steps[i])
  }

  /** A freshly created run: every node pending, one creation event. */
  ghost predicate Created(t: Tables) {
    && WellFormed(t.graph) && Acyclic(Ids(t.graph), Links(t.graph)) && OutputOf(t.graph.nodes) in Ids(t.graph)
    && t.run.status.Pending? && !t.run.cancelRequested && !t.run.mergeFinalizing
    && t.nodes == (map n | n in Ids(t.graph) :: NodeRun(n, 1) := NodeRow(NodeStatus.Pending, None, None))
    && t.tasks == map[] && t.changeSets == map[] && t.approvals == map[] && t.requests == map[] && t.grants == map[]
    && t.master.Some?
    && t.log == [Entry(1, t.master.value.token, RunCreated(RunStatus.Pending))] && t.nextSeq == 2
  }

  /** Creating a run: every node pending in its first attempt, and the creation
      event numbered one. */
  ghost function NewRun(g: Graph, commit: int, head: int, master: LeaseRow, lock: Option<LockRow>): Tables {
    Tables(g, RunRow(RunStatus.Pending, false, false, commit),
      map n | n in Ids(g) :: NodeRun(n, 1) := NodeRow(NodeStatus.Pending, None, None),
      map[], map[], map[], map[], map[], [Entry(1, master.token, RunCreated(RunStatus.Pending))], 2, head, Some(master), lock)
  }

  /** A compiled graph with an input and an output gives a run to start from. */
  lemma NewRunCreated(g: Graph, commit: int, head: int, master: LeaseRow, lock: Option<LockRow>)
    requires WellFormed(g) && Acyclic(Ids(g), Links(g)) && exists n :: n in g.nodes && n.kind.Output?
    ensures Created(NewRun(g, commit, head, master, lock))
  {
    hide WellFormed, Acyclic;
    OutputListed(g.nodes);
  }

  lemma {:induction false} OutputListed(nodes: seq<Node>)
    requires exists n :: n in nodes && n.kind.Output?
    ensures exists n :: n in nodes && n.kind.Output? && n.id == OutputOf(nodes)
  {
    if nodes[0].kind.Output? {
      assert nodes[0] in nodes;
    } else {
      var n :| n in nodes && n.kind.Output?;
      assert n in nodes[1..];
      OutputListed(nodes[1..]);
    }
  }
}
