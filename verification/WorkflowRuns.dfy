/** The steps of the workflow run repository. Each is one transaction: it
    yields the new tables, or a fault and no change. */
module WorkflowRuns {
  import opened Graphs
  import opened Wrappers
  import opened Records
  import opened Leases
  import opened Scheduling
  import opened Meaning

  // ---------------------------------------------------------------- scheduling steps

  ghost function Start(t: Tables, c: Call): (after: Result<Tables>)
    ensures after.Ok? ==> Framed(t, after.value) && Apart(t, after.value)
  {
    var valid := MasterValid(t.master, c.lease, c.now);
    :- Need(valid, Fault.LeaseLost);
    if t.run.status.Pending? then
      :- Need(!t.run.cancelRequested, Fault.Conflict);
      Ok(Reconciled(MoveRun(t, RunStatus.Pending, RunStatus.Running)))
    else Ok(if t.run.status.Running? then Reconciled(t) else t)
  }

  /** The first node of the order whose latest attempt is ready. */
  function FirstReady(nodes: Rows, order: seq<int>): Option<NodeRun> {
    if order == [] then None
    else if LatestRow(nodes, order[0]).status.Ready? then Some(Latest(nodes, order[0]))
    else FirstReady(nodes, order[1..])
  }

  ghost function Claim(t: Tables, c: Call): (after: Result<Tables>)
    ensures after.Ok? ==> Framed(t, after.value) && Apart(t, after.value)
  {
    var valid := MasterValid(t.master, c.lease, c.now);
    :- Need(valid, Fault.LeaseLost);
    var next := FirstReady(t.nodes, GraphOrder(t.graph));
    if !t.run.status.Running? || t.run.cancelRequested || next.None? then Ok(t)
    else Ok(MoveNode(t, next.value, NodeStatus.Ready, Row(t.nodes, next.value).(status := NodeStatus.Running)))
  }

  predicate IsWrite(g: Graph, r: NodeRun) {
    FindNode(g.nodes, r.node).kind.AgentTask? && FindNode(g.nodes, r.node).requiresWrite
  }

  /** The newest event of a task. */
  function LastTaskEvent(log: seq<Entry>, r: NodeRun): (e: Option<Event>)
    ensures e.Some? ==> e.value.TaskMoved? && e.value.task == r
  {
    if log == [] then None
    else
      var e := log[|log| - 1].event;
      if e.TaskMoved? && e.task == r then Some(e) else LastTaskEvent(log[..|log| - 1], r)
  }

  /** A write node may end only while the workspace still carries the token its
      task's terminal event was written under. */
  function WriteCheck(t: Tables, r: NodeRun, target: NodeStatus): Check {
    if r !in t.tasks then Need(!target.Completed?, Fault.Integrity) else
      var task := t.tasks[r].status;
      var captured := r in t.changeSets && t.changeSets[r].Captured?;
      var event := LastTaskEvent(t.log, r);
      Need(
        && (if target.Completed? then task.Succeeded? && captured
            else !task.Pending? && !task.Running? && !task.Succeeded? && !captured)
        && event.Some? && event.value.taskIs == task && event.value.fence.Some?
        && t.lock.Some? && t.lock.value.holder.kind.AgentTask?
        && t.lock.value.holder.operation == TaskOf(r) && t.lock.value.token == event.value.fence.value,
        Fault.Integrity)
  }

  function Complete(t: Tables, c: Call, r: NodeRun, v: Verdict, hasError: bool): (after: Result<Tables>)
    ensures after.Ok? ==> Framed(t, after.value) && Apart(t, after.value)
  {
    var valid := Legal(v) && (v.status.Completed? || hasError);
    :- Need(valid, Fault.Invalid);
    :- Need(MasterValid(t.master, c.lease, c.now), Fault.LeaseLost);
    :- Need(r in t.nodes, Fault.NotFound);
    :- Need(!t.run.cancelRequested && t.run.status.Running?, Fault.Conflict);
    :- if IsWrite(t.graph, r) then WriteCheck(t, r, v.status) else Granted;
    :- Need(t.nodes[r].status.Running?, Fault.Conflict);
    Ok(MoveNode(t, r, NodeStatus.Running, NodeRow(v.status, v.outcome, None)))
  }

  // ---------------------------------------------------------------- task steps

  function TaskCheck(t: Tables, c: Call, r: NodeRun, base: int): Check {
    if !MasterValid(t.master, c.lease, c.now) then Refuse(Fault.LeaseLost)
    else if r !in t.nodes then Refuse(Fault.NotFound)
    else if !t.nodes[r].status.Running? || !t.run.status.Running? || t.run.cancelRequested then Refuse(Fault.Conflict)
    else Need(t.run.commit == base, Fault.Invalid)
  }

  function CreateTask(t: Tables, c: Call, r: NodeRun, base: int): (after: Result<Tables>)
    ensures after.Ok? ==> Framed(t, after.value) && Apart(t, after.value) && Unmoved(t, after.value)
  {
    var check := TaskCheck(t, c, r, base);
    :- check;
    :- Need(r !in t.tasks, Fault.Conflict);
    Ok(MoveTask(t, r, None, TaskRow(TaskStatus.Pending, base, None), None))
  }

  /** Creates and starts a task, or starts the one a granted retry prepared. */
  function StartTask(t: Tables, c: Call, r: NodeRun, base: int): (after: Result<Tables>)
    ensures after.Ok? ==> Framed(t, after.value) && Apart(t, after.value) && Unmoved(t, after.value)
  {
    var check := TaskCheck(t, c, r, base);
    :- check;
    var made := if r in t.tasks then t else MoveTask(t, r, None, TaskRow(TaskStatus.Pending, base, None), None);
    :- Need(made.tasks[r].base == base && made.tasks[r].status.Pending?, Fault.Conflict);
    Ok(MoveTask(made, r, Some(TaskStatus.Pending), made.tasks[r].(status := TaskStatus.Running), None))
  }

  predicate Bound(w: WorkLease, r: NodeRun) {
    w.holder.kind.AgentTask? && w.holder.operation == TaskOf(r)
  }

  function FinishTask(t: Tables, c: Call, r: NodeRun, target: TaskStatus, hasError: bool, w: Option<WorkLease>): (after: Result<Tables>)
    ensures after.Ok? ==> Framed(t, after.value) && Apart(t, after.value) && Unmoved(t, after.value)
  {
    var valid := !target.Pending? && !target.Running?;
    :- Need(valid, Fault.Invalid);
    :- Need(target.Succeeded? || target.PrivilegeRequested? || hasError, Fault.Invalid);
    :- Need(MasterValid(t.master, c.lease, c.now), Fault.LeaseLost);
    :- Need(r in t.tasks && r in t.nodes, Fault.NotFound);
    :- Need(!t.run.cancelRequested && t.run.status.Running? && t.nodes[r].status.Running?, Fault.Conflict);
    :- if IsWrite(t.graph, r) then FenceCheck(t, c, r, target, w) else Need(w.None?, Fault.Invalid);
    :- Need(t.tasks[r].status.Running?, Fault.Conflict);
    Ok(MoveTask(t, r, Some(TaskStatus.Running), t.tasks[r].(status := target), if w.Some? then Some(w.value.token) else None))
  }

  function FenceCheck(t: Tables, c: Call, r: NodeRun, target: TaskStatus, w: Option<WorkLease>): Check {
    if w.None? || !Bound(w.value, r) then Refuse(Fault.Invalid)
    else if !LockValid(t.lock, w.value, c.now) then Refuse(Fault.LeaseLost)
    else Need(target.Succeeded? <==> (r in t.changeSets && t.changeSets[r].Captured?), Fault.Integrity)
  }

  // ---------------------------------------------------------------- waiting and resuming

  function Wait(t: Tables, r: NodeRun, a: Awaited): Tables {
    var row := Row(t.nodes, r).(status := NodeStatus.WaitingApproval, waitsFor := Some(a));
    MoveRun(MoveNode(t, r, NodeStatus.Running, row), RunStatus.Running, RunStatus.WaitingApproval)
  }

  function Decided(s: ApprovalStatus): bool {
    s.Approved? || s.Rejected?
  }

  ghost function EnterWaiting(t: Tables, c: Call, r: NodeRun, a: int): (after: Result<Tables>)
    ensures after.Ok? ==> Framed(t, after.value) && Apart(t, after.value)
  {
    var valid := MasterValid(t.master, c.lease, c.now);
    :- Need(valid, Fault.LeaseLost);
    :- Need(r in t.nodes, Fault.NotFound);
    :- Need(t.nodes[r].status.Running? && t.run.status.Running? && !t.run.cancelRequested, Fault.Conflict);
    if a in t.approvals && Decided(t.approvals[a].status) then ResumeIn(t, r, t.approvals[a].status.Approved?)
    else Ok(Wait(t, r, ForGate(a)))
  }

  const REJECTED := NodeRow(NodeStatus.Completed, Some(Outcome.Rejected), None)

  /** Takes the run out of waiting together with its waiting node. */
  function Wake(t: Tables, r: NodeRun, row: NodeRow): Tables {
    MoveRun(MoveNode(t, r, NodeStatus.WaitingApproval, row), RunStatus.WaitingApproval, RunStatus.Running)
  }

  ghost function ResumeIn(t: Tables, r: NodeRun, approved: bool): (after: Result<Tables>)
    ensures after.Ok? ==> Framed(t, after.value) && Apart(t, after.value)
  {
    var valid := r in t.nodes;
    :- Need(valid, Fault.NotFound);
    if t.nodes[r].status.WaitingApproval? && t.run.status.WaitingApproval? then
      :- Need(!t.run.cancelRequested, Fault.Conflict);
      if approved then Ok(Wake(t, r, NodeRow(NodeStatus.Ready, None, None)))
      else Ok(Reconciled(Wake(t, r, REJECTED)))
    else if t.nodes[r].status.Running? && t.run.status.Running? then
      if approved then Ok(t) else
        :- Need(!t.run.cancelRequested, Fault.Conflict);
        Ok(Reconciled(MoveNode(t, r, NodeStatus.Running, REJECTED)))
    else Err(Fault.Conflict)
  }

  // ---------------------------------------------------------------- privilege retries

  function Next(r: NodeRun): NodeRun {
    NodeRun(r.node, r.attempt + 1)
  }

  ghost predicate MayRetry(t: Tables, r: NodeRun) {
    r.attempt < 2 && forall s | s in t.nodes && s.node == r.node :: s.attempt <= r.attempt
  }

  ghost function PrepareRetry(t: Tables, c: Call, r: NodeRun, a: int, w: WorkLease): (after: Result<Tables>)
    ensures after.Ok? ==> Framed(t, after.value) && Apart(t, after.value)
  {
    var valid := MasterValid(t.master, c.lease, c.now);
    :- Need(valid, Fault.LeaseLost);
    :- Need(r in t.nodes && r in t.tasks, Fault.NotFound);
    :- Need(Bound(w, r), Fault.Invalid);
    :- Need(LockValid(t.lock, w, c.now), Fault.LeaseLost);
    var task := t.tasks[r];
    :- Need(!t.run.cancelRequested && t.nodes[r].status.Running? && t.run.status.Running?
            && (task.status.Running? || task.status.PrivilegeRequested?), Fault.Conflict);
    :- Need(MayRetry(t, r), Fault.Conflict);
    var asked := if task.status.Running?
      then MoveTask(t, r, Some(TaskStatus.Running), task.(status := TaskStatus.PrivilegeRequested), Some(w.token))
      else t;
    Ok(Wait(asked, r, ForPrivilege(a)))
  }

  /** The retry attempt and its task, created together. */
  function AddRetry(t: Tables, r: NodeRun): Tables
    requires r in t.tasks
  {
    t.(nodes := t.nodes[Next(r) := NodeRow(NodeStatus.Pending, None, None)],
       tasks := t.tasks[Next(r) := TaskRow(TaskStatus.Pending, t.tasks[r].base, None)])
  }

  ghost predicate AwaitsPrivilege(t: Tables, r: NodeRun) {
    && r in t.nodes && r in t.tasks
    && t.nodes[r].status.WaitingApproval? && t.run.status.WaitingApproval? && !t.run.cancelRequested
  }

  /** Supersedes the waiting attempt by a pending one. */
  ghost function ApprovePrivilegeIn(t: Tables, r: NodeRun): (after: Result<Tables>)
    ensures after.Ok? ==> Framed(t, after.value) && Apart(t, after.value)
  {
    var valid := r in t.nodes && r in t.tasks;
    :- Need(valid, Fault.NotFound);
    :- Need(AwaitsPrivilege(t, r) && t.tasks[r].status.PrivilegeRequested?, Fault.Conflict);
    :- Need(MayRetry(t, r), Fault.Conflict);
    var ended := MoveTask(AddRetry(t, r), r, Some(TaskStatus.PrivilegeRequested), t.tasks[r].(status := TaskStatus.Cancelled), None);
    Ok(MoveNode(ended, r, NodeStatus.WaitingApproval, NodeRow(NodeStatus.Superseded, Some(Outcome.Cancelled), None)))
  }

  function DropRetry(t: Tables, r: NodeRun): Tables {
    var stopped := if r in t.tasks && t.tasks[r].status.Pending?
      then t.(tasks := t.tasks[r := t.tasks[r].(status := TaskStatus.Cancelled)]) else t;
    MoveNode(stopped, r, NodeStatus.Pending, NodeRow(NodeStatus.Skipped, None, None))
  }

  /** The rejection branch: the waiting attempt ends rejected and the run goes on. */
  ghost function RejectPrivilegeIn(t: Tables, r: NodeRun): (after: Result<Tables>)
    ensures after.Ok? ==> Framed(t, after.value) && Apart(t, after.value)
  {
    var valid := r in t.nodes && r in t.tasks;
    :- Need(valid, Fault.NotFound);
    :- Need(AwaitsPrivilege(t, r) && t.tasks[r].status.PrivilegeRequested?, Fault.Conflict);
    :- Need(Next(r) in t.nodes && Next(r) in t.tasks ==> t.nodes[Next(r)].status.Pending?, Fault.Conflict);
    Ok(Reconciled(EndRejected(t, r)))
  }

  /** The source attempt ends rejected, a prepared retry is dropped, the run resumes. */
  function EndRejected(t: Tables, r: NodeRun): Tables
    requires r in t.tasks
  {
    var failed := MoveTask(t, r, Some(TaskStatus.PrivilegeRequested), t.tasks[r].(status := TaskStatus.Failed), None);
    var ended := MoveNode(failed, r, NodeStatus.WaitingApproval, REJECTED);
    var dropped := if Next(r) in t.nodes && Next(r) in t.tasks then DropRetry(ended, Next(r)) else ended;
    MoveRun(dropped, RunStatus.WaitingApproval, RunStatus.Running)
  }

  function ActivateIn(t: Tables, r: NodeRun): (after: Result<Tables>)
    ensures after.Ok? ==> Framed(t, after.value) && Apart(t, after.value)
  {
    var valid := r in t.nodes && r in t.tasks;
    :- Need(valid, Fault.NotFound);
    if t.nodes[r].status.Ready? then Ok(t) else
      :- Need(t.nodes[r].status.Pending? && t.tasks[r].status.Pending? && !t.run.cancelRequested, Fault.Conflict);
      var ready := MoveNode(t, r, NodeStatus.Pending, t.nodes[r].(status := NodeStatus.Ready));
      Ok(if t.run.status.WaitingApproval? then MoveRun(ready, RunStatus.WaitingApproval, RunStatus.Running) else ready)
  }

  // ---------------------------------------------------------------- merging

  ghost predicate RunningMerge(t: Tables, r: NodeRun) {
    && r in t.nodes && t.nodes[r].status.Running? && FindNode(t.graph.nodes, r.node).kind.MergePatch?
    && forall s | s in t.nodes && t.nodes[s].status.Running? && FindNode(t.graph.nodes, s.node).kind.MergePatch? ::
         s.attempt <= r.attempt
  }

  /** `picked` is the running merge node the query returns first. */
  ghost function BeginMerge(t: Tables, c: Call, w: WorkLease, picked: NodeRun): (after: Result<Tables>)
    ensures after.Ok? ==> Framed(t, after.value) && Apart(t, after.value) && Unmoved(t, after.value)
  {
    var valid := MasterValid(t.master, c.lease, c.now);
    :- Need(valid, Fault.LeaseLost);
    :- Need(w.holder.kind.Merge? && RunningMerge(t, picked) && w.holder.operation == Operation.NodeOf(picked), Fault.Invalid);
    :- Need(LockValid(t.lock, w, c.now), Fault.LeaseLost);
    :- Need(t.run.status.Running? && !t.run.cancelRequested && !t.run.mergeFinalizing, Fault.Conflict);
    Ok(t.(run := t.run.(mergeFinalizing := true)))
  }

  ghost function ClearMerge(t: Tables, c: Call, w: WorkLease, picked: Option<NodeRun>): (after: Result<Tables>)
    ensures after.Ok? ==> Framed(t, after.value) && Apart(t, after.value) && Unmoved(t, after.value)
  {
    var valid := MasterValid(t.master, c.lease, c.now);
    :- Need(valid, Fault.LeaseLost);
    :- Need(w.holder.kind.Merge? || w.holder.kind.Recovery?, Fault.Invalid);
    :- Need(w.holder.operation.RecoveryOfRun? ||
            (picked.Some? && RunningMerge(t, picked.value) && w.holder.operation == Operation.NodeOf(picked.value)), Fault.Invalid);
    :- Need(LockValid(t.lock, w, c.now), Fault.LeaseLost);
    Ok(t.(run := t.run.(mergeFinalizing := false)))
  }

  /** Moves the session HEAD and the run's commit together. */
  ghost function FinalizeMerge(t: Tables, c: Call, r: NodeRun, cs: NodeRun, commit: int, w: WorkLease): (after: Result<Tables>)
    ensures after.Ok? ==> Framed(t, after.value.(head := t.head))
  {
    var valid := MasterValid(t.master, c.lease, c.now) && LockValid(t.lock, w, c.now);
    :- Need(valid, Fault.LeaseLost);
    :- Need(r in t.nodes, Fault.NotFound);
    :- Need(t.nodes[r].status.Running? && t.run.status.Running? && t.run.mergeFinalizing && !t.run.cancelRequested, Fault.Conflict);
    :- Need((w.holder.kind.Merge? && w.holder.operation == Operation.NodeOf(r))
            || (w.holder.kind.Recovery? && w.holder.operation.RecoveryOfRun?), Fault.Invalid);
    :- Need(t.head == t.run.commit, Fault.Conflict);
    :- Need(cs in t.changeSets && t.changeSets[cs].Approved?, Fault.Conflict);
    var merged := t.(head := commit, run := t.run.(commit := commit, mergeFinalizing := false),
                     changeSets := t.changeSets[cs := ChangeSetStatus.Merged]);
    Ok(Reconciled(MoveNode(merged, r, NodeStatus.Running, NodeRow(NodeStatus.Completed, Some(Outcome.Success), None))))
  }

  // ---------------------------------------------------------------- orphaning and cancelling nodes

  /** A query's answer: the matching rows, each once, in some order. */
  ghost predicate Fetched<T(!new)>(rows: seq<T>, matching: set<T>) {
    && (forall i, j | 0 <= i < j < |rows| :: rows[i] != rows[j])
    && (forall r :: r in rows <==> r in matching)
  }

  function Active(nodes: Rows): set<NodeRun> {
    set r | r in nodes && !NodeDone(nodes[r].status)
  }

  function Uncertain(nodes: Rows): set<NodeRun> {
    set r | r in nodes && (nodes[r].status.Running? || nodes[r].status.WaitingApproval?)
  }

  function OrphanNodes(t: Tables, rows: seq<NodeRun>, only: Option<NodeRun>): (after: Tables)
    ensures Framed(t, after) && Apart(t, after) && after.run == t.run
  {
    if rows == [] then t else
      var r := rows[|rows| - 1];
      var before := OrphanNodes(t, rows[..|rows| - 1], only);
      if only.Some? && only.value != r then before
      else MoveNode(before, r, Row(before.nodes, r).status, Row(before.nodes, r).(status := NodeStatus.Orphaned, waitsFor := None))
  }

  ghost function Orphan(t: Tables, c: Call, rows: seq<NodeRun>, only: Option<NodeRun>): (after: Result<Tables>)
    ensures after.Ok? ==> Framed(t, after.value) && Apart(t, after.value)
  {
    var valid := MasterValid(t.master, c.lease, c.now);
    :- Need(valid, Fault.LeaseLost);
    if RunDone(t.run.status) && !t.run.status.Orphaned? then Ok(t) else
      :- Need(Fetched(rows, Uncertain(t.nodes)), Fault.Invalid);
      var swept := OrphanNodes(t, rows, only);
      Ok(if t.run.status.Orphaned? then swept else MoveRun(swept, t.run.status, RunStatus.Orphaned))
  }

  function StopTask(t: Tables, r: NodeRun): (after: Tables)
    ensures Framed(t, after) && Apart(t, after) && after.run == t.run
  {
    if r in t.tasks && (t.tasks[r].status.Pending? || t.tasks[r].status.Running? || t.tasks[r].status.PrivilegeRequested?)
    then t.(tasks := t.tasks[r := t.tasks[r].(status := TaskStatus.Cancelled)]) else t
  }

  function CancelNodes(t: Tables, rows: seq<NodeRun>): (after: Tables)
    ensures Framed(t, after) && Apart(t, after) && after.run == t.run
  {
    if rows == [] then t else
      var r := rows[|rows| - 1];
      var before := StopTask(CancelNodes(t, rows[..|rows| - 1]), r);
      MoveNode(before, r, Row(before.nodes, r).status, NodeRow(NodeStatus.Cancelled, Some(Outcome.Cancelled), None))
  }
}
