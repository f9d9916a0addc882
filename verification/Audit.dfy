/** The event log as an audit trail: folding a row's events, each checked to
    start where the last one ended, gives the row's current state. */
module Audit {
  import opened Graphs
  import opened Wrappers
  import opened Records
  import opened Scheduling

  /** The state a log tells: not yet created, reached, or contradictory. */
  datatype Told<+T> = Absent | At(state: T) | Broken

  datatype NodeState = NodeState(status: NodeStatus, outcome: Option<Outcome>)

  datatype ApprovalState = ApprovalState(status: ApprovalStatus, version: nat)

  function TellNode(log: seq<Entry>, r: NodeRun): Told<NodeState> {
    if log == [] then At(NodeState(NodeStatus.Pending, None)) else
      var before, e := TellNode(log[..|log| - 1], r), log[|log| - 1].event;
      if !(e.NodeMoved? && e.nodeRun == r) then before
      else if before.At? && before.state.status == e.nodeWas then At(NodeState(e.nodeIs, e.outcome))
      else Broken
  }

  function TellRun(log: seq<Entry>): Told<RunStatus> {
    if log == [] then Absent else
      var before, e := TellRun(log[..|log| - 1]), log[|log| - 1].event;
      if e.RunCreated? then (if before.Absent? then At(e.status) else Broken)
      else if e.RunMoved? then (if before == At(e.runWas) then At(e.runIs) else Broken)
      else before
  }

  function TellApproval(log: seq<Entry>, a: int): Told<ApprovalState> {
    if log == [] then Absent else
      var before, e := TellApproval(log[..|log| - 1], a), log[|log| - 1].event;
      if !(e.ApprovalMoved? && e.approval == a) then before
      else if e.approvalWas.None? then (if before.Absent? then At(ApprovalState(e.approvalIs, e.version)) else Broken)
      else if before.At? && before.state.status == e.approvalWas.value && e.version == before.state.version + 1
      then At(ApprovalState(e.approvalIs, e.version))
      else Broken
  }

  // ---------------------------------------------------------------- agreement with the rows

  function NodeNow(nodes: Rows, r: NodeRun): NodeState {
    if r in nodes then NodeState(nodes[r].status, nodes[r].outcome) else NodeState(NodeStatus.Pending, None)
  }

  function ApprovalNow(approvals: map<int, ApprovalRow>, a: int): Told<ApprovalState> {
    if a in approvals then At(ApprovalState(approvals[a].status, approvals[a].version)) else Absent
  }

  ghost predicate NodesTold(log: seq<Entry>, nodes: Rows) {
    forall r :: TellNode(log, r) == At(NodeNow(nodes, r))
  }

  ghost predicate ApprovalsTold(log: seq<Entry>, approvals: map<int, ApprovalRow>) {
    forall a :: TellApproval(log, a) == ApprovalNow(approvals, a)
  }

  /** Sequence numbers 1, 2, 3, ... and Master tokens that never fall. */
  ghost predicate Numbered(log: seq<Entry>, nextSeq: nat, token: nat) {
    && nextSeq == |log| + 1
    && (forall i | 0 <= i < |log| :: log[i].number == i + 1 && log[i].token <= token)
    && (forall i, j | 0 <= i < j < |log| :: log[i].token <= log[j].token)
  }

  /** The status changes a node run can make. */
  predicate NodeEdge(was: NodeStatus, next: NodeStatus) {
    match was
    case Pending => next.Ready? || next.Skipped? || next.Cancelled?
    case Ready => next.Running? || next.Cancelled?
    case Running => (NodeDone(next) && !next.Skipped? && !next.Superseded?) || next.WaitingApproval?
    case WaitingApproval => next.Ready? || next.Completed? || next.Superseded? || next.Cancelled? || next.Orphaned?
    case _ => false
  }

  /** Node events follow the edges, and workspace tokens were issued by the lock. */
  ghost predicate Lawful(log: seq<Entry>, token: nat) {
    forall i | 0 <= i < |log| :: Rightful(log[i].event, token)
  }

  predicate Rightful(e: Event, token: nat) {
    && (e.TaskMoved? && e.fence.Some? ==> e.fence.value <= token)
    && (e.NodeMoved? ==> NodeEdge(e.nodeWas, e.nodeIs))
  }

  ghost predicate Audited(t: Tables) {
    Consistent(t.log, t.nextSeq, t.run.status, t.nodes, t.approvals, MasterToken(t), LockToken(t))
  }

  ghost predicate Consistent(log: seq<Entry>, nextSeq: nat, status: RunStatus, nodes: Rows, approvals: map<int, ApprovalRow>,
      masterToken: nat, lockToken: nat)
  {
    && NodesTold(log, nodes) && TellRun(log) == At(status) && ApprovalsTold(log, approvals)
    && Numbered(log, nextSeq, masterToken) && Lawful(log, lockToken)
  }

  // ---------------------------------------------------------------- appending one event

  lemma {:induction false} TellSnoc(log: seq<Entry>, x: Entry)
    ensures (log + [x])[..|log|] == log
    ensures forall r :: !(x.event.NodeMoved? && x.event.nodeRun == r) ==> TellNode(log + [x], r) == TellNode(log, r)
    ensures forall a :: !(x.event.ApprovalMoved? && x.event.approval == a) ==> TellApproval(log + [x], a) == TellApproval(log, a)
    ensures !x.event.RunCreated? && !x.event.RunMoved? ==> TellRun(log + [x]) == TellRun(log)
  {
    assert (log + [x])[..|log|] == log;
  }

  lemma NumberedSnoc(t: Tables, e: Event)
    requires Numbered(t.log, t.nextSeq, MasterToken(t)) && Lawful(t.log, LockToken(t)) && Rightful(e, LockToken(t))
    ensures Numbered(Log(t, e).log, Log(t, e).nextSeq, MasterToken(Log(t, e))) && Lawful(Log(t, e).log, LockToken(Log(t, e)))
  {
  }

  predicate Silent(e: Event) {
    !e.NodeMoved? && !e.ApprovalMoved? && !e.RunCreated? && !e.RunMoved?
  }

  lemma LogAudited(t: Tables, e: Event)
    requires Audited(t) && Silent(e) && Rightful(e, LockToken(t))
    ensures Audited(Log(t, e))
  {
    TellSnoc(t.log, Entry(t.nextSeq, MasterToken(t), e));
    NumberedSnoc(t, e);
  }

  lemma MoveTaskAudited(t: Tables, r: NodeRun, was: Option<TaskStatus>, row: TaskRow, fence: Option<nat>)
    requires Audited(t) && (fence.Some? ==> fence.value <= LockToken(t))
    ensures Audited(MoveTask(t, r, was, row, fence))
  {
    LogAudited(t.(tasks := t.tasks[r := row]), TaskMoved(r, was, row.status, fence));
  }

  lemma MoveNodeAudited(t: Tables, r: NodeRun, was: NodeStatus, row: NodeRow)
    requires Audited(t) && r in t.nodes && t.nodes[r].status == was && NodeEdge(was, row.status)
    ensures Audited(MoveNode(t, r, was, row))
  {
    var u := MoveNode(t, r, was, row);
    var x := Entry(t.nextSeq, MasterToken(t), NodeMoved(r, was, row.status, row.outcome));
    TellSnoc(t.log, x);
    NumberedSnoc(t, x.event);
    forall s ensures TellNode(u.log, s) == At(NodeNow(u.nodes, s)) {
      assert TellNode(t.log, s) == At(NodeNow(t.nodes, s));
    }
  }

  lemma MoveRunAudited(t: Tables, was: RunStatus, next: RunStatus)
    requires Audited(t) && t.run.status == was
    ensures Audited(MoveRun(t, was, next))
  {
    var x := Entry(t.nextSeq, MasterToken(t), RunMoved(was, next));
    TellSnoc(t.log, x);
    NumberedSnoc(t, x.event);
  }

  lemma ApprovalAudited(t: Tables, a: int, row: ApprovalRow, was: Option<ApprovalStatus>)
    requires Audited(t)
    requires was == if a in t.approvals then Some(t.approvals[a].status) else None
    requires a in t.approvals ==> row.version == t.approvals[a].version + 1
    ensures Audited(Log(t.(approvals := t.approvals[a := row]), ApprovalMoved(a, was, row.status, row.version)))
  {
    var u := Log(t.(approvals := t.approvals[a := row]), ApprovalMoved(a, was, row.status, row.version));
    var x := Entry(t.nextSeq, MasterToken(t), ApprovalMoved(a, was, row.status, row.version));
    TellSnoc(t.log, x);
    NumberedSnoc(t, x.event);
    forall b ensures TellApproval(u.log, b) == ApprovalNow(u.approvals, b) {
      assert TellApproval(t.log, b) == ApprovalNow(t.approvals, b);
    }
  }

  // ---------------------------------------------------------------- reconciling

  lemma {:induction false} PassAudited(seen: Rows, due: map<int, NodeStatus>, order: seq<int>, t: Tables)
    requires t.nodes == seen && Audited(t) && Distinct(order)
    requires forall n | n in due ::
      Latest(seen, n) in seen && LatestRow(seen, n).status.Pending? && (due[n].Ready? || due[n].Skipped?)
    ensures Audited(Pass(seen, due, order, t))
  {
    if order != [] {
      var n, init := order[|order| - 1], order[..|order| - 1];
      PassAudited(seen, due, init, t);
      PassRows(seen, due, init, t);
      assert n !in init;
      if n in due {
        MoveNodeAudited(Pass(seen, due, init, t), Latest(seen, n), NodeStatus.Pending, LatestRow(seen, n).(status := due[n]));
      }
    }
  }

  lemma {:induction false} PassesAudited(t: Tables)
    requires Audited(t) && Acyclic(Ids(t.graph), Links(t.graph))
    ensures Audited(Passes(t))
    decreases PendingRows(t.nodes)
  {
    if Moves(t.graph, t.nodes) {
      OrderCoversIffAcyclic(Ids(t.graph), Links(t.graph));
      DueRows(t.graph, t.nodes);
      PassAudited(t.nodes, Due(t.graph, t.nodes), GraphOrder(t.graph), t);
      PassShrinks(t);
      PassesAudited(PassOver(t));
    }
  }
}
