/** What every step keeps about the run, its node rows and its log, under the
    steps of runs, tasks and ChangeSets. */
module RunInvariant {
  import opened Graphs
  import opened Wrappers
  import opened Records
  import opened Leases
  import opened Scheduling
  import opened Meaning
  import opened WorkflowRuns
  import opened Approvals
  import opened ChangeSets
  import opened Audit

  // ---------------------------------------------------------------- invariants

  ghost predicate Compiled(g: Graph) {
    WellFormed(g) && Acyclic(Ids(g), Links(g)) && OutputOf(g.nodes) in Ids(g)
  }

  /** One row per node, or two of which the first is superseded and the second
      is past pending; every task belongs to a row. */
  ghost predicate Rowed(g: Graph, nodes: Rows, tasks: map<NodeRun, TaskRow>) {
    && (forall n | n in Ids(g) :: NodeRun(n, 1) in nodes)
    && (forall r | r in nodes :: r.node in Ids(g) && 1 <= r.attempt <= 2)
    && (forall r | r in nodes && r.attempt == 2 :: NodeRun(r.node, 1) in nodes && nodes[NodeRun(r.node, 1)].status.Superseded?)
    && (forall r | r in nodes && r.attempt == 2 :: !nodes[r].status.Pending? && !nodes[r].status.Superseded?)
    && (forall r | r in nodes && nodes[r].status.Superseded? :: Next(r) in nodes)
    && (forall r | r in tasks :: r in nodes)
  }

  predicate Plain(row: NodeRow) {
    (!NodeDone(row.status) ==> row.outcome.None?) && (row.waitsFor.Some? <==> row.status.WaitingApproval?)
  }

  ghost predicate Core(t: Tables) {
    && Compiled(t.graph) && Rowed(t.graph, t.nodes, t.tasks)
    && (forall r | r in t.nodes :: Plain(t.nodes[r]))
    && Audited(t)
  }

  ghost predicate NoneWaits(nodes: Rows) {
    forall r | r in nodes :: !nodes[r].status.WaitingApproval?
  }

  ghost predicate OnlyWaits(nodes: Rows, r: NodeRun) {
    && r in nodes && nodes[r].status.WaitingApproval?
    && forall s | s in nodes && nodes[s].status.WaitingApproval? :: s == r
  }

  /** A waiting run has exactly one waiting node; unless orphaned, no other run
      has any. */
  ghost predicate Waits(run: RunRow, nodes: Rows) {
    && (run.status.WaitingApproval? ==> exists r :: OnlyWaits(nodes, r))
    && (!run.status.WaitingApproval? && !run.status.Orphaned? ==> NoneWaits(nodes))
  }

  /** Cancellation is requested and completed at once, never while a merge is
      being finalized; a run that ended has the status its nodes imply. */
  ghost predicate Flags(g: Graph, run: RunRow, nodes: Rows) {
    && (run.cancelRequested <==> run.status.Cancelled?)
    && !(run.cancelRequested && run.mergeFinalizing)
    && (RunDone(run.status) && !run.status.Orphaned? ==> AllDone(nodes))
    && (Judged(run.status) ==> run.status == FinalStatus(g, nodes))
  }

  predicate Judged(s: RunStatus) {
    s.Completed? || s.Failed? || s.Blocked?
  }

  ghost predicate RunKept(t: Tables) {
    Core(t) && Waits(t.run, t.nodes) && Flags(t.graph, t.run, t.nodes)
  }

  // ---------------------------------------------------------------- what a step leaves alone

  /** No row appears or leaves, terminal rows stay, no new wait begins. */
  ghost predicate Steady(was: Rows, nodes: Rows) {
    && nodes.Keys == was.Keys
    && (forall r | r in was && NodeDone(was[r].status) :: nodes[r] == was[r])
    && (forall r | r in nodes && nodes[r].waitsFor.Some? :: nodes[r].waitsFor == was[r].waitsFor)
  }

  // ---------------------------------------------------------------- single writes

  lemma LogCore(t: Tables, e: Event)
    requires Core(t) && Silent(e) && Rightful(e, LockToken(t))
    ensures Core(Log(t, e))
  {
    hide Consistent, Compiled;
    LogAudited(t, e);
  }

  lemma RowedMove(g: Graph, nodes: Rows, tasks: map<NodeRun, TaskRow>, r: NodeRun, row: NodeRow)
    requires Rowed(g, nodes, tasks) && r in nodes && NodeEdge(nodes[r].status, row.status) && !row.status.Superseded?
    ensures Rowed(g, nodes[r := row], tasks)
  {
  }

  lemma NodeCore(t: Tables, r: NodeRun, was: NodeStatus, row: NodeRow)
    requires Core(t) && r in t.nodes && t.nodes[r].status == was
    requires NodeEdge(was, row.status) && !row.status.Superseded? && Plain(row)
    ensures Core(MoveNode(t, r, was, row))
    ensures row.waitsFor.None? ==> Steady(t.nodes, MoveNode(t, r, was, row).nodes)
  {
    hide Consistent, Compiled, Rowed;
    MoveNodeAudited(t, r, was, row);
    RowedMove(t.graph, t.nodes, t.tasks, r, row);
  }

  lemma RunCore(t: Tables, was: RunStatus, next: RunStatus)
    requires Core(t) && t.run.status == was
    ensures Core(MoveRun(t, was, next))
  {
    hide Consistent, Compiled;
    MoveRunAudited(t, was, next);
  }

  lemma TaskCore(t: Tables, r: NodeRun, was: Option<TaskStatus>, row: TaskRow, fence: Option<nat>)
    requires Core(t) && r in t.nodes && (fence.Some? ==> fence.value <= LockToken(t))
    ensures Core(MoveTask(t, r, was, row, fence))
  {
    hide Consistent, Compiled;
    MoveTaskAudited(t, r, was, row, fence);
  }

  /** What passes do to one row. */
  ghost predicate Settles(was: Rows, nodes: Rows, r: NodeRun)
    requires r in was && r in nodes
  {
    || nodes[r] == was[r]
    || (was[r].status.Pending? && nodes[r] == was[r].(status := nodes[r].status)
        && (nodes[r].status.Ready? || nodes[r].status.Skipped?))
  }

  lemma PassesSettle(t: Tables)
    ensures Passes(t).nodes.Keys == t.nodes.Keys
    ensures forall r | r in t.nodes :: Settles(t.nodes, Passes(t).nodes, r)
  {
    PassesPartial(t.nodes, t);
    forall r | r in t.nodes ensures Settles(t.nodes, Passes(t).nodes, r) {
      if Passes(t).nodes[r] != t.nodes[r] { assert DueIn(t.graph, t.nodes, Passes(t).nodes, r); }
    }
  }

  lemma SettledRows(g: Graph, tasks: map<NodeRun, TaskRow>, was: Rows, nodes: Rows)
    requires nodes.Keys == was.Keys && forall r | r in was :: Settles(was, nodes, r)
    ensures Rowed(g, was, tasks) ==> Rowed(g, nodes, tasks)
  {
  }

  lemma SettledPlain(was: Rows, nodes: Rows)
    requires nodes.Keys == was.Keys && forall r | r in was :: Settles(was, nodes, r)
    requires forall r | r in was :: Plain(was[r])
    ensures Steady(was, nodes) && (NoneWaits(was) ==> NoneWaits(nodes))
    ensures forall r | r in nodes :: Plain(nodes[r])
  {
  }

  lemma PassesRows(t: Tables)
    requires Core(t)
    ensures Rowed(t.graph, Passes(t).nodes, t.tasks) && Steady(t.nodes, Passes(t).nodes)
    ensures forall r | r in Passes(t).nodes :: Plain(Passes(t).nodes[r])
    ensures NoneWaits(t.nodes) ==> NoneWaits(Passes(t).nodes)
  {
    hide Consistent, Compiled, Passes, Rowed;
    PassesSettle(t);
    SettledRows(t.graph, t.tasks, t.nodes, Passes(t).nodes);
    SettledPlain(t.nodes, Passes(t).nodes);
  }

  lemma FinishKept(t: Tables)
    requires Core(t) && t.run.status.Running? && !t.run.cancelRequested && NoneWaits(t.nodes)
    ensures RunKept(Finish(t)) && Finish(t).nodes == t.nodes
    ensures !Finish(t).run.status.Pending? && !Finish(t).run.status.Cancelled?
  {
    hide Consistent, Compiled, Rowed, FinalStatus, NoneWaits;
    if AllDone(t.nodes) { RunCore(t, RunStatus.Running, FinalStatus(t.graph, t.nodes)); }
  }

  lemma PassesCore(t: Tables)
    requires Core(t)
    ensures Core(Passes(t))
  {
    hide Consistent, Passes, Rowed, Plain, WellFormed, Acyclic;
    PassesAudited(t);
    PassesRows(t);
  }

  lemma ReconciledKept(t: Tables)
    requires Core(t) && t.run.status.Running? && !t.run.cancelRequested
    requires NoneWaits(t.nodes)
    ensures RunKept(Reconciled(t)) && Steady(t.nodes, Reconciled(t).nodes)
    ensures var u := Reconciled(t); u == t.(nodes := u.nodes, run := t.run.(status := u.run.status), log := u.log, nextSeq := u.nextSeq)
    ensures !Reconciled(t).run.status.Pending? && !Reconciled(t).run.status.Cancelled?
  {
    hide Core, RunKept, Passes, Steady, NoneWaits, FinalStatus;
    PassesCore(t);
    PassesRows(t);
    FinishKept(Passes(t));
  }

  // ---------------------------------------------------------------- scheduling steps

  lemma StartKept(t: Tables, c: Call)
    requires RunKept(t) && Start(t, c).Ok?
    ensures RunKept(Start(t, c).value) && Steady(t.nodes, Start(t, c).value.nodes)
    ensures var u := Start(t, c).value; u == t.(nodes := u.nodes, run := t.run.(status := u.run.status), log := u.log, nextSeq := u.nextSeq)
  {
    hide Consistent, Compiled, Rowed, Reconciled;
    if t.run.status.Pending? {
      RunCore(t, RunStatus.Pending, RunStatus.Running);
      ReconciledKept(MoveRun(t, RunStatus.Pending, RunStatus.Running));
    } else if t.run.status.Running? {
      ReconciledKept(t);
    }
  }

  lemma {:induction false} FirstReadyIs(nodes: Rows, order: seq<int>)
    ensures var f := FirstReady(nodes, order); f.Some? ==> f.value in nodes && nodes[f.value].status.Ready?
  {
    if order != [] { FirstReadyIs(nodes, order[1..]); }
  }

  lemma ClaimKept(t: Tables, c: Call)
    requires RunKept(t) && Claim(t, c).Ok?
    ensures RunKept(Claim(t, c).value) && Steady(t.nodes, Claim(t, c).value.nodes)
    ensures var u := Claim(t, c).value; u == t.(nodes := u.nodes, log := u.log, nextSeq := u.nextSeq)
  {
    hide Consistent, Compiled, Rowed, Reconciled;
    var next := FirstReady(t.nodes, GraphOrder(t.graph));
    FirstReadyIs(t.nodes, GraphOrder(t.graph));
    if t.run.status.Running? && next.Some? {
      NodeCore(t, next.value, NodeStatus.Ready, t.nodes[next.value].(status := NodeStatus.Running));
    }
  }

  lemma CompleteKept(t: Tables, c: Call, r: NodeRun, v: Verdict, hasError: bool)
    requires RunKept(t) && Complete(t, c, r, v, hasError).Ok?
    ensures RunKept(Complete(t, c, r, v, hasError).value) && Steady(t.nodes, Complete(t, c, r, v, hasError).value.nodes)
  {
    hide Consistent, Compiled, Rowed, Reconciled;
    NodeCore(t, r, NodeStatus.Running, NodeRow(v.status, v.outcome, None));
  }

  // ---------------------------------------------------------------- waiting and resuming

  lemma WaitKept(t: Tables, r: NodeRun, a: Awaited)
    requires RunKept(t) && r in t.nodes && t.nodes[r].status.Running? && t.run.status.Running? && !t.run.cancelRequested
    ensures RunKept(Wait(t, r, a))
  {
    hide Consistent, Compiled, Rowed, Reconciled;
    var row := t.nodes[r].(status := NodeStatus.WaitingApproval, waitsFor := Some(a));
    NodeCore(t, r, NodeStatus.Running, row);
    RunCore(MoveNode(t, r, NodeStatus.Running, row), RunStatus.Running, RunStatus.WaitingApproval);
    assert OnlyWaits(Wait(t, r, a).nodes, r);
  }

  lemma WakeCore(t: Tables, r: NodeRun, row: NodeRow)
    requires Core(t) && Waits(t.run, t.nodes) && r in t.nodes && t.nodes[r].status.WaitingApproval? && t.run.status.WaitingApproval?
    requires row.status.Ready? || row.status.Completed?
    requires Plain(row)
    ensures Core(Wake(t, r, row)) && Steady(t.nodes, Wake(t, r, row).nodes)
    ensures NoneWaits(Wake(t, r, row).nodes)
  {
    hide Consistent, Compiled, Rowed, Reconciled;
    NodeCore(t, r, NodeStatus.WaitingApproval, row);
    RunCore(MoveNode(t, r, NodeStatus.WaitingApproval, row), RunStatus.WaitingApproval, RunStatus.Running);
  }

  lemma ResumeKept(t: Tables, r: NodeRun, approved: bool)
    requires RunKept(t) && ResumeIn(t, r, approved).Ok?
    ensures RunKept(ResumeIn(t, r, approved).value) && Steady(t.nodes, ResumeIn(t, r, approved).value.nodes)
    ensures var u := ResumeIn(t, r, approved).value; u == t.(nodes := u.nodes, run := t.run.(status := u.run.status), log := u.log, nextSeq := u.nextSeq)
    ensures NoneWaits(ResumeIn(t, r, approved).value.nodes)
    ensures !RunDone(t.run.status)
  {
    hide Consistent, Compiled, Rowed, Reconciled;
    if t.run.status.WaitingApproval? {
      if approved {
        WakeCore(t, r, NodeRow(NodeStatus.Ready, None, None));
      } else {
        WakeCore(t, r, REJECTED);
        ReconciledKept(Wake(t, r, REJECTED));
      }
    } else if !approved {
      NodeCore(t, r, NodeStatus.Running, REJECTED);
      ReconciledKept(MoveNode(t, r, NodeStatus.Running, REJECTED));
    }
  }

  lemma EnterWaitingKept(t: Tables, c: Call, r: NodeRun, a: int)
    requires RunKept(t) && EnterWaiting(t, c, r, a).Ok?
    ensures RunKept(EnterWaiting(t, c, r, a).value)
  {
    hide Consistent, Compiled, Rowed, Reconciled;
    if a in t.approvals && Decided(t.approvals[a].status) {
      ResumeKept(t, r, t.approvals[a].status.Approved?);
    } else {
      WaitKept(t, r, ForGate(a));
    }
  }

  lemma PrepareRetryKept(t: Tables, c: Call, r: NodeRun, a: int, w: WorkLease)
    requires RunKept(t) && PrepareRetry(t, c, r, a, w).Ok?
    ensures RunKept(PrepareRetry(t, c, r, a, w).value)
  {
    hide Consistent, Compiled, Rowed;
    var task := t.tasks[r];
    if task.status.Running? {
      TaskCore(t, r, Some(TaskStatus.Running), task.(status := TaskStatus.PrivilegeRequested), Some(w.token));
      WaitKept(MoveTask(t, r, Some(TaskStatus.Running), task.(status := TaskStatus.PrivilegeRequested), Some(w.token)), r, ForPrivilege(a));
    } else {
      WaitKept(t, r, ForPrivilege(a));
    }
  }

  // ---------------------------------------------------------------- tasks and ChangeSets

  lemma CreateTaskKept(t: Tables, c: Call, r: NodeRun, base: int)
    requires RunKept(t) && CreateTask(t, c, r, base).Ok?
    ensures RunKept(CreateTask(t, c, r, base).value)
  {
    hide Consistent, Compiled, Rowed;
    TaskCore(t, r, None, TaskRow(TaskStatus.Pending, base, None), None);
  }

  lemma StartTaskKept(t: Tables, c: Call, r: NodeRun, base: int)
    requires RunKept(t) && StartTask(t, c, r, base).Ok?
    ensures RunKept(StartTask(t, c, r, base).value)
  {
    hide Consistent, Compiled, Rowed;
    var inserted := MoveTask(t, r, None, TaskRow(TaskStatus.Pending, base, None), None);
    var made := if r in t.tasks then t else inserted;
    if r !in t.tasks { TaskCore(t, r, None, TaskRow(TaskStatus.Pending, base, None), None); }
    TaskCore(made, r, Some(TaskStatus.Pending), made.tasks[r].(status := TaskStatus.Running), None);
  }

  lemma FinishTaskKept(t: Tables, c: Call, r: NodeRun, target: TaskStatus, hasError: bool, w: Option<WorkLease>)
    requires RunKept(t) && FinishTask(t, c, r, target, hasError, w).Ok?
    ensures RunKept(FinishTask(t, c, r, target, hasError, w).value)
  {
    hide Consistent, Compiled, Rowed;
    TaskCore(t, r, Some(TaskStatus.Running), t.tasks[r].(status := target), if w.Some? then Some(w.value.token) else None);
  }

  lemma CaptureKept(t: Tables, c: Call, r: NodeRun, status: ChangeSetStatus, target: TaskStatus, hasError: bool, w: WorkLease)
    requires RunKept(t) && Capture(t, c, r, status, target, hasError, w).Ok?
    ensures RunKept(Capture(t, c, r, status, target, hasError, w).value)
  {
    hide Consistent, Compiled, Rowed;
    var made := t.(changeSets := t.changeSets[r := status]);
    LogCore(made, ChangeSetMoved(r, None, status));
    TaskCore(Log(made, ChangeSetMoved(r, None, status)), r, Some(TaskStatus.Running), t.tasks[r].(status := target), Some(w.token));
  }

  lemma TransitionKept(t: Tables, c: Call, r: NodeRun, was: ChangeSetStatus, next: ChangeSetStatus, w: Option<WorkLease>)
    requires RunKept(t) && Transition(t, c, r, was, next, w).Ok?
    ensures RunKept(Transition(t, c, r, was, next, w).value)
  {
    hide Consistent, Compiled, Rowed;
    LogCore(t.(changeSets := t.changeSets[r := next]), ChangeSetMoved(r, Some(was), next));
  }

  // ---------------------------------------------------------------- merging

  lemma FinalizeMergeKept(t: Tables, c: Call, r: NodeRun, cs: NodeRun, commit: int, w: WorkLease)
    requires RunKept(t) && FinalizeMerge(t, c, r, cs, commit, w).Ok?
    ensures RunKept(FinalizeMerge(t, c, r, cs, commit, w).value)
    ensures Steady(t.nodes, FinalizeMerge(t, c, r, cs, commit, w).value.nodes)
    ensures var u := FinalizeMerge(t, c, r, cs, commit, w).value;
      u == t.(nodes := u.nodes, run := u.run, log := u.log, nextSeq := u.nextSeq, head := commit,
              changeSets := t.changeSets[cs := ChangeSetStatus.Merged])
      && u.run.commit == commit && !u.run.status.Cancelled?
  {
    hide Consistent, Compiled, Rowed, Reconciled;
    var merged := t.(head := commit, run := t.run.(commit := commit, mergeFinalizing := false),
                     changeSets := t.changeSets[cs := ChangeSetStatus.Merged]);
    var row := NodeRow(NodeStatus.Completed, Some(Outcome.Success), None);
    NodeCore(merged, r, NodeStatus.Running, row);
    ReconciledKept(MoveNode(merged, r, NodeStatus.Running, row));
  }

  // ---------------------------------------------------------------- privilege decisions

  lemma NoRetryBeside(t: Tables, r: NodeRun)
    requires Core(t) && r in t.nodes && t.nodes[r].status.WaitingApproval?
    ensures Next(r) !in t.nodes
  {
    hide Consistent, Compiled;
  }

  lemma RejectPrivilegeKept(t: Tables, r: NodeRun)
    requires RunKept(t) && RejectPrivilegeIn(t, r).Ok?
    ensures r in t.nodes && r in t.tasks && RunKept(RejectPrivilegeIn(t, r).value) && Steady(t.nodes, RejectPrivilegeIn(t, r).value.nodes)
    ensures var u := RejectPrivilegeIn(t, r).value;
      u == t.(nodes := u.nodes, run := t.run.(status := u.run.status), log := u.log, nextSeq := u.nextSeq,
              tasks := t.tasks[r := t.tasks[r].(status := TaskStatus.Failed)])
    ensures RejectPrivilegeIn(t, r).value.nodes[r] == REJECTED && NoneWaits(RejectPrivilegeIn(t, r).value.nodes)
  {
    hide Consistent, Compiled, Reconciled, Rowed;
    NoRetryBeside(t, r);
    TaskCore(t, r, Some(TaskStatus.PrivilegeRequested), t.tasks[r].(status := TaskStatus.Failed), None);
    var failed := MoveTask(t, r, Some(TaskStatus.PrivilegeRequested), t.tasks[r].(status := TaskStatus.Failed), None);
    WakeCore(failed, r, REJECTED);
    ReconciledKept(Wake(failed, r, REJECTED));
  }

  function Retried(nodes: Rows, r: NodeRun): Rows {
    nodes[Next(r) := NodeRow(NodeStatus.Ready, None, None)][r := NodeRow(NodeStatus.Superseded, Some(Outcome.Cancelled), None)]
  }

  lemma RetriedRowed(g: Graph, nodes: Rows, tasks: map<NodeRun, TaskRow>, r: NodeRun, task: TaskRow)
    requires Rowed(g, nodes, tasks) && r in nodes && nodes[r].status.WaitingApproval? && r.attempt < 2
    ensures Rowed(g, Retried(nodes, r), tasks[Next(r) := task])
  {
    hide NodeDone;
    var after := Retried(nodes, r);
    assert r.attempt == 1 && after[r].status.Superseded? && after[Next(r)].status.Ready?;
    forall s | s in after && s.attempt == 2
      ensures NodeRun(s.node, 1) in after && after[NodeRun(s.node, 1)].status.Superseded? && !after[s].status.Pending? && !after[s].status.Superseded?
    {
      if s != Next(r) { assert s in nodes && NodeRun(s.node, 1) != r; }
    }
  }

  /** Supersede, add, bind and activate, as one change of the node rows. */
  lemma RetryRows(t: Tables, r: NodeRun)
    requires Core(t) && r in t.nodes && t.nodes[r].status.WaitingApproval? && r in t.tasks && MayRetry(t, r)
    ensures Rowed(t.graph, Retried(t.nodes, r), t.tasks[Next(r) := TaskRow(TaskStatus.Pending, t.tasks[r].base, None)])
    ensures forall s | s in Retried(t.nodes, r) :: Plain(Retried(t.nodes, r)[s])
  {
    hide Consistent, Compiled, Rowed;
    RetriedRowed(t.graph, t.nodes, t.tasks, r, TaskRow(TaskStatus.Pending, t.tasks[r].base, None));
  }

  /** Grants name tasks that are there, so none names a retry not yet created. */
  ghost predicate GrantsBound(t: Tables) {
    forall q | q in t.grants :: t.grants[q].target in t.tasks
  }

  lemma ApproveRequestAudited(t: Tables, q: int, approval: ApprovalRow, limit: int)
    requires RunKept(t) && ApproveRequest(t, q, approval, limit).Ok?
    ensures Audited(ApproveRequest(t, q, approval, limit).value)
  {
    hide Consistent, Compiled, Rowed, Flags;
    var r, target := approval.node, Next(approval.node);
    var approved := SetRequest(t, q, RequestStatus.Approved);
    LogAudited(t.(requests := t.requests[q := t.requests[q].(status := RequestStatus.Approved)]),
      RequestMoved(q, Some(RequestStatus.WaitingApproval), RequestStatus.Approved));
    assert target !in t.nodes;
    AddRowAudited(approved, r);
    var row := t.tasks[r].(status := TaskStatus.Cancelled);
    MoveTaskAudited(AddRetry(approved, r), r, Some(TaskStatus.PrivilegeRequested), row, None);
    var ended := MoveTask(AddRetry(approved, r), r, Some(TaskStatus.PrivilegeRequested), row, None);
    var superseded := NodeRow(NodeStatus.Superseded, Some(Outcome.Cancelled), None);
    MoveNodeAudited(ended, r, NodeStatus.WaitingApproval, superseded);
    var retried := MoveNode(ended, r, NodeStatus.WaitingApproval, superseded);
    var expires := if approval.expires < limit then approval.expires else limit;
    var grant := GrantRow(target, t.requests[q].subject, expires, None, false);
    BindAudited(retried, q, grant);
    var bound := BindGrant(retried, q, grant);
    var ready := bound.nodes[target].(status := NodeStatus.Ready);
    MoveNodeAudited(bound, target, NodeStatus.Pending, ready);
    MoveRunAudited(MoveNode(bound, target, NodeStatus.Pending, ready), RunStatus.WaitingApproval, RunStatus.Running);
  }

  lemma BindAudited(t: Tables, q: int, grant: GrantRow)
    requires Audited(t) && grant.target in t.tasks
    ensures Audited(BindGrant(t, q, grant))
  {
    hide Consistent;
    LogAudited(t.(grants := t.grants[q := grant],
                  tasks := t.tasks[grant.target := t.tasks[grant.target].(grant := Some(q))]), GrantChanged(q, None));
  }

  lemma AddRowAudited(t: Tables, r: NodeRun)
    requires Audited(t) && r in t.tasks && Next(r) !in t.nodes
    ensures Audited(AddRetry(t, r))
  {
    forall s ensures NodeNow(AddRetry(t, r).nodes, s) == NodeNow(t.nodes, s) {}
  }

  lemma NextIsNew(t: Tables, r: NodeRun)
    requires RunKept(t) && Next(r) !in t.nodes
    ensures Next(r) !in t.tasks
  {
    hide Consistent, Compiled, Waits, Flags;
  }

  /** What the approval of a privilege leaves: the waiting attempt superseded,
      its retry ready with the grant bound to it, and the run running. */
  lemma ApproveRequestLeaves(t: Tables, q: int, approval: ApprovalRow, limit: int)
    requires RunKept(t) && GrantsBound(t) && ApproveRequest(t, q, approval, limit).Ok?
    ensures var r, u := approval.node, ApproveRequest(t, q, approval, limit).value;
      && r in t.tasks && r in t.nodes && q in t.requests && Next(r) !in t.nodes && q !in t.grants
      && t.nodes[r].status.WaitingApproval? && t.run.status.WaitingApproval? && !t.run.cancelRequested && MayRetry(t, r)
      && t.requests[q].node == r && Asking(t, q) && t.tasks[r].status.PrivilegeRequested?
      && u == t.(nodes := u.nodes, tasks := u.tasks, run := t.run.(status := RunStatus.Running), log := u.log, nextSeq := u.nextSeq,
                 requests := u.requests, grants := u.grants)
      && u.nodes == Retried(t.nodes, r)
      && u.tasks == t.tasks[Next(r) := TaskRow(TaskStatus.Pending, t.tasks[r].base, Some(q))]
                           [r := t.tasks[r].(status := TaskStatus.Cancelled)]
      && u.requests == t.requests[q := t.requests[q].(status := RequestStatus.Approved)]
      && u.grants == t.grants[q := GrantRow(Next(r), t.requests[q].subject,
                                if approval.expires < limit then approval.expires else limit, None, false)]
  {
    hide Core, Waits, Flags;
    assert Next(approval.node) !in t.nodes;
    NextIsNew(t, approval.node);
  }

  lemma RetryWaits(t: Tables, r: NodeRun, nodes: Rows)
    requires Waits(t.run, t.nodes) && t.run.status.WaitingApproval? && r in t.nodes && t.nodes[r].status.WaitingApproval?
    requires nodes == Retried(t.nodes, r)
    ensures NoneWaits(nodes)
  {
  }

  lemma ApproveRequestKept(t: Tables, q: int, approval: ApprovalRow, limit: int)
    requires RunKept(t) && GrantsBound(t) && ApproveRequest(t, q, approval, limit).Ok?
    ensures RunKept(ApproveRequest(t, q, approval, limit).value)
  {
    hide Consistent, Compiled, Rowed, ApproveRequest, NoneWaits, FinalStatus, AllDone, MayRetry, Plain;
    var u := ApproveRequest(t, q, approval, limit).value;
    ApproveRequestAudited(t, q, approval, limit);
    ApproveRequestLeaves(t, q, approval, limit);
    RetryRows(t, approval.node);
    RetryWaits(t, approval.node, u.nodes);
    RowedTasks(u, t.tasks[Next(approval.node) := TaskRow(TaskStatus.Pending, t.tasks[approval.node].base, None)]);
  }

  lemma RowedTasks(t: Tables, tasks: map<NodeRun, TaskRow>)
    requires Rowed(t.graph, t.nodes, tasks) && t.tasks.Keys == tasks.Keys
    ensures Rowed(t.graph, t.nodes, t.tasks)
  {
  }
}
