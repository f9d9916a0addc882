/** What each step of the run, ChangeSet and lease repositories answers and
    leaves, said of rows and events alone: which check refuses it, and with which
    fault; and what is written when none does. */
module RunOutcomes {
  import opened Graphs
  import opened Wrappers
  import opened Records
  import opened Leases
  import opened Scheduling
  import opened Meaning
  import opened WorkflowRuns
  import opened ChangeSets
  import opened RunInvariant
  import opened Effects

  function Refused(r: Result<Tables>): Option<Fault> {
    if r.Ok? then None else Some(r.fault)
  }

  // ---------------------------------------------------------------- states

  lemma NodeEndings(s: NodeStatus)
    ensures NodeDone(s) <==> s in {NodeStatus.BlockedByGuard, NodeStatus.Failed, NodeStatus.Completed, NodeStatus.Skipped,
                                   NodeStatus.Superseded, NodeStatus.Cancelled, NodeStatus.Orphaned}
  {
  }

  lemma RunEndings(s: RunStatus)
    ensures RunDone(s) <==> s in {RunStatus.Blocked, RunStatus.Failed, RunStatus.Completed, RunStatus.Cancelled, RunStatus.Orphaned}
  {
  }

  /** The statuses and outcomes a handler may report together. */
  lemma LegalVerdicts(v: Verdict)
    ensures Legal(v) <==> v in {Verdict(NodeStatus.Completed, Some(Outcome.Success)), Verdict(NodeStatus.Completed, Some(Outcome.Matched)),
                                Verdict(NodeStatus.Completed, Some(Outcome.NotMatched)), Verdict(NodeStatus.Completed, Some(Outcome.Approved)),
                                Verdict(NodeStatus.Completed, Some(Outcome.Rejected)), Verdict(NodeStatus.Failed, Some(Outcome.Failure)),
                                Verdict(NodeStatus.BlockedByGuard, Some(Outcome.Blocked))}
  {
  }

  /** The transition table, edge by edge. */
  lemma TransitionTable(was: ChangeSetStatus, next: ChangeSetStatus)
    ensures Allowed(was, next) <==> (was, next) in {
      (ChangeSetStatus.Captured, ChangeSetStatus.GuardPassed), (ChangeSetStatus.Captured, ChangeSetStatus.GuardRejected),
      (ChangeSetStatus.Captured, ChangeSetStatus.AbandonedPartial), (ChangeSetStatus.Captured, ChangeSetStatus.Quarantined),
      (ChangeSetStatus.Captured, ChangeSetStatus.Cancelled),
      (ChangeSetStatus.GuardPassed, ChangeSetStatus.TestPassed), (ChangeSetStatus.GuardPassed, ChangeSetStatus.TestFailed),
      (ChangeSetStatus.GuardPassed, ChangeSetStatus.Stale), (ChangeSetStatus.GuardPassed, ChangeSetStatus.Cancelled),
      (ChangeSetStatus.TestPassed, ChangeSetStatus.PendingApproval), (ChangeSetStatus.TestPassed, ChangeSetStatus.PolicyRejected),
      (ChangeSetStatus.TestPassed, ChangeSetStatus.Stale), (ChangeSetStatus.TestPassed, ChangeSetStatus.Cancelled),
      (ChangeSetStatus.PendingApproval, ChangeSetStatus.Approved), (ChangeSetStatus.PendingApproval, ChangeSetStatus.Rejected),
      (ChangeSetStatus.PendingApproval, ChangeSetStatus.Stale), (ChangeSetStatus.PendingApproval, ChangeSetStatus.Cancelled),
      (ChangeSetStatus.Approved, ChangeSetStatus.Merged), (ChangeSetStatus.Approved, ChangeSetStatus.Stale),
      (ChangeSetStatus.Approved, ChangeSetStatus.Cancelled)}
    ensures Reserved(next) <==> next in {ChangeSetStatus.PendingApproval, ChangeSetStatus.Approved, ChangeSetStatus.Rejected,
                                         ChangeSetStatus.Merged, ChangeSetStatus.Cancelled}
  {
  }

  // ---------------------------------------------------------------- reconciling

  /** A pending node's row after reconciling, by its kind and its incoming edges. */
  lemma ReconciledRow(t: Tables, n: Node)
    requires WellFormed(t.graph) && Acyclic(Ids(t.graph), Links(t.graph)) && n in t.graph.nodes
    requires Latest(t.nodes, n.id) in t.nodes && LatestRow(t.nodes, n.id).status.Pending?
    ensures var rows := Reconciled(t).nodes;
      && rows.Keys == t.nodes.Keys
      && var settled := forall e | e in t.graph.edges && e.target == n.id :: NodeDone(LatestRow(rows, e.source).status);
         var carried := exists e :: e in t.graph.edges && e.target == n.id && Carries(e.cond, rows, e.source);
         LatestRow(rows, n.id) == LatestRow(t.nodes, n.id).(status :=
           if n.kind.Input? then NodeStatus.Ready
           else if !settled then NodeStatus.Pending
           else if carried then NodeStatus.Ready
           else NodeStatus.Skipped)
  {
    hide Acyclic, Passes, Want;
    PassesClosed(t);
    FoundIn(t.graph, n);
    var rows := Passes(t).nodes;
    assert n.id in Ids(t.graph);
    WantTable(t.graph, rows, n.id);
    var r := Latest(t.nodes, n.id);
    assert Latest(rows, n.id) == r;
    if rows[r] != t.nodes[r] { assert DueIn(t.graph, t.nodes, rows, r); }
  }

  /** An edge is taken on these outcomes of a source that was neither skipped nor
      superseded. */
  predicate Carries(c: Condition, rows: Rows, source: int) {
    var row := LatestRow(rows, source);
    !row.status.Skipped? && !row.status.Superseded? && row.outcome.Some? && (c, row.outcome.value) in CARRYING
  }

  lemma WantTable(g: Graph, rows: Rows, n: int)
    ensures Want(g, rows, n) ==
      if FindNode(g.nodes, n).kind.Input? then Some(NodeStatus.Ready)
      else if exists e :: e in g.edges && e.target == n && !NodeDone(LatestRow(rows, e.source).status) then None
      else if exists e :: e in g.edges && e.target == n && Carries(e.cond, rows, e.source) then Some(NodeStatus.Ready)
      else Some(NodeStatus.Skipped)
  {
    forall e | e in g.edges && e.target == n ensures Holds(e.cond, LatestRow(rows, e.source)) <==> Carries(e.cond, rows, e.source) {
      EdgeTable(e.cond, LatestRow(rows, e.source).status, LatestRow(rows, e.source).outcome);
    }
  }

  lemma FoundIn(g: Graph, n: Node)
    requires WellFormed(g) && n in g.nodes
    ensures FindNode(g.nodes, n.id) == n
  {
    var i :| 0 <= i < |g.nodes| && g.nodes[i] == n;
    FoundAt(g.nodes, i);
  }

  /** Once every row is terminal the run ends, by its output row first, then by
      whether any guard blocked; otherwise it goes on as it was. */
  lemma ReconciledStatus(t: Tables)
    requires t.run.status.Running?
    ensures var u := Reconciled(t); var out := Row(u.nodes, NodeRun(OutputOf(t.graph.nodes), 1));
      && u.run == t.run.(status := u.run.status)
      && (u.run.status.Running? <==> exists r :: r in u.nodes && !NodeDone(u.nodes[r].status))
      && (u.run.status.Completed? <==> (!u.run.status.Running? && out.status.Completed?
                                        && (out.outcome == Some(Outcome.Success) || out.outcome == Some(Outcome.Rejected))))
      && (u.run.status.Blocked? <==> (!u.run.status.Running? && !u.run.status.Completed?
                                      && exists r :: r in u.nodes && u.nodes[r].status.BlockedByGuard?))
      && (u.run.status.Failed? <==> !u.run.status.Running? && !u.run.status.Completed? && !u.run.status.Blocked?)
  {
    hide Passes;
  }

  lemma WriteNodes(g: Graph, n: Node, attempt: nat)
    requires WellFormed(g) && n in g.nodes
    ensures IsWrite(g, NodeRun(n.id, attempt)) <==> n.kind.AgentTask? && n.requiresWrite
  {
    FoundIn(g, n);
  }

  ghost predicate IsNewest(log: seq<Entry>, r: NodeRun, i: int) {
    0 <= i < |log| && forall j | i < j < |log| :: !(log[j].event.TaskMoved? && log[j].event.task == r)
  }

  /** The newest event of a task is its last one in the log. */
  lemma {:induction false} NewestTaskEvent(log: seq<Entry>, r: NodeRun)
    ensures LastTaskEvent(log, r).None? <==> forall i | 0 <= i < |log| :: !(log[i].event.TaskMoved? && log[i].event.task == r)
    ensures LastTaskEvent(log, r).Some? ==> exists i :: IsNewest(log, r, i) && Some(log[i].event) == LastTaskEvent(log, r)
  {
    if log != [] {
      var init := log[..|log| - 1];
      NewestTaskEvent(init, r);
      assert forall i | 0 <= i < |init| :: init[i] == log[i];
      if LastTaskEvent(init, r).Some? {
        var i :| IsNewest(init, r, i) && Some(init[i].event) == LastTaskEvent(init, r);
        if LastTaskEvent(log, r) == LastTaskEvent(init, r) && !(log[|init|].event.TaskMoved? && log[|init|].event.task == r) {
          assert IsNewest(log, r, i);
        }
      }
      if log[|init|].event.TaskMoved? && log[|init|].event.task == r { assert IsNewest(log, r, |init|); }
    }
  }

  /** The row looked up for a node is that of its highest attempt. */
  lemma LatestIsLast(g: Graph, nodes: Rows, tasks: map<NodeRun, TaskRow>, n: int)
    requires Rowed(g, nodes, tasks) && n in Ids(g)
    ensures Latest(nodes, n) in nodes && Latest(nodes, n).node == n
    ensures forall r | r in nodes && r.node == n :: r.attempt <= Latest(nodes, n).attempt
  {
  }

  // ---------------------------------------------------------------- scheduling steps

  lemma StartOutcome(t: Tables, c: Call) returns (w: Tables)
    ensures Refused(Start(t, c)) ==
      if !MasterValid(t.master, c.lease, c.now) then Some(Fault.LeaseLost)
      else if t.run.status.Pending? && t.run.cancelRequested then Some(Fault.Conflict)
      else None
    ensures Start(t, c).Ok? && t.run.status.Pending? ==>
      && w == t.(run := t.run.(status := RunStatus.Running), log := w.log, nextSeq := w.nextSeq)
      && Tells(t, w, [RunMoved(RunStatus.Pending, RunStatus.Running)]) && Start(t, c).value == Reconciled(w)
    ensures Start(t, c).Ok? && !t.run.status.Pending? ==> Start(t, c).value == if t.run.status.Running? then Reconciled(t) else t
  {
    hide Reconciled;
    w := MoveRun(t, RunStatus.Pending, RunStatus.Running);
  }

  lemma ClaimOutcome(t: Tables, c: Call)
    ensures Refused(Claim(t, c)) == if !MasterValid(t.master, c.lease, c.now) then Some(Fault.LeaseLost) else None
    ensures Claim(t, c).Ok? ==>
      var u, first := Claim(t, c).value, FirstReady(t.nodes, GraphOrder(t.graph));
      if t.run.status.Running? && !t.run.cancelRequested && first.Some? then
        && first.value in t.nodes
        && u == t.(nodes := t.nodes[first.value := t.nodes[first.value].(status := NodeStatus.Running)], log := u.log, nextSeq := u.nextSeq)
        && Tells(t, u, [NodeMoved(first.value, NodeStatus.Ready, NodeStatus.Running, t.nodes[first.value].outcome)])
      else u == t
  {
    hide FirstReady;
    FirstReadyIs(t.nodes, GraphOrder(t.graph));
  }

  /** The row is exactly the verdict, for every kind of node. */
  lemma CompleteOutcome(t: Tables, c: Call, r: NodeRun, v: Verdict, hasError: bool)
    ensures Refused(Complete(t, c, r, v, hasError)) ==
      if !Legal(v) || !(v.status.Completed? || hasError) then Some(Fault.Invalid)
      else if !MasterValid(t.master, c.lease, c.now) then Some(Fault.LeaseLost)
      else if r !in t.nodes then Some(Fault.NotFound)
      else if t.run.cancelRequested || !t.run.status.Running? then Some(Fault.Conflict)
      else if IsWrite(t.graph, r) && !WriteWindow(t, r, v.status.Completed?) then Some(Fault.Integrity)
      else if !t.nodes[r].status.Running? then Some(Fault.Conflict)
      else None
    ensures Complete(t, c, r, v, hasError).Ok? ==> Recorded(t, Complete(t, c, r, v, hasError).value, r, v)
  {
    hide IsWrite, Legal;
  }

  // ---------------------------------------------------------------- tasks

  function TaskFault(t: Tables, c: Call, r: NodeRun, base: int): Option<Fault> {
    if !MasterValid(t.master, c.lease, c.now) then Some(Fault.LeaseLost)
    else if r !in t.nodes then Some(Fault.NotFound)
    else if !t.nodes[r].status.Running? || !t.run.status.Running? || t.run.cancelRequested then Some(Fault.Conflict)
    else if t.run.commit != base then Some(Fault.Invalid)
    else None
  }

  lemma CreateTaskOutcome(t: Tables, c: Call, r: NodeRun, base: int)
    ensures Refused(CreateTask(t, c, r, base)) ==
      if TaskFault(t, c, r, base).Some? then TaskFault(t, c, r, base) else if r in t.tasks then Some(Fault.Conflict) else None
    ensures CreateTask(t, c, r, base).Ok? ==>
      var u := CreateTask(t, c, r, base).value;
      && u == t.(tasks := t.tasks[r := TaskRow(TaskStatus.Pending, base, None)], log := u.log, nextSeq := u.nextSeq)
      && Tells(t, u, [TaskMoved(r, None, TaskStatus.Pending, None)])
  {
  }

  lemma StartTaskOutcome(t: Tables, c: Call, r: NodeRun, base: int)
    ensures Refused(StartTask(t, c, r, base)) ==
      if TaskFault(t, c, r, base).Some? then TaskFault(t, c, r, base)
      else if r in t.tasks && (t.tasks[r].base != base || !t.tasks[r].status.Pending?) then Some(Fault.Conflict)
      else None
    ensures StartTask(t, c, r, base).Ok? ==>
      var u := StartTask(t, c, r, base).value;
      && u == t.(tasks := t.tasks[r := TaskRow(TaskStatus.Running, base, if r in t.tasks then t.tasks[r].grant else None)],
                 log := u.log, nextSeq := u.nextSeq)
      && (if r in t.tasks then Tells(t, u, [TaskMoved(r, Some(TaskStatus.Pending), TaskStatus.Running, None)])
          else Tells(t, u, [TaskMoved(r, None, TaskStatus.Pending, None), TaskMoved(r, Some(TaskStatus.Pending), TaskStatus.Running, None)]))
  {
    if StartTask(t, c, r, base).Ok? && r !in t.tasks {
      var made := t.tasks[r := TaskRow(TaskStatus.Pending, base, None)];
      assert made[r := TaskRow(TaskStatus.Running, base, None)] == t.tasks[r := TaskRow(TaskStatus.Running, base, None)];
    }
  }

  /** The lease is the one the source task's workspace was given under. */
  predicate Own(w: WorkLease, r: NodeRun) {
    w.holder.kind == OwnerKind.AgentTask && w.holder.operation == TaskOf(r)
  }

  lemma FinishTaskOutcome(t: Tables, c: Call, r: NodeRun, target: TaskStatus, hasError: bool, w: Option<WorkLease>)
    ensures Refused(FinishTask(t, c, r, target, hasError, w)) ==
      if target.Pending? || target.Running? then Some(Fault.Invalid)
      else if !target.Succeeded? && !target.PrivilegeRequested? && !hasError then Some(Fault.Invalid)
      else if !MasterValid(t.master, c.lease, c.now) then Some(Fault.LeaseLost)
      else if r !in t.tasks || r !in t.nodes then Some(Fault.NotFound)
      else if t.run.cancelRequested || !t.run.status.Running? || !t.nodes[r].status.Running? then Some(Fault.Conflict)
      else if !IsWrite(t.graph, r) && w.Some? then Some(Fault.Invalid)
      else if IsWrite(t.graph, r) && (w.None? || !Own(w.value, r)) then Some(Fault.Invalid)
      else if IsWrite(t.graph, r) && !LockValid(t.lock, w.value, c.now) then Some(Fault.LeaseLost)
      else if IsWrite(t.graph, r) && target.Succeeded? != (r in t.changeSets && t.changeSets[r].Captured?) then Some(Fault.Integrity)
      else if !t.tasks[r].status.Running? then Some(Fault.Conflict)
      else None
    ensures FinishTask(t, c, r, target, hasError, w).Ok? ==>
      var u := FinishTask(t, c, r, target, hasError, w).value;
      && u == t.(tasks := t.tasks[r := TaskRow(target, t.tasks[r].base, t.tasks[r].grant)], log := u.log, nextSeq := u.nextSeq)
      && Tells(t, u, [TaskMoved(r, Some(TaskStatus.Running), target, if w.Some? then Some(w.value.token) else None)])
  {
    hide IsWrite;
  }

  lemma CaptureOutcome(t: Tables, c: Call, r: NodeRun, status: ChangeSetStatus, target: TaskStatus, hasError: bool, w: WorkLease)
    ensures Refused(Capture(t, c, r, status, target, hasError, w)) ==
      if target.Pending? || target.Running? then Some(Fault.Invalid)
      else if target.Succeeded? && !(status.Captured? && !hasError) then Some(Fault.Invalid)
      else if !target.Succeeded? && !(status.AbandonedPartial? && hasError) then Some(Fault.Invalid)
      else if !MasterValid(t.master, c.lease, c.now) || !LockValid(t.lock, w, c.now) then Some(Fault.LeaseLost)
      else if !Own(w, r) then Some(Fault.Integrity)
      else if r !in t.tasks || r !in t.nodes then Some(Fault.NotFound)
      else if !t.tasks[r].status.Running? || !t.nodes[r].status.Running? || !t.run.status.Running? then Some(Fault.Integrity)
      else if t.tasks[r].base != t.run.commit then Some(Fault.Integrity)
      else if t.run.cancelRequested then Some(Fault.Conflict)
      else if !IsWrite(t.graph, r) then Some(Fault.Integrity)
      else if r in t.changeSets then Some(Fault.Conflict)
      else None
    ensures Capture(t, c, r, status, target, hasError, w).Ok? ==>
      var u := Capture(t, c, r, status, target, hasError, w).value;
      && u == t.(changeSets := t.changeSets[r := status], tasks := t.tasks[r := TaskRow(target, t.tasks[r].base, t.tasks[r].grant)],
                 log := u.log, nextSeq := u.nextSeq)
      && Tells(t, u, [ChangeSetMoved(r, None, status), TaskMoved(r, Some(TaskStatus.Running), target, Some(w.token))])
  {
    hide IsWrite;
  }

  lemma TransitionOutcome(t: Tables, c: Call, r: NodeRun, was: ChangeSetStatus, next: ChangeSetStatus, w: Option<WorkLease>)
    ensures Refused(Transition(t, c, r, was, next, w)) ==
      if !Allowed(was, next) then Some(Fault.Invalid)
      else if !MasterValid(t.master, c.lease, c.now) then Some(Fault.LeaseLost)
      else if r !in t.changeSets then Some(Fault.NotFound)
      else if w.Some? && !LockValid(t.lock, w.value, c.now) then Some(Fault.LeaseLost)
      else if t.changeSets[r] != was then Some(Fault.Conflict)
      else None
    ensures Transition(t, c, r, was, next, w).Ok? ==>
      var u := Transition(t, c, r, was, next, w).value;
      && u == t.(changeSets := t.changeSets[r := next], log := u.log, nextSeq := u.nextSeq)
      && Tells(t, u, [ChangeSetMoved(r, Some(was), next)])
  {
    hide Allowed;
  }

  // ---------------------------------------------------------------- waiting and resuming

  /** A gate that waits: its row, the run's status and two events, or the resume
      of a gate that was decided first. */
  lemma EnterOutcome(t: Tables, c: Call, r: NodeRun, a: int)
    ensures Refused(EnterWaiting(t, c, r, a)) ==
      if !MasterValid(t.master, c.lease, c.now) then Some(Fault.LeaseLost)
      else if r !in t.nodes then Some(Fault.NotFound)
      else if !t.nodes[r].status.Running? || !t.run.status.Running? || t.run.cancelRequested then Some(Fault.Conflict)
      else None
    ensures EnterWaiting(t, c, r, a).Ok? ==>
      if a in t.approvals && t.approvals[a].status.Approved? then EnterWaiting(t, c, r, a) == ResumeIn(t, r, true)
      else if a in t.approvals && t.approvals[a].status.Rejected? then EnterWaiting(t, c, r, a) == ResumeIn(t, r, false)
      else Parks(t, EnterWaiting(t, c, r, a).value, r, ForGate(a), [])
  {
    hide Reconciled;
  }

  /** Node and run wait together, after whatever else is told. */
  ghost predicate Parks(t: Tables, u: Tables, r: NodeRun, a: Awaited, before: seq<Event>) {
    && r in t.nodes
    && u == t.(nodes := t.nodes[r := NodeRow(NodeStatus.WaitingApproval, t.nodes[r].outcome, Some(a))],
               run := t.run.(status := RunStatus.WaitingApproval), tasks := u.tasks, log := u.log, nextSeq := u.nextSeq)
    && (before == [] ==> u.tasks == t.tasks)
    && Tells(t, u, before + [NodeMoved(r, NodeStatus.Running, NodeStatus.WaitingApproval, t.nodes[r].outcome),
                             RunMoved(RunStatus.Running, RunStatus.WaitingApproval)])
  }

  /** Node and run leave their wait together. */
  lemma WakeTells(t: Tables, r: NodeRun, row: NodeRow)
    ensures var w := Wake(t, r, row);
      && w == t.(nodes := t.nodes[r := row], run := t.run.(status := RunStatus.Running), log := w.log, nextSeq := w.nextSeq)
      && Tells(t, w, [NodeMoved(r, NodeStatus.WaitingApproval, row.status, row.outcome),
                      RunMoved(RunStatus.WaitingApproval, RunStatus.Running)])
  {
  }

  lemma NodeTells(t: Tables, r: NodeRun, was: NodeStatus, row: NodeRow)
    ensures var w := MoveNode(t, r, was, row);
      w == t.(nodes := t.nodes[r := row], log := w.log, nextSeq := w.nextSeq) && Tells(t, w, [NodeMoved(r, was, row.status, row.outcome)])
  {
  }

  /** A waiting gate and its run wake together; a gate decided before it waits
      just goes on, or ends rejected. */
  lemma ResumeOutcome(t: Tables, r: NodeRun, approved: bool) returns (w: Tables)
    ensures Refused(ResumeIn(t, r, approved)) ==
      if r !in t.nodes then Some(Fault.NotFound)
      else if t.nodes[r].status.WaitingApproval? && t.run.status.WaitingApproval?
      then if t.run.cancelRequested then Some(Fault.Conflict) else None
      else if t.nodes[r].status.Running? && t.run.status.Running?
      then if !approved && t.run.cancelRequested then Some(Fault.Conflict) else None
      else Some(Fault.Conflict)
    ensures ResumeIn(t, r, approved).Ok? ==>
      var u := ResumeIn(t, r, approved).value;
      && (t.run.status.WaitingApproval? ==>
            var row := if approved then NodeRow(NodeStatus.Ready, None, None) else NodeRow(NodeStatus.Completed, Some(Outcome.Rejected), None);
            && w == t.(nodes := t.nodes[r := row], run := t.run.(status := RunStatus.Running), log := w.log, nextSeq := w.nextSeq)
            && Tells(t, w, [NodeMoved(r, NodeStatus.WaitingApproval, row.status, row.outcome),
                            RunMoved(RunStatus.WaitingApproval, RunStatus.Running)])
            && u == if approved then w else Reconciled(w))
      && (!t.run.status.WaitingApproval? && approved ==> u == t)
      && (!t.run.status.WaitingApproval? && !approved ==>
            && w == t.(nodes := t.nodes[r := NodeRow(NodeStatus.Completed, Some(Outcome.Rejected), None)], log := w.log, nextSeq := w.nextSeq)
            && Tells(t, w, [NodeMoved(r, NodeStatus.Running, NodeStatus.Completed, Some(Outcome.Rejected))])
            && u == Reconciled(w))
  {
    hide Reconciled, Wake, MoveNode, Tells;
    WakeTells(t, r, NodeRow(NodeStatus.Ready, None, None));
    WakeTells(t, r, REJECTED);
    NodeTells(t, r, NodeStatus.Running, REJECTED);
    w := if t.run.status.WaitingApproval? then Wake(t, r, if approved then NodeRow(NodeStatus.Ready, None, None) else REJECTED)
         else MoveNode(t, r, NodeStatus.Running, REJECTED);
  }

  // ---------------------------------------------------------------- privilege retries

  lemma PrepareOutcome(t: Tables, c: Call, r: NodeRun, a: int, w: WorkLease)
    ensures Refused(PrepareRetry(t, c, r, a, w)) ==
      if !MasterValid(t.master, c.lease, c.now) then Some(Fault.LeaseLost)
      else if r !in t.nodes || r !in t.tasks then Some(Fault.NotFound)
      else if !Own(w, r) then Some(Fault.Invalid)
      else if !LockValid(t.lock, w, c.now) then Some(Fault.LeaseLost)
      else if t.run.cancelRequested || !t.nodes[r].status.Running? || !t.run.status.Running? then Some(Fault.Conflict)
      else if !t.tasks[r].status.Running? && !t.tasks[r].status.PrivilegeRequested? then Some(Fault.Conflict)
      else if r.attempt >= 2 || exists s :: s in t.nodes && s.node == r.node && s.attempt > r.attempt then Some(Fault.Conflict)
      else None
    ensures PrepareRetry(t, c, r, a, w).Ok? ==>
      var u := PrepareRetry(t, c, r, a, w).value;
      && u.tasks == t.tasks[r := TaskRow(TaskStatus.PrivilegeRequested, t.tasks[r].base, t.tasks[r].grant)]
      && Parks(t, u, r, ForPrivilege(a), if t.tasks[r].status.Running?
           then [TaskMoved(r, Some(TaskStatus.Running), TaskStatus.PrivilegeRequested, Some(w.token))] else [])
  {
    if PrepareRetry(t, c, r, a, w).Ok? && t.tasks[r].status.PrivilegeRequested? {
      assert t.tasks[r := TaskRow(TaskStatus.PrivilegeRequested, t.tasks[r].base, t.tasks[r].grant)] == t.tasks;
    }
  }

  /** The waiting attempt is superseded and a second one prepared, both with
      their tasks. */
  lemma ApproveOutcome(t: Tables, r: NodeRun)
    ensures Refused(ApprovePrivilegeIn(t, r)) ==
      if r !in t.nodes || r !in t.tasks then Some(Fault.NotFound)
      else if !t.nodes[r].status.WaitingApproval? || !t.run.status.WaitingApproval? || t.run.cancelRequested then Some(Fault.Conflict)
      else if !t.tasks[r].status.PrivilegeRequested? then Some(Fault.Conflict)
      else if r.attempt >= 2 || exists s :: s in t.nodes && s.node == r.node && s.attempt > r.attempt then Some(Fault.Conflict)
      else None
    ensures ApprovePrivilegeIn(t, r).Ok? ==>
      var u, next, task := ApprovePrivilegeIn(t, r).value, NodeRun(r.node, r.attempt + 1), t.tasks[r];
      && u == t.(nodes := t.nodes[next := NodeRow(NodeStatus.Pending, None, None)]
                                 [r := NodeRow(NodeStatus.Superseded, Some(Outcome.Cancelled), None)],
                 tasks := t.tasks[next := TaskRow(TaskStatus.Pending, task.base, None)][r := TaskRow(TaskStatus.Cancelled, task.base, task.grant)],
                 log := u.log, nextSeq := u.nextSeq)
      && Tells(t, u, [TaskMoved(r, Some(TaskStatus.PrivilegeRequested), TaskStatus.Cancelled, None),
                      NodeMoved(r, NodeStatus.WaitingApproval, NodeStatus.Superseded, Some(Outcome.Cancelled))])
  {
  }

  /** The source attempt ends rejected, its task failed; a retry prepared beside it
      is dropped with its task; then the run goes on and is reconciled. */
  lemma RejectOutcome(t: Tables, r: NodeRun) returns (w: Tables)
    ensures Refused(RejectPrivilegeIn(t, r)) ==
      if r !in t.nodes || r !in t.tasks then Some(Fault.NotFound)
      else if !t.nodes[r].status.WaitingApproval? || !t.run.status.WaitingApproval? || t.run.cancelRequested then Some(Fault.Conflict)
      else if !t.tasks[r].status.PrivilegeRequested? then Some(Fault.Conflict)
      else if HasRetry(t, r) && !t.nodes[NodeRun(r.node, r.attempt + 1)].status.Pending? then Some(Fault.Conflict)
      else None
    ensures RejectPrivilegeIn(t, r).Ok? ==> Rejects(t, w, r) && RejectPrivilegeIn(t, r).value == Reconciled(w)
  {
    hide Reconciled, EndRejected, Rejects;
    if r in t.tasks {
      w := EndRejected(t, r);
      EndedRejected(t, r);
    } else {
      w := t;
    }
  }

  ghost predicate Rejects(t: Tables, w: Tables, r: NodeRun)
    requires r in t.tasks
  {
    var next, task := NodeRun(r.node, r.attempt + 1), t.tasks[r];
    var ended := t.nodes[r := NodeRow(NodeStatus.Completed, Some(Outcome.Rejected), None)];
    var failed := t.tasks[r := TaskRow(TaskStatus.Failed, task.base, task.grant)];
    && w == t.(nodes := w.nodes, tasks := w.tasks, run := t.run.(status := RunStatus.Running), log := w.log, nextSeq := w.nextSeq)
    && Tells(t, w, [TaskMoved(r, Some(TaskStatus.PrivilegeRequested), TaskStatus.Failed, None),
                    NodeMoved(r, NodeStatus.WaitingApproval, NodeStatus.Completed, Some(Outcome.Rejected))]
         + (if HasRetry(t, r) then [NodeMoved(NodeRun(r.node, r.attempt + 1), NodeStatus.Pending, NodeStatus.Skipped, None)] else [])
         + [RunMoved(RunStatus.WaitingApproval, RunStatus.Running)])
    && if HasRetry(t, r) then
         && w.nodes == ended[next := NodeRow(NodeStatus.Skipped, None, None)]
         && w.tasks == (if failed[next].status.Pending? then failed[next := TaskRow(TaskStatus.Cancelled, failed[next].base, failed[next].grant)]
                        else failed)
       else w.nodes == ended && w.tasks == failed
  }

  lemma EndedRejected(t: Tables, r: NodeRun)
    requires r in t.tasks
    ensures Rejects(t, EndRejected(t, r), r)
  {
    hide Tells;
    EndedTells(t, r);
  }

  lemma EndedTells(t: Tables, r: NodeRun)
    requires r in t.tasks
    ensures Tells(t, EndRejected(t, r),
      [TaskMoved(r, Some(TaskStatus.PrivilegeRequested), TaskStatus.Failed, None),
       NodeMoved(r, NodeStatus.WaitingApproval, NodeStatus.Completed, Some(Outcome.Rejected))]
      + (if HasRetry(t, r) then [NodeMoved(NodeRun(r.node, r.attempt + 1), NodeStatus.Pending, NodeStatus.Skipped, None)] else [])
      + [RunMoved(RunStatus.WaitingApproval, RunStatus.Running)])
  {
  }

  predicate HasRetry(t: Tables, r: NodeRun) {
    NodeRun(r.node, r.attempt + 1) in t.nodes && NodeRun(r.node, r.attempt + 1) in t.tasks
  }

  lemma ActivateOutcome(t: Tables, r: NodeRun)
    ensures Refused(ActivateIn(t, r)) ==
      if r !in t.nodes || r !in t.tasks then Some(Fault.NotFound)
      else if t.nodes[r].status.Ready? then None
      else if !t.nodes[r].status.Pending? || !t.tasks[r].status.Pending? || t.run.cancelRequested then Some(Fault.Conflict)
      else None
    ensures ActivateIn(t, r).Ok? ==>
      var u := ActivateIn(t, r).value;
      if t.nodes[r].status.Ready? then u == t else
        var ready := t.nodes[r].(status := NodeStatus.Ready);
        && u == t.(nodes := t.nodes[r := ready], log := u.log, nextSeq := u.nextSeq,
                   run := if t.run.status.WaitingApproval? then t.run.(status := RunStatus.Running) else t.run)
        && Tells(t, u, [NodeMoved(r, NodeStatus.Pending, NodeStatus.Ready, ready.outcome)]
             + if t.run.status.WaitingApproval? then [RunMoved(RunStatus.WaitingApproval, RunStatus.Running)] else [])
  {
  }

  // ---------------------------------------------------------------- merging

  /** The running merge attempt, the latest of its kind. */
  ghost predicate Merging(t: Tables, r: NodeRun) {
    && r in t.nodes && t.nodes[r].status.Running? && FindNode(t.graph.nodes, r.node).kind == NodeKind.MergePatch
    && forall s | s in t.nodes && t.nodes[s].status.Running? && FindNode(t.graph.nodes, s.node).kind == NodeKind.MergePatch ::
         s.attempt <= r.attempt
  }

  lemma BeginMergeOutcome(t: Tables, c: Call, w: WorkLease, picked: NodeRun)
    ensures Refused(BeginMerge(t, c, w, picked)) ==
      if !MasterValid(t.master, c.lease, c.now) then Some(Fault.LeaseLost)
      else if w.holder.kind != OwnerKind.Merge || !Merging(t, picked) || w.holder.operation != Operation.NodeOf(picked) then Some(Fault.Invalid)
      else if !LockValid(t.lock, w, c.now) then Some(Fault.LeaseLost)
      else if !t.run.status.Running? || t.run.cancelRequested || t.run.mergeFinalizing then Some(Fault.Conflict)
      else None
    ensures BeginMerge(t, c, w, picked).Ok? ==>
      BeginMerge(t, c, w, picked).value == t.(run := RunRow(RunStatus.Running, false, true, t.run.commit))
  {
  }

  lemma ClearMergeOutcome(t: Tables, c: Call, w: WorkLease, picked: Option<NodeRun>)
    ensures Refused(ClearMerge(t, c, w, picked)) ==
      if !MasterValid(t.master, c.lease, c.now) then Some(Fault.LeaseLost)
      else if w.holder.kind !in {OwnerKind.Merge, OwnerKind.Recovery} then Some(Fault.Invalid)
      else if w.holder.operation != Operation.RecoveryOfRun
              && !(picked.Some? && Merging(t, picked.value) && w.holder.operation == Operation.NodeOf(picked.value)) then Some(Fault.Invalid)
      else if !LockValid(t.lock, w, c.now) then Some(Fault.LeaseLost)
      else None
    ensures ClearMerge(t, c, w, picked).Ok? ==>
      ClearMerge(t, c, w, picked).value == t.(run := RunRow(t.run.status, t.run.cancelRequested, false, t.run.commit))
  {
  }

  lemma FinalizeOutcome(t: Tables, c: Call, r: NodeRun, cs: NodeRun, commit: int, w: WorkLease) returns (m: Tables)
    ensures Refused(FinalizeMerge(t, c, r, cs, commit, w)) ==
      if !MasterValid(t.master, c.lease, c.now) || !LockValid(t.lock, w, c.now) then Some(Fault.LeaseLost)
      else if r !in t.nodes then Some(Fault.NotFound)
      else if !t.nodes[r].status.Running? || !t.run.status.Running? || !t.run.mergeFinalizing || t.run.cancelRequested then Some(Fault.Conflict)
      else if !(w.holder.kind == OwnerKind.Merge && w.holder.operation == Operation.NodeOf(r))
              && !(w.holder.kind == OwnerKind.Recovery && w.holder.operation == Operation.RecoveryOfRun) then Some(Fault.Invalid)
      else if t.head != t.run.commit then Some(Fault.Conflict)
      else if cs !in t.changeSets || !t.changeSets[cs].Approved? then Some(Fault.Conflict)
      else None
    ensures FinalizeMerge(t, c, r, cs, commit, w).Ok? ==>
      && m == t.(head := commit, run := RunRow(RunStatus.Running, false, false, commit),
                 changeSets := t.changeSets[cs := ChangeSetStatus.Merged],
                 nodes := t.nodes[r := NodeRow(NodeStatus.Completed, Some(Outcome.Success), None)], log := m.log, nextSeq := m.nextSeq)
      && Tells(t, m, [NodeMoved(r, NodeStatus.Running, NodeStatus.Completed, Some(Outcome.Success))])
      && FinalizeMerge(t, c, r, cs, commit, w).value == Reconciled(m)
  {
    hide Reconciled;
    m := MoveNode(t.(head := commit, run := t.run.(commit := commit, mergeFinalizing := false),
                     changeSets := t.changeSets[cs := ChangeSetStatus.Merged]),
                  r, NodeStatus.Running, NodeRow(NodeStatus.Completed, Some(Outcome.Success), None));
  }

  // ---------------------------------------------------------------- orphaning and cancelling nodes

  /** The rows an orphaning call names. */
  predicate Meant(only: Option<NodeRun>, r: NodeRun) {
    only == None || only == Some(r)
  }

  function OrphanEvents(nodes: Rows, rows: seq<NodeRun>, only: Option<NodeRun>): seq<Event>
    requires forall r | r in rows :: r in nodes
  {
    if rows == [] then [] else
      var r := rows[|rows| - 1];
      OrphanEvents(nodes, rows[..|rows| - 1], only)
      + if Meant(only, r) then [NodeMoved(r, nodes[r].status, NodeStatus.Orphaned, nodes[r].outcome)] else []
  }

  lemma TellsMore(t: Tables, u: Tables, w: Tables, a: seq<Event>, b: seq<Event>)
    requires Tells(t, u, a) && Tells(u, w, b) && u.master == t.master
    ensures Tells(t, w, a + b)
  {
    forall i | 0 <= i < |a + b| ensures w.log[|t.log| + i]
      == Entry(t.nextSeq + i, if t.master.Some? then t.master.value.token else 0, (a + b)[i])
    {
      if i < |a| { assert w.log[..|u.log|][|t.log| + i] == u.log[|t.log| + i]; }
      else { assert w.log[|u.log| + (i - |a|)].event == b[i - |a|]; }
    }
    assert w.log[..|t.log|] == w.log[..|u.log|][..|t.log|];
  }

  lemma {:induction false} OrphanTells(t: Tables, rows: seq<NodeRun>, only: Option<NodeRun>)
    requires (forall r | r in rows :: r in t.nodes) && forall i, j | 0 <= i < j < |rows| :: rows[i] != rows[j]
    ensures Tells(t, OrphanNodes(t, rows, only), OrphanEvents(t.nodes, rows, only))
  {
    hide Tells;
    if rows != [] {
      var r, init := rows[|rows| - 1], rows[..|rows| - 1];
      assert rows == init + [r] && r !in init;
      OrphanTells(t, init, only);
      OrphanedRows(t, init, only);
      var w := OrphanNodes(t, init, only);
      if Meant(only, r) {
        NodeTells(w, r, w.nodes[r].status, w.nodes[r].(status := NodeStatus.Orphaned, waitsFor := None));
        TellsMore(t, w, OrphanNodes(t, rows, only), OrphanEvents(t.nodes, init, only),
          [NodeMoved(r, t.nodes[r].status, NodeStatus.Orphaned, t.nodes[r].outcome)]);
      } else {
        assert OrphanEvents(t.nodes, rows, only) == OrphanEvents(t.nodes, init, only);
      }
    } else {
      TellsNothing(t);
    }
  }

  lemma TellsNothing(t: Tables)
    ensures Tells(t, t, [])
  {
  }

  /** Only the lease is checked; every row and every event afterwards. */
  lemma OrphanOutcome(t: Tables, c: Call, rows: seq<NodeRun>, only: Option<NodeRun>)
    requires forall r :: r in rows <==> r in t.nodes && t.nodes[r].status in {NodeStatus.Running, NodeStatus.WaitingApproval}
    requires forall i, j | 0 <= i < j < |rows| :: rows[i] != rows[j]
    ensures Refused(Orphan(t, c, rows, only)) == if !MasterValid(t.master, c.lease, c.now) then Some(Fault.LeaseLost) else None
    ensures Orphan(t, c, rows, only).Ok? ==>
      var u := Orphan(t, c, rows, only).value;
      if RunDone(t.run.status) && !t.run.status.Orphaned? then u == t else
        && u == t.(nodes := u.nodes, run := t.run.(status := RunStatus.Orphaned), log := u.log, nextSeq := u.nextSeq)
        && u.nodes.Keys == t.nodes.Keys
        && (forall r | r in t.nodes ::
              u.nodes[r] == if r in rows && Meant(only, r) then NodeRow(NodeStatus.Orphaned, t.nodes[r].outcome, None) else t.nodes[r])
        && Tells(t, u, OrphanEvents(t.nodes, rows, only)
                       + if t.run.status.Orphaned? then [] else [RunMoved(t.run.status, RunStatus.Orphaned)])
  {
    hide OrphanNodes, Tells;
    OrphanedRows(t, rows, only);
    OrphanTells(t, rows, only);
    var w := OrphanNodes(t, rows, only);
    RunTells(w, t.run.status, RunStatus.Orphaned);
    TellsMore(t, w, MoveRun(w, t.run.status, RunStatus.Orphaned), OrphanEvents(t.nodes, rows, only), [RunMoved(t.run.status, RunStatus.Orphaned)]);
    assert OrphanEvents(t.nodes, rows, only) + [] == OrphanEvents(t.nodes, rows, only);
  }

  lemma RunTells(t: Tables, was: RunStatus, next: RunStatus)
    ensures Tells(t, MoveRun(t, was, next), [RunMoved(was, next)])
  {
  }

  function CancelEvents(nodes: Rows, rows: seq<NodeRun>): seq<Event>
    requires forall r | r in rows :: r in nodes
  {
    if rows == [] then [] else
      var r := rows[|rows| - 1];
      CancelEvents(nodes, rows[..|rows| - 1]) + [NodeMoved(r, nodes[r].status, NodeStatus.Cancelled, Some(Outcome.Cancelled))]
  }

  /** Cancelling nodes tells of each node once, and of no task. */
  lemma {:induction false} CancelTells(t: Tables, rows: seq<NodeRun>)
    requires (forall r | r in rows :: r in t.nodes) && forall i, j | 0 <= i < j < |rows| :: rows[i] != rows[j]
    ensures Tells(t, CancelNodes(t, rows), CancelEvents(t.nodes, rows))
  {
    hide Tells, StopTask, StopsTask;
    if rows != [] {
      var r, init := rows[|rows| - 1], rows[..|rows| - 1];
      assert rows == init + [r] && r !in init;
      CancelTells(t, init);
      CancelNodesRows(t, init);
      var w := CancelNodes(t, init);
      StopTaskRow(w, r);
      var v := StopTask(w, r);
      SilentTells(w, v);
      NodeTells(v, r, w.nodes[r].status, NodeRow(NodeStatus.Cancelled, Some(Outcome.Cancelled), None));
      TellsMore(w, v, CancelNodes(t, rows), [], [NodeMoved(r, t.nodes[r].status, NodeStatus.Cancelled, Some(Outcome.Cancelled))]);
      TellsMore(t, w, CancelNodes(t, rows), CancelEvents(t.nodes, init),
        [] + [NodeMoved(r, t.nodes[r].status, NodeStatus.Cancelled, Some(Outcome.Cancelled))]);
      assert CancelEvents(t.nodes, rows)
          == CancelEvents(t.nodes, init) + ([] + [NodeMoved(r, t.nodes[r].status, NodeStatus.Cancelled, Some(Outcome.Cancelled))]);
    } else {
      TellsNothing(t);
    }
  }

  lemma SilentTells(t: Tables, u: Tables)
    requires u.log == t.log && u.nextSeq == t.nextSeq
    ensures Tells(t, u, [])
  {
  }

  // ---------------------------------------------------------------- what reconciling tells

  /** One event for every decision of a pass, in the order of the graph. */
  function PassEvents(seen: Rows, due: map<int, NodeStatus>, order: seq<int>): seq<Event> {
    if order == [] then [] else
      var n := order[|order| - 1];
      PassEvents(seen, due, order[..|order| - 1])
      + if n in due then [NodeMoved(Latest(seen, n), NodeStatus.Pending, due[n], LatestRow(seen, n).outcome)] else []
  }

  lemma {:induction false} PassTells(seen: Rows, due: map<int, NodeStatus>, order: seq<int>, t: Tables)
    ensures Tells(t, Pass(seen, due, order, t), PassEvents(seen, due, order))
  {
    hide Tells;
    if order != [] {
      var n, init := order[|order| - 1], order[..|order| - 1];
      PassTells(seen, due, init, t);
      var w := Pass(seen, due, init, t);
      if n in due {
        NodeTells(w, Latest(seen, n), NodeStatus.Pending, LatestRow(seen, n).(status := due[n]));
        TellsMore(t, w, Pass(seen, due, order, t), PassEvents(seen, due, init),
          [NodeMoved(Latest(seen, n), NodeStatus.Pending, due[n], LatestRow(seen, n).outcome)]);
      } else {
        assert PassEvents(seen, due, order) == PassEvents(seen, due, init);
      }
    } else {
      TellsNothing(t);
    }
  }

  /** What cancelling makes of a task: unfinished ones are cancelled, the rest
      stay, and no base or grant changes. */
  predicate StopsTask(was: TaskRow, now: TaskRow) {
    now == TaskRow(if was.status in {TaskStatus.Pending, TaskStatus.Running, TaskStatus.PrivilegeRequested} then TaskStatus.Cancelled else was.status,
                   was.base, was.grant)
  }

  lemma StopTaskRow(t: Tables, r: NodeRun)
    ensures var u := StopTask(t, r);
      && u == t.(tasks := u.tasks) && u.tasks.Keys == t.tasks.Keys
      && forall k | k in t.tasks :: if k == r then StopsTask(t.tasks[k], u.tasks[k]) else u.tasks[k] == t.tasks[k]
  {
  }

  lemma {:induction false} CancelNodesRows(t: Tables, rows: seq<NodeRun>)
    requires (forall r | r in rows :: r in t.nodes) && forall i, j | 0 <= i < j < |rows| :: rows[i] != rows[j]
    ensures var u := CancelNodes(t, rows);
      && u == t.(nodes := u.nodes, tasks := u.tasks, log := u.log, nextSeq := u.nextSeq)
      && u.nodes.Keys == t.nodes.Keys && u.tasks.Keys == t.tasks.Keys
      && (forall r | r in t.nodes :: u.nodes[r] ==
            if r in rows then NodeRow(NodeStatus.Cancelled, Some(Outcome.Cancelled), None) else t.nodes[r])
      && (forall r | r in t.tasks :: if r in rows then StopsTask(t.tasks[r], u.tasks[r]) else u.tasks[r] == t.tasks[r])
  {
    hide StopTask, StopsTask;
    if rows != [] {
      var r, init := rows[|rows| - 1], rows[..|rows| - 1];
      assert forall k :: k in rows <==> k in init || k == r;
      CancelNodesRows(t, init);
      assert r !in init;
      StopTaskRow(CancelNodes(t, init), r);
    }
  }
}
