/** The workflow run repository: each method is one transaction over the store
    and does what its step function specifies. */
module RunRepository {
  import opened Graphs
  import opened Wrappers
  import opened Records
  import opened Leases
  import opened Scheduling
  import opened Meaning
  import opened WorkflowRuns
  import opened Database
  import opened Effects

  /** What the compiler and run creation provide. */
  ghost predicate Prepared(t: Tables) {
    && WellFormed(t.graph) && Acyclic(Ids(t.graph), Links(t.graph))
    && forall n | n in Ids(t.graph) :: NodeRun(n, 1) in t.nodes
  }

  class WorkflowRunRepository {
    const store: Store

    constructor (s: Store)
      ensures store == s
    {
      store := s;
    }

    // -------------------------------------------------------------- reconciliation

    /** Looks at the incoming edges in order, stopping at the first whose source
        is not terminal. */
    method Wanted(g: Graph, seen: Rows, n: int) returns (want: Option<NodeStatus>)
      ensures want == Want(g, seen, n)
    {
      if FindNode(g.nodes, n).kind.Input? { return Some(NodeStatus.Ready); }
      var satisfied := false;
      for i := 0 to |g.edges|
        invariant forall e | e in g.edges[..i] && e.target == n :: NodeDone(LatestRow(seen, e.source).status)
        invariant satisfied <==> exists e :: e in g.edges[..i] && e.target == n && Holds(e.cond, LatestRow(seen, e.source))
      {
        var e := g.edges[i];
        assert g.edges[..i + 1] == g.edges[..i] + [e];
        if e.target == n {
          var upstream := LatestRow(seen, e.source);
          if !NodeDone(upstream.status) { assert e in g.edges; return None; }
          if EdgeSatisfied(e.cond, upstream.status, upstream.outcome) { assert Holds(e.cond, upstream); satisfied := true; }
        }
      }
      assert g.edges[..|g.edges|] == g.edges;
      assert Satisfied(g, seen, n) <==> satisfied;
      want := Some(if satisfied then NodeStatus.Ready else NodeStatus.Skipped);
    }

    /** One pass: rows are read once, and decisions written as they are taken. */
    method PassOnce() returns (changed: bool)
      requires Prepared(store.tables)
      modifies store
      ensures store.tables == PassOver(old(store.tables))
      ensures changed <==> Moves(old(store.tables).graph, old(store.tables).nodes)
    {
      var g, seen := store.tables.graph, store.tables.nodes;
      ghost var before := store.tables;
      ghost var due := Due(g, seen);
      var sorted := TopologicalOrder(g);
      var order := sorted.order;
      changed := false;
      OrderFacts(g, order);
      for i := 0 to |order|
        invariant store.tables == Pass(seen, due, order[..i], before)
        invariant changed <==> exists n :: n in order[..i] && n in due
      {
        hide Want, Pass, Due, Prepared, Acyclic, Forward, Distinct;
        var n := order[i];
        PassSnoc(seen, due, order, i, before);
        var row := LatestRow(seen, n);
        DueIs(g, seen, n);
        if row.status.Pending? {
          var want := Wanted(g, seen, n);
          if want.Some? {
            PassRowUntouched(seen, due, order, i, before);
            var written := store.ShiftNode(Latest(seen, n), NodeStatus.Pending, row.(status := want.value));
            assert written == 1;
            changed := true;
          }
        }
      }
      assert order[..|order|] == order;
    }

    lemma OrderFacts(g: Graph, order: seq<int>)
      requires IsOrder(Ids(g), Links(g), order)
      ensures Distinct(order) && forall n | n in order :: n in Ids(g)
      ensures order[..0] == []
    {
      forall n | n in order ensures n in Ids(g) { assert n in (set x | x in order); }
    }

    lemma PassSnoc(seen: Rows, due: map<int, NodeStatus>, order: seq<int>, i: nat, t: Tables)
      requires i < |order|
      ensures order[..i + 1] == order[..i] + [order[i]]
      ensures Pass(seen, due, order[..i + 1], t) ==
        if order[i] !in due then Pass(seen, due, order[..i], t)
        else MoveNode(Pass(seen, due, order[..i], t), Latest(seen, order[i]), NodeStatus.Pending,
                      LatestRow(seen, order[i]).(status := due[order[i]]))
    {
      assert order[..i + 1][..i] == order[..i];
    }

    lemma DueIs(g: Graph, seen: Rows, n: int)
      requires n in Ids(g)
      ensures LatestRow(seen, n).status.Pending? && Want(g, seen, n).Some? <==> n in Due(g, seen)
      ensures n in Due(g, seen) ==> Due(g, seen)[n] == Want(g, seen, n).value && Latest(seen, n) in seen
    {
    }

    lemma PassRowUntouched(seen: Rows, due: map<int, NodeStatus>, order: seq<int>, i: nat, t: Tables)
      requires i < |order| && Distinct(order) && t.nodes == seen && due == Due(t.graph, seen)
      requires Latest(seen, order[i]) in seen
      ensures var u := Pass(seen, due, order[..i], t);
        Latest(seen, order[i]) in u.nodes && u.nodes[Latest(seen, order[i])] == seen[Latest(seen, order[i])]
    {
      hide Want;
      DueRows(t.graph, seen);
      PassRows(seen, due, order[..i], t);
    }

    method ReconcileIn() returns (fault: Option<Fault>)
      requires Prepared(store.tables) && store.tables.run.status.Running?
      modifies store
      ensures fault.None? && store.tables == Reconciled(old(store.tables))
    {
      ghost var start := store.tables;
      var changed := true;
      while changed
        invariant Prepared(store.tables) && store.tables.run == start.run
        invariant Passes(store.tables) == Passes(start)
        invariant !changed ==> !Moves(store.tables.graph, store.tables.nodes)
        decreases PendingRows(store.tables.nodes), changed
      {
        ghost var before := store.tables;
        changed := PassOnce();
        PassPrepared(before);
        if changed { PassShrinks(before); } else { IdlePass(before); }
      }
      if AllDone(store.tables.nodes) {
        var target := FinalStatus(store.tables.graph, store.tables.nodes);
        var written := store.UpdateRun(RunStatus.Running, target, false);
        if written != 1 { return Some(Fault.Conflict); }
        store.Append(RunMoved(RunStatus.Running, target));
      }
      fault := None;
    }

    lemma PassPrepared(t: Tables)
      requires Prepared(t)
      ensures Prepared(PassOver(t))
    {
      hide Acyclic, WellFormed, Due, Pass;
      DueRows(t.graph, t.nodes);
      PassRows(t.nodes, Due(t.graph, t.nodes), GraphOrder(t.graph), t);
    }

    lemma IdlePass(t: Tables)
      requires !Moves(t.graph, t.nodes)
      ensures PassOver(t) == t
    {
      IdlePrefix(t.nodes, Due(t.graph, t.nodes), GraphOrder(t.graph), t);
    }

    lemma {:induction false} IdlePrefix(seen: Rows, due: map<int, NodeStatus>, order: seq<int>, t: Tables)
      requires forall n | n in order :: n !in due
      ensures Pass(seen, due, order, t) == t
    {
      if order != [] { IdlePrefix(seen, due, order[..|order| - 1], t); }
    }

    // -------------------------------------------------------------- scheduling

    method StartAndReconcile(c: Call) returns (fault: Option<Fault>)
      requires Prepared(store.tables)
      modifies store
      ensures Executes(old(store.tables), store.tables, Start(old(store.tables), c), fault)
    {
      hide Reconciled, Acyclic, WellFormed;
      if !MasterValid(store.tables.master, c.lease, c.now) { return Some(Fault.LeaseLost); }
      if store.tables.run.status.Pending? {
        var changed := store.UpdateRun(RunStatus.Pending, RunStatus.Running, true);
        if changed != 1 { return Some(Fault.Conflict); }
        store.Append(RunMoved(RunStatus.Pending, RunStatus.Running));
        assert store.tables == MoveRun(old(store.tables), RunStatus.Pending, RunStatus.Running);
      }
      fault := None;
      if store.tables.run.status.Running? { fault := ReconcileIn(); }
    }

    /** Claims the first ready node in topological order, if the run may go on. */
    method ClaimNext(c: Call) returns (fault: Option<Fault>, claimed: Option<NodeRun>)
      requires Prepared(store.tables)
      modifies store
      ensures Executes(old(store.tables), store.tables, Claim(old(store.tables), c), fault)
      ensures fault.None? && claimed.Some? ==>
        claimed == FirstReady(old(store.tables).nodes, GraphOrder(old(store.tables).graph))
        && claimed.value in store.tables.nodes && store.tables.nodes[claimed.value].status.Running?
      ensures claimed.None? ==> store.tables == old(store.tables)
    {
      hide Acyclic, WellFormed;
      if !MasterValid(store.tables.master, c.lease, c.now) { return Some(Fault.LeaseLost), None; }
      if !store.tables.run.status.Running? || store.tables.run.cancelRequested { return None, None; }
      var sorted := TopologicalOrder(store.tables.graph);
      claimed := FirstReady(store.tables.nodes, sorted.order);
      if claimed.None? { return None, None; }
      ReadyRow(store.tables.nodes, sorted.order);
      var changed := store.ShiftNode(claimed.value, NodeStatus.Ready, store.tables.nodes[claimed.value].(status := NodeStatus.Running));
      assert changed == 1;
      fault := None;
    }

    lemma {:induction false} ReadyRow(nodes: Rows, order: seq<int>)
      ensures var f := FirstReady(nodes, order); f.Some? ==> f.value in nodes && nodes[f.value].status.Ready?
    {
      if order != [] { ReadyRow(nodes, order[1..]); }
    }

    method CompleteNode(c: Call, r: NodeRun, v: Verdict, hasError: bool) returns (fault: Option<Fault>)
      modifies store
      ensures Executes(old(store.tables), store.tables, Complete(old(store.tables), c, r, v, hasError), fault)
      ensures fault.None? && IsWrite(old(store.tables).graph, r) && r in old(store.tables).tasks ==>
        WriteEnded(old(store.tables), r, v.status.Completed?)
      ensures fault.None? ==> Recorded(old(store.tables), store.tables, r, v)
    {
      hide WriteCheck, WriteEnded, Recorded;
      ghost var t := store.tables;
      if !Legal(v) || !(v.status.Completed? || hasError) { return Some(Fault.Invalid); }
      if !MasterValid(store.tables.master, c.lease, c.now) { return Some(Fault.LeaseLost); }
      if r !in store.tables.nodes { return Some(Fault.NotFound); }
      if store.tables.run.cancelRequested || !store.tables.run.status.Running? { return Some(Fault.Conflict); }
      if IsWrite(store.tables.graph, r) {
        var check := WriteCheck(store.tables, r, v.status);
        if check.Refuse? { return Some(check.fault); }
      }
      var changed := store.ShiftNode(r, NodeStatus.Running, NodeRow(v.status, v.outcome, None));
      if changed != 1 { return Some(Fault.Conflict); }
      if IsWrite(t.graph, r) && r in t.tasks { WriteNodeEnds(t, c, r, v, hasError); }
      CompletionRecorded(t, c, r, v, hasError);
      fault := None;
    }

    // -------------------------------------------------------------- tasks

    method CreateTask(c: Call, r: NodeRun, base: int) returns (fault: Option<Fault>)
      modifies store
      ensures Executes(old(store.tables), store.tables, WorkflowRuns.CreateTask(old(store.tables), c, r, base), fault)
    {
      var check := TaskCheck(store.tables, c, r, base);
      if check.Refuse? { return Some(check.fault); }
      if r in store.tables.tasks { return Some(Fault.Conflict); }
      store.tables := store.tables.(tasks := store.tables.tasks[r := TaskRow(TaskStatus.Pending, base, None)]);
      store.Append(TaskMoved(r, None, TaskStatus.Pending, None));
      fault := None;
    }

    method CreateAndStartTask(c: Call, r: NodeRun, base: int) returns (fault: Option<Fault>)
      modifies store
      ensures Executes(old(store.tables), store.tables, StartTask(old(store.tables), c, r, base), fault)
      ensures fault.None? ==> TaskStarted(old(store.tables), store.tables, r, base)
    {
      hide TaskStarted;
      var saved := store.tables;
      var check := TaskCheck(saved, c, r, base);
      if check.Refuse? { return Some(check.fault); }
      if r !in saved.tasks {
        store.tables := store.tables.(tasks := store.tables.tasks[r := TaskRow(TaskStatus.Pending, base, None)]);
        store.Append(TaskMoved(r, None, TaskStatus.Pending, None));
      } else if saved.tasks[r].base != base || !saved.tasks[r].status.Pending? {
        return Some(Fault.Conflict);
      }
      var changed := store.UpdateTask(r, TaskStatus.Pending, TaskStatus.Running);
      assert changed == 1;
      store.Append(TaskMoved(r, Some(TaskStatus.Pending), TaskStatus.Running, None));
      TaskStarts(saved, c, r, base);
      fault := None;
    }

    method FinishTask(c: Call, r: NodeRun, target: TaskStatus, hasError: bool, w: Option<WorkLease>) returns (fault: Option<Fault>)
      modifies store
      ensures Executes(old(store.tables), store.tables, WorkflowRuns.FinishTask(old(store.tables), c, r, target, hasError, w), fault)
      ensures fault.None? ==> TaskEnded(old(store.tables), store.tables, r, target)
    {
      hide FenceCheck, TaskEnded;
      var t := store.tables;
      if target.Pending? || target.Running? || !(target.Succeeded? || target.PrivilegeRequested? || hasError) { return Some(Fault.Invalid); }
      if !MasterValid(t.master, c.lease, c.now) { return Some(Fault.LeaseLost); }
      if r !in t.tasks || r !in t.nodes { return Some(Fault.NotFound); }
      if t.run.cancelRequested || !t.run.status.Running? || !t.nodes[r].status.Running? { return Some(Fault.Conflict); }
      if IsWrite(t.graph, r) {
        var check := FenceCheck(t, c, r, target, w);
        if check.Refuse? { return Some(check.fault); }
      } else if w.Some? {
        return Some(Fault.Invalid);
      }
      var changed := store.UpdateTask(r, TaskStatus.Running, target);
      if changed != 1 { return Some(Fault.Conflict); }
      store.Append(TaskMoved(r, Some(TaskStatus.Running), target, if w.Some? then Some(w.value.token) else None));
      TaskEnds(t, c, r, target, hasError, w);
      fault := None;
    }

    // -------------------------------------------------------------- approval waits

    /** Row updates first, then the node's event and the run's event. */
    method WaitIn(r: NodeRun, a: Awaited)
      requires r in store.tables.nodes && store.tables.nodes[r].status.Running?
      requires store.tables.run.status.Running? && !store.tables.run.cancelRequested
      modifies store
      ensures store.tables == Wait(old(store.tables), r, a)
    {
      var row := store.tables.nodes[r].(status := NodeStatus.WaitingApproval, waitsFor := Some(a));
      var node := store.UpdateNode(r, NodeStatus.Running, row);
      var run := store.UpdateRun(RunStatus.Running, RunStatus.WaitingApproval, true);
      assert node == 1 && run == 1;
      store.Append(NodeMoved(r, NodeStatus.Running, row.status, row.outcome));
      store.Append(RunMoved(RunStatus.Running, RunStatus.WaitingApproval));
    }

    method EnterWaitingApproval(c: Call, r: NodeRun, a: int) returns (fault: Option<Fault>)
      requires Prepared(store.tables)
      modifies store
      ensures Executes(old(store.tables), store.tables, EnterWaiting(old(store.tables), c, r, a), fault)
    {
      hide ResumeIn, Prepared;
      var t := store.tables;
      if !MasterValid(t.master, c.lease, c.now) { return Some(Fault.LeaseLost); }
      if r !in t.nodes { return Some(Fault.NotFound); }
      if !t.nodes[r].status.Running? || !t.run.status.Running? || t.run.cancelRequested { return Some(Fault.Conflict); }
      if a in t.approvals && Decided(t.approvals[a].status) {
        fault := ResumeAfterApprovalIn(r, t.approvals[a].status.Approved?);
      } else {
        WaitIn(r, ForGate(a));
        fault := None;
      }
    }

    method WakeIn(r: NodeRun, row: NodeRow) returns (fault: Option<Fault>)
      requires r in store.tables.nodes && store.tables.nodes[r].status.WaitingApproval? && store.tables.run.status.WaitingApproval?
      requires !store.tables.run.cancelRequested
      modifies store
      ensures fault.None? && store.tables == Wake(old(store.tables), r, row)
    {
      var node := store.UpdateNode(r, NodeStatus.WaitingApproval, row);
      if node != 1 { return Some(Fault.Conflict); }
      var run := store.UpdateRun(RunStatus.WaitingApproval, RunStatus.Running, true);
      if run != 1 { return Some(Fault.Conflict); }
      store.Append(NodeMoved(r, NodeStatus.WaitingApproval, row.status, row.outcome));
      store.Append(RunMoved(RunStatus.WaitingApproval, RunStatus.Running));
      fault := None;
    }

    method ResumeAfterApprovalIn(r: NodeRun, approved: bool) returns (fault: Option<Fault>)
      requires Prepared(store.tables)
      modifies store
      ensures Executes(old(store.tables), store.tables, ResumeIn(old(store.tables), r, approved), fault)
    {
      hide Reconciled, Acyclic, WellFormed;
      var t := store.tables;
      if r !in t.nodes { return Some(Fault.NotFound); }
      if t.nodes[r].status.WaitingApproval? && t.run.status.WaitingApproval? {
        if t.run.cancelRequested { return Some(Fault.Conflict); }
        fault := WakeIn(r, if approved then NodeRow(NodeStatus.Ready, None, None) else REJECTED);
        if !approved { fault := ReconcileIn(); }
      } else if t.nodes[r].status.Running? && t.run.status.Running? {
        if approved { return None; }
        if t.run.cancelRequested { return Some(Fault.Conflict); }
        var changed := store.ShiftNode(r, NodeStatus.Running, REJECTED);
        assert changed == 1;
        fault := ReconcileIn();
      } else {
        fault := Some(Fault.Conflict);
      }
    }

    // -------------------------------------------------------------- privilege retries

    method NoLaterAttempt(r: NodeRun) returns (last: bool)
      ensures last <==> MayRetry(store.tables, r)
    {
      last := r.attempt < 2 && forall s | s in store.tables.nodes :: s.node == r.node ==> s.attempt <= r.attempt;
    }

    method PreparePrivilegeRetry(c: Call, r: NodeRun, a: int, w: WorkLease) returns (fault: Option<Fault>)
      modifies store
      ensures Executes(old(store.tables), store.tables, PrepareRetry(old(store.tables), c, r, a, w), fault)
      ensures fault.None? ==> Parked(store.tables, r, a)
    {
      hide MayRetry, Parked;
      var t := store.tables;
      if !MasterValid(t.master, c.lease, c.now) { return Some(Fault.LeaseLost); }
      if r !in t.nodes || r !in t.tasks { return Some(Fault.NotFound); }
      if !Bound(w, r) { return Some(Fault.Invalid); }
      if !LockValid(t.lock, w, c.now) { return Some(Fault.LeaseLost); }
      if t.run.cancelRequested || !t.nodes[r].status.Running? || !t.run.status.Running?
         || !(t.tasks[r].status.Running? || t.tasks[r].status.PrivilegeRequested?) { return Some(Fault.Conflict); }
      var last := NoLaterAttempt(r);
      if !last { return Some(Fault.Conflict); }
      if t.tasks[r].status.Running? {
        var changed := store.UpdateTask(r, TaskStatus.Running, TaskStatus.PrivilegeRequested);
        assert changed == 1;
        store.Append(TaskMoved(r, Some(TaskStatus.Running), TaskStatus.PrivilegeRequested, Some(w.token)));
      }
      WaitIn(r, ForPrivilege(a));
      PrivilegeAwaited(t, c, r, a, w);
      fault := None;
    }

    method ApprovePrivilegeIn(r: NodeRun) returns (fault: Option<Fault>)
      modifies store
      ensures Executes(old(store.tables), store.tables, WorkflowRuns.ApprovePrivilegeIn(old(store.tables), r), fault)
    {
      hide MayRetry;
      var t := store.tables;
      if r !in t.nodes || r !in t.tasks { return Some(Fault.NotFound); }
      if !t.nodes[r].status.WaitingApproval? || !t.run.status.WaitingApproval? || t.run.cancelRequested
         || !t.tasks[r].status.PrivilegeRequested? { return Some(Fault.Conflict); }
      var last := NoLaterAttempt(r);
      if !last { return Some(Fault.Conflict); }
      assert Next(r) != r;
      store.tables := AddRetry(store.tables, r);
      var task := store.UpdateTask(r, TaskStatus.PrivilegeRequested, TaskStatus.Cancelled);
      store.Append(TaskMoved(r, Some(TaskStatus.PrivilegeRequested), TaskStatus.Cancelled, None));
      var node := store.ShiftNode(r, NodeStatus.WaitingApproval, NodeRow(NodeStatus.Superseded, Some(Outcome.Cancelled), None));
      assert task == 1 && node == 1;
      fault := None;
    }

    /** The rejection branch of the privilege resume. */
    method RejectPrivilegeIn(r: NodeRun) returns (fault: Option<Fault>)
      requires Prepared(store.tables)
      modifies store
      ensures Executes(old(store.tables), store.tables, WorkflowRuns.RejectPrivilegeIn(old(store.tables), r), fault)
    {
      hide Reconciled, Acyclic, WellFormed;
      var t := store.tables;
      if r !in t.nodes || r !in t.tasks { return Some(Fault.NotFound); }
      if !t.nodes[r].status.WaitingApproval? || !t.run.status.WaitingApproval? || t.run.cancelRequested
         || !t.tasks[r].status.PrivilegeRequested? { return Some(Fault.Conflict); }
      var retry := Next(r);
      var prepared := retry in t.nodes && retry in t.tasks;
      var task := store.UpdateTask(r, TaskStatus.PrivilegeRequested, TaskStatus.Failed);
      store.Append(TaskMoved(r, Some(TaskStatus.PrivilegeRequested), TaskStatus.Failed, None));
      var node := store.ShiftNode(r, NodeStatus.WaitingApproval, REJECTED);
      assert task == 1 && node == 1;
      if prepared {
        var stopped := store.UpdateTask(retry, TaskStatus.Pending, TaskStatus.Cancelled);
        var dropped := store.ShiftNode(retry, NodeStatus.Pending, NodeRow(NodeStatus.Skipped, None, None));
        if dropped != 1 { store.Rollback(t); return Some(Fault.Conflict); }
      }
      var run := store.UpdateRun(RunStatus.WaitingApproval, RunStatus.Running, true);
      assert run == 1;
      store.Append(RunMoved(RunStatus.WaitingApproval, RunStatus.Running));
      fault := ReconcileIn();
    }

    method ActivateCapabilityTargetIn(r: NodeRun) returns (fault: Option<Fault>)
      modifies store
      ensures Executes(old(store.tables), store.tables, ActivateIn(old(store.tables), r), fault)
    {
      var t := store.tables;
      if r !in t.nodes || r !in t.tasks { return Some(Fault.NotFound); }
      if t.nodes[r].status.Ready? { return None; }
      if !t.nodes[r].status.Pending? || !t.tasks[r].status.Pending? || t.run.cancelRequested { return Some(Fault.Conflict); }
      var node := store.ShiftNode(r, NodeStatus.Pending, t.nodes[r].(status := NodeStatus.Ready));
      assert node == 1;
      var run := store.UpdateRun(RunStatus.WaitingApproval, RunStatus.Running, true);
      if run == 1 { store.Append(RunMoved(RunStatus.WaitingApproval, RunStatus.Running)); }
      fault := None;
    }

    // -------------------------------------------------------------- merging

    method BeginMergeFinalizing(c: Call, w: WorkLease, picked: NodeRun) returns (fault: Option<Fault>)
      modifies store
      ensures Executes(old(store.tables), store.tables, BeginMerge(old(store.tables), c, w, picked), fault)
      ensures fault.None? ==> store.tables == old(store.tables).(run := old(store.tables).run.(mergeFinalizing := true))
    {
      var t := store.tables;
      if !MasterValid(t.master, c.lease, c.now) { return Some(Fault.LeaseLost); }
      var merging := picked in t.nodes && t.nodes[picked].status.Running? && FindNode(t.graph.nodes, picked.node).kind.MergePatch?
        && forall s | s in t.nodes :: t.nodes[s].status.Running? && FindNode(t.graph.nodes, s.node).kind.MergePatch? ==> s.attempt <= picked.attempt;
      if !w.holder.kind.Merge? || !merging || w.holder.operation != Operation.NodeOf(picked) { return Some(Fault.Invalid); }
      if !LockValid(t.lock, w, c.now) { return Some(Fault.LeaseLost); }
      if !t.run.status.Running? || t.run.cancelRequested || t.run.mergeFinalizing { return Some(Fault.Conflict); }
      store.tables := t.(run := t.run.(mergeFinalizing := true));
      fault := None;
    }

    method ClearMergeFinalizing(c: Call, w: WorkLease, picked: Option<NodeRun>) returns (fault: Option<Fault>)
      modifies store
      ensures Executes(old(store.tables), store.tables, ClearMerge(old(store.tables), c, w, picked), fault)
      ensures fault.None? ==> store.tables == old(store.tables).(run := old(store.tables).run.(mergeFinalizing := false))
    {
      var t := store.tables;
      if !MasterValid(t.master, c.lease, c.now) { return Some(Fault.LeaseLost); }
      var merging := picked.Some? && picked.value in t.nodes && t.nodes[picked.value].status.Running?
        && FindNode(t.graph.nodes, picked.value.node).kind.MergePatch?
        && forall s | s in t.nodes :: t.nodes[s].status.Running? && FindNode(t.graph.nodes, s.node).kind.MergePatch? ==> s.attempt <= picked.value.attempt;
      if !(w.holder.kind.Merge? || w.holder.kind.Recovery?)
         || !(w.holder.operation.RecoveryOfRun? || (merging && w.holder.operation == Operation.NodeOf(picked.value))) {
        return Some(Fault.Invalid);
      }
      if !LockValid(t.lock, w, c.now) { return Some(Fault.LeaseLost); }
      store.tables := t.(run := t.run.(mergeFinalizing := false));
      fault := None;
    }

    /** HEAD, run and ChangeSet move together; a lost guard rolls all back. */
    method FinalizeMerge(c: Call, r: NodeRun, cs: NodeRun, commit: int, w: WorkLease) returns (fault: Option<Fault>)
      requires Prepared(store.tables)
      modifies store
      ensures Executes(old(store.tables), store.tables, WorkflowRuns.FinalizeMerge(old(store.tables), c, r, cs, commit, w), fault)
    {
      hide Reconciled, Acyclic, WellFormed;
      var t := store.tables;
      if !MasterValid(t.master, c.lease, c.now) || !LockValid(t.lock, w, c.now) { return Some(Fault.LeaseLost); }
      if r !in t.nodes { return Some(Fault.NotFound); }
      if !t.nodes[r].status.Running? || !t.run.status.Running? || !t.run.mergeFinalizing || t.run.cancelRequested { return Some(Fault.Conflict); }
      if !((w.holder.kind.Merge? && w.holder.operation == Operation.NodeOf(r))
           || (w.holder.kind.Recovery? && w.holder.operation.RecoveryOfRun?)) { return Some(Fault.Invalid); }
      if t.head != t.run.commit { return Some(Fault.Conflict); }
      store.tables := store.tables.(head := commit);
      store.tables := store.tables.(run := store.tables.run.(commit := commit, mergeFinalizing := false));
      var merged := store.UpdateChangeSet(cs, {ChangeSetStatus.Approved}, ChangeSetStatus.Merged);
      if merged != 1 { store.Rollback(t); return Some(Fault.Conflict); }
      var node := store.ShiftNode(r, NodeStatus.Running, NodeRow(NodeStatus.Completed, Some(Outcome.Success), None));
      assert node == 1;
      fault := ReconcileIn();
    }

    // -------------------------------------------------------------- orphaning and cancelling nodes

    method MarkOrphaned(c: Call, rows: seq<NodeRun>, only: Option<NodeRun>) returns (fault: Option<Fault>)
      requires Fetched(rows, Uncertain(store.tables.nodes))
      modifies store
      ensures Executes(old(store.tables), store.tables, Orphan(old(store.tables), c, rows, only), fault)
    {
      var t := store.tables;
      if !MasterValid(t.master, c.lease, c.now) { return Some(Fault.LeaseLost); }
      if RunDone(t.run.status) && !t.run.status.Orphaned? { return None; }
      for i := 0 to |rows|
        invariant store.tables == OrphanNodes(t, rows[..i], only)
      {
        var r := rows[i];
        assert rows[..i + 1][..i] == rows[..i];
        if only.Some? && only.value != r { continue; }
        var row := Row(store.tables.nodes, r);
        store.tables := store.tables.(nodes := store.tables.nodes[r := row.(status := NodeStatus.Orphaned, waitsFor := None)]);
        store.Append(NodeMoved(r, row.status, NodeStatus.Orphaned, row.outcome));
      }
      assert rows[..|rows|] == rows;
      if !t.run.status.Orphaned? {
        store.tables := store.tables.(run := store.tables.run.(status := RunStatus.Orphaned));
        store.Append(RunMoved(t.run.status, RunStatus.Orphaned));
      }
      fault := None;
    }

    /** The node part of cancellation: rows in fetch order, each with its task. */
    method CancelNodesIn(rows: seq<NodeRun>)
      modifies store
      ensures store.tables == CancelNodes(old(store.tables), rows)
    {
      ghost var t := store.tables;
      for i := 0 to |rows|
        invariant store.tables == CancelNodes(t, rows[..i])
      {
        var r := rows[i];
        assert rows[..i + 1][..i] == rows[..i];
        var was := Row(store.tables.nodes, r).status;
        store.tables := StopTask(store.tables, r);
        store.tables := store.tables.(nodes := store.tables.nodes[r := NodeRow(NodeStatus.Cancelled, Some(Outcome.Cancelled), None)]);
        store.Append(NodeMoved(r, was, NodeStatus.Cancelled, Some(Outcome.Cancelled)));
      }
      assert rows[..|rows|] == rows;
    }
  }
}
