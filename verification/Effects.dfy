/** What each step accomplishes, said of its outcome. */
module Effects {
  import opened Wrappers
  import opened Records
  import opened Leases
  import opened Scheduling
  import opened Meaning
  import opened WorkflowRuns
  import opened Approvals
  import opened ChangeSets
  import opened Audit
  import opened RunInvariant
  import opened RunInvariantOfApprovals
  import opened Agreement
  import opened AgreementOnDecisions
  import opened AgreementOnWithdrawal

  /** The log got these events, numbered on, under the Master's token. */
  ghost predicate Tells(t: Tables, u: Tables, events: seq<Event>) {
    && u.nextSeq == t.nextSeq + |events| && |u.log| == |t.log| + |events| && u.log[..|t.log|] == t.log
    && forall i | 0 <= i < |events| ::
         u.log[|t.log| + i] == Entry(t.nextSeq + i, if t.master.Some? then t.master.value.token else 0, events[i])
  }

  // ---------------------------------------------------------------- scheduling

  /** Claiming takes the earliest ready node of the order, and none only if none
      is ready. */
  lemma {:induction false} ClaimsFirst(nodes: Rows, order: seq<int>)
    ensures var f := FirstReady(nodes, order);
      if f.None? then forall n | n in order :: !LatestRow(nodes, n).status.Ready?
      else exists k :: 0 <= k < |order| && f.value == Latest(nodes, order[k]) && EarliestReady(nodes, order, k)
  {
    if order != [] && !LatestRow(nodes, order[0]).status.Ready? {
      ClaimsFirst(nodes, order[1..]);
      var f := FirstReady(nodes, order[1..]);
      if f.Some? {
        var k :| 0 <= k < |order[1..]| && f.value == Latest(nodes, order[1..][k]) && EarliestReady(nodes, order[1..], k);
        assert forall j | 0 < j < k + 1 :: order[j] == order[1..][j - 1];
        assert EarliestReady(nodes, order, k + 1);
      }
    } else if order != [] {
      assert EarliestReady(nodes, order, 0);
    }
  }

  ghost predicate EarliestReady(nodes: Rows, order: seq<int>, k: nat)
    requires k < |order|
  {
    LatestRow(nodes, order[k]).status.Ready? && forall j | 0 <= j < k :: !LatestRow(nodes, order[j]).status.Ready?
  }

  /** What the verdict on a write node has to agree with: its ended task, its
      ChangeSet, and the workspace lock that still carries the token its task
      ended under. Without a task only a failure may be reported. */
  predicate WriteWindow(t: Tables, r: NodeRun, completed: bool) {
    if r !in t.tasks then !completed else
      var captured := r in t.changeSets && t.changeSets[r].Captured?;
      && !t.tasks[r].status.Pending? && !t.tasks[r].status.Running?
      && completed == t.tasks[r].status.Succeeded? && completed == captured
      && t.lock.Some? && t.lock.value.holder.kind.AgentTask? && t.lock.value.holder.operation == TaskOf(r)
      && LastTaskEvent(t.log, r) == Some(TaskMoved(r, LastTaskWas(t.log, r), t.tasks[r].status, Some(t.lock.value.token)))
  }

  function LastTaskWas(log: seq<Entry>, r: NodeRun): Option<TaskStatus> {
    var e := LastTaskEvent(log, r);
    if e.Some? then e.value.taskWas else None
  }

  /** An accepted verdict is what the row says afterwards, and the newest event. */
  ghost predicate Recorded(t: Tables, u: Tables, r: NodeRun, v: Verdict) {
    && u == t.(nodes := t.nodes[r := NodeRow(v.status, v.outcome, None)], log := u.log, nextSeq := u.nextSeq)
    && Tells(t, u, [NodeMoved(r, NodeStatus.Running, v.status, v.outcome)])
  }

  lemma CompletionRecorded(t: Tables, c: Call, r: NodeRun, v: Verdict, hasError: bool)
    requires Complete(t, c, r, v, hasError).Ok?
    ensures Recorded(t, Complete(t, c, r, v, hasError).value, r, v)
  {
    hide WriteCheck, IsWrite, Legal;
  }

  /** A write node ends completed exactly when its task succeeded and its
      ChangeSet is captured; and never while its task is unfinished. */
  predicate WriteEnded(t: Tables, r: NodeRun, completed: bool)
    requires r in t.tasks
  {
    && (completed <==> t.tasks[r].status.Succeeded? && r in t.changeSets && t.changeSets[r].Captured?)
    && !t.tasks[r].status.Pending? && !t.tasks[r].status.Running?
  }

  lemma WriteNodeEnds(t: Tables, c: Call, r: NodeRun, v: Verdict, hasError: bool)
    requires Complete(t, c, r, v, hasError).Ok? && IsWrite(t.graph, r) && r in t.tasks
    ensures WriteEnded(t, r, v.status.Completed?)
  {
  }

  // ---------------------------------------------------------------- tasks

  /** One running task on the run's commit; the log tells its creation if it was
      new, and its start. */
  ghost predicate TaskStarted(t: Tables, u: Tables, r: NodeRun, base: int) {
    && r in u.tasks && u.tasks[r].status.Running? && u.tasks[r].base == base == u.run.commit
    && (r in t.tasks ==> t.tasks[r].status.Pending? && u.tasks[r].grant == t.tasks[r].grant)
    && |u.log| == |t.log| + (if r in t.tasks then 1 else 2)
    && (r !in t.tasks ==> u.log[|t.log|].event == TaskMoved(r, None, TaskStatus.Pending, None))
    && LastTaskEvent(u.log, r) == Some(TaskMoved(r, Some(TaskStatus.Pending), TaskStatus.Running, None))
  }

  lemma TaskStarts(t: Tables, c: Call, r: NodeRun, base: int)
    requires StartTask(t, c, r, base).Ok?
    ensures TaskStarted(t, StartTask(t, c, r, base).value, r, base)
  {
    var u := StartTask(t, c, r, base).value;
    assert u.log[..|u.log| - 1] + [u.log[|u.log| - 1]] == u.log;
  }

  /** The task's end is its newest event; a write task's carries the token the
      workspace lock has at that moment, held by that very task. */
  ghost predicate TaskEnded(t: Tables, u: Tables, r: NodeRun, target: TaskStatus) {
    && r in u.tasks && u.tasks[r].status == target
    && (if IsWrite(t.graph, r)
        then t.lock.Some? && t.lock.value.holder.kind.AgentTask? && t.lock.value.holder.operation == TaskOf(r)
          && LastTaskEvent(u.log, r) == Some(TaskMoved(r, Some(TaskStatus.Running), target, Some(t.lock.value.token)))
          && (target.Succeeded? <==> r in t.changeSets && t.changeSets[r].Captured?)
        else LastTaskEvent(u.log, r) == Some(TaskMoved(r, Some(TaskStatus.Running), target, None)))
  }

  lemma TaskEnds(t: Tables, c: Call, r: NodeRun, target: TaskStatus, hasError: bool, w: Option<WorkLease>)
    requires FinishTask(t, c, r, target, hasError, w).Ok?
    ensures TaskEnded(t, FinishTask(t, c, r, target, hasError, w).value, r, target)
  {
    hide IsWrite;
  }

  /** The ChangeSet is there and its task ended in one step: captured if the task
      succeeded, abandoned otherwise, under the token of the lock the task holds. */
  ghost predicate Captures(t: Tables, u: Tables, r: NodeRun, status: ChangeSetStatus, target: TaskStatus) {
    && r !in t.changeSets && r in u.changeSets && u.changeSets[r] == status && r in u.tasks && u.tasks[r].status == target
    && (status.Captured? <==> target.Succeeded?) && (status.Captured? || status.AbandonedPartial?)
    && t.lock.Some? && t.lock.value.holder.kind.AgentTask? && t.lock.value.holder.operation == TaskOf(r)
    && LastTaskEvent(u.log, r) == Some(TaskMoved(r, Some(TaskStatus.Running), target, Some(t.lock.value.token)))
    && r in t.tasks && t.tasks[r].base == t.run.commit
  }

  lemma CaptureEnds(t: Tables, c: Call, r: NodeRun, status: ChangeSetStatus, target: TaskStatus, hasError: bool, w: WorkLease)
    requires Capture(t, c, r, status, target, hasError, w).Ok?
    ensures Captures(t, Capture(t, c, r, status, target, hasError, w).value, r, status, target)
  {
    hide IsWrite;
  }

  /** Capturing opens the node's window: straight after, the Master can complete
      the node, exactly with a verdict that agrees with how the task ended. */
  lemma CaptureThenComplete(t: Tables, c: Call, r: NodeRun, status: ChangeSetStatus, target: TaskStatus, hasError: bool, w: WorkLease,
      d: Call, v: Verdict)
    requires Capture(t, c, r, status, target, hasError, w).Ok? && MasterValid(t.master, d.lease, d.now) && Legal(v)
    ensures Complete(Capture(t, c, r, status, target, hasError, w).value, d, r, v, true).Ok?
      <==> (v.status.Completed? <==> target.Succeeded?)
    ensures var u := Capture(t, c, r, status, target, hasError, w).value;
      Complete(u, d, r, v, true).Ok? ==> Recorded(u, Complete(u, d, r, v, true).value, r, v)
  {
    hide IsWrite, LastTaskEvent, Legal;
    CaptureEnds(t, c, r, status, target, hasError, w);
    var u := Capture(t, c, r, status, target, hasError, w).value;
    if Complete(u, d, r, v, true).Ok? { CompletionRecorded(u, d, r, v, true); }
  }

  /** So does ending a write task without capturing anything new. */
  lemma FinishThenComplete(t: Tables, c: Call, r: NodeRun, target: TaskStatus, hasError: bool, w: Option<WorkLease>, d: Call, v: Verdict)
    requires FinishTask(t, c, r, target, hasError, w).Ok? && IsWrite(t.graph, r)
    requires MasterValid(t.master, d.lease, d.now) && Legal(v)
    ensures Complete(FinishTask(t, c, r, target, hasError, w).value, d, r, v, true).Ok?
      <==> (v.status.Completed? <==> target.Succeeded?)
    ensures var u := FinishTask(t, c, r, target, hasError, w).value;
      Complete(u, d, r, v, true).Ok? ==> Recorded(u, Complete(u, d, r, v, true).value, r, v)
  {
    hide IsWrite, LastTaskEvent, Legal;
    TaskEnds(t, c, r, target, hasError, w);
    var u := FinishTask(t, c, r, target, hasError, w).value;
    if Complete(u, d, r, v, true).Ok? { CompletionRecorded(u, d, r, v, true); }
  }

  // ---------------------------------------------------------------- waiting

  /** Task, node and run are parked together on one approval; only a first
      attempt can be. */
  predicate Parked(t: Tables, r: NodeRun, a: int) {
    && r in t.nodes && t.nodes[r].status.WaitingApproval? && t.nodes[r].waitsFor == Some(ForPrivilege(a))
    && t.run.status.WaitingApproval? && r in t.tasks && t.tasks[r].status.PrivilegeRequested? && r.attempt < 2
  }

  lemma PrivilegeAwaited(t: Tables, c: Call, r: NodeRun, a: int, w: WorkLease)
    requires PrepareRetry(t, c, r, a, w).Ok?
    ensures Parked(PrepareRetry(t, c, r, a, w).value, r, a)
  {
  }

  /** A gate waits for an approval exactly when that approval is not yet decided. */
  lemma GateWaits(t: Tables, c: Call, r: NodeRun, a: int)
    requires Sound(t) && EnterWaiting(t, c, r, a).Ok?
    ensures var u := EnterWaiting(t, c, r, a).value;
      if a in t.approvals && Decided(t.approvals[a].status)
      then NoneWaits(u.nodes) && (t.approvals[a].status.Approved? ==> u == t)
        && (t.approvals[a].status.Rejected? ==> r in u.nodes && u.nodes[r] == REJECTED)
      else r in u.nodes && u.nodes[r].status.WaitingApproval? && u.nodes[r].waitsFor == Some(ForGate(a)) && u.run.status.WaitingApproval?
  {
    hide Core, Waits, Flags, Agrees, Reconciled;
    if a in t.approvals && Decided(t.approvals[a].status) {
      SoundKept(t);
      ResumeKept(t, r, t.approvals[a].status.Approved?);
      if t.approvals[a].status.Rejected? { RejectedGate(t, r); }
    }
  }

  // ---------------------------------------------------------------- new approvals

  /** Either an approval was pending on the subject, and nothing changed; or the
      new one is, at version one and below L4, and its subject awaits it. */
  ghost predicate ApprovalThere(t: Tables, u: Tables, a: int, row: ApprovalRow) {
    if exists b :: PendingOn(t, row.subject, b) then u == t else
      && a !in t.approvals && u.approvals == t.approvals[a := row] && row.status.Pending? && row.version == 1 && !row.risk.L4?
      && (row.subject.OfChangeSet? ==> row.subject.task in u.changeSets && u.changeSets[row.subject.task].PendingApproval?)
      && (row.subject.OfRequest? ==> row.subject.request in u.requests && u.requests[row.subject.request].status.WaitingApproval?)
  }

  lemma ApprovalCreated(t: Tables, c: Call, a: int, row: ApprovalRow)
    requires CreateApproval(t, c, a, row).Ok?
    ensures ApprovalThere(t, CreateApproval(t, c, a, row).value, a, row)
  {
  }

  /** Renewing never leaves two approvals of one ChangeSet pending, and changes
      nothing of the subject but its expiry. */
  lemma Renewed(t: Tables, c: Call, prior: int, version: nat, hash: int, a: int, row: ApprovalRow)
    requires Renew(t, c, prior, version, hash, a, row).Ok?
    ensures var u := Renew(t, c, prior, version, hash, a, row).value;
      && a !in t.approvals && u.approvals == t.approvals[a := row] && u.changeSets == t.changeSets
      && prior in t.approvals && t.approvals[prior].status.Expired? && row.subject == t.approvals[prior].subject
      && row.terms == t.approvals[prior].terms && row.expires > c.now
      && forall b :: PendingOn(u, row.subject, b) <==> b == a
  {
    var u := Renew(t, c, prior, version, hash, a, row).value;
    forall b ensures PendingOn(u, row.subject, b) <==> b == a {
      assert b != a ==> (PendingOn(u, row.subject, b) <==> PendingOn(t, row.subject, b));
    }
  }

  /** After expiry nothing pending is overdue, and nothing else was touched. */
  lemma NothingOverdue(t: Tables, c: Call, rows: seq<int>)
    requires Sound(t) && ExpireDue(t, c, rows).Ok?
    ensures var u := ExpireDue(t, c, rows).value;
      && u.approvals.Keys == t.approvals.Keys
      && forall a | a in t.approvals :: u.approvals[a] ==
           if t.approvals[a].status.Pending? && t.approvals[a].expires <= c.now
           then Lapsed(t.approvals[a], ApprovalStatus.Expired) else t.approvals[a]
  {
    hide RunKept, Agrees, ExpireRows;
    ExpiredRows(t, rows);
    forall a | a in t.approvals ensures a in rows <==> t.approvals[a].status.Pending? && t.approvals[a].expires <= c.now {
      assert a in rows <==> a in DueApprovals(t, c.now);
    }
  }

  lemma {:induction false} ExpiredRows(t: Tables, rows: seq<int>)
    requires Sound(t) && ExpireRows(t, rows).Ok?
    requires (forall i, j | 0 <= i < j < |rows| :: rows[i] != rows[j]) && forall a | a in rows :: a in t.approvals
    ensures ExpireRows(t, rows).value.approvals.Keys == t.approvals.Keys
    ensures forall a | a in t.approvals ::
      ExpireRows(t, rows).value.approvals[a] == if a in rows then Lapsed(t.approvals[a], ApprovalStatus.Expired) else t.approvals[a]
  {
    hide RunKept, Agrees, ExpireOne;
    if rows != [] {
      var init, last := rows[..|rows| - 1], rows[|rows| - 1];
      assert rows == init + [last];
      ExpiredRows(t, init);
      ExpireRowsSound(t, init);
      ExpireOneKept(ExpireRows(t, init).value, last);
      assert last !in init;
    }
  }

  // ---------------------------------------------------------------- decisions

  /** Approving a ChangeSet readies the gate that waits for it, rejecting ends the
      gate rejected; either way the run goes on, and the ChangeSet says which. */
  lemma ChangeSetDecided(t: Tables, c: Call, d: Decision, ttl: nat)
    requires Sound(t) && Decide(t, c, d, ttl).Ok? && !Replays(t.approvals[d.approval], d)
    requires t.approvals[d.approval].subject.OfChangeSet?
    ensures var row, u := t.approvals[d.approval], Decide(t, c, d, ttl).value;
      && row.node in t.nodes && row.node in u.nodes && row.subject.task in u.changeSets && d.approval in u.approvals
      && u.approvals[d.approval].status == d.target && u.approvals[d.approval].version == d.version + 1
      && (if d.target.Approved?
          then u.changeSets[row.subject.task].Approved? && u.run.status.Running?
            && (t.nodes[row.node].status.WaitingApproval? ==> u.nodes[row.node] == NodeRow(NodeStatus.Ready, None, None))
          else u.changeSets[row.subject.task].Rejected? && u.nodes[row.node] == REJECTED)
  {
    hide Core, Waits, Flags, Agrees, Reconciled;
    var row := t.approvals[d.approval];
    SoundKept(t);
    var next := if d.target.Approved? then ChangeSetStatus.Approved else ChangeSetStatus.Rejected;
    var moved := t.(changeSets := t.changeSets[row.subject.task := next]);
    MovedKept(t, moved.changeSets);
    ResumeKept(moved, row.node, d.target.Approved?);
    if !d.target.Approved? { RejectedGate(moved, row.node); }
  }

  lemma RejectedGate(t: Tables, r: NodeRun)
    requires RunKept(t) && ResumeIn(t, r, false).Ok?
    ensures r in t.nodes && r in ResumeIn(t, r, false).value.nodes && ResumeIn(t, r, false).value.nodes[r] == REJECTED
  {
    hide Core, Waits, Flags;
    if t.run.status.WaitingApproval? { DoneStays(Wake(t, r, REJECTED), r); }
    else { DoneStays(MoveNode(t, r, NodeStatus.Running, REJECTED), r); }
  }

  lemma DoneStays(t: Tables, r: NodeRun)
    requires r in t.nodes && NodeDone(t.nodes[r].status)
    ensures r in Reconciled(t).nodes && Reconciled(t).nodes[r] == t.nodes[r]
  {
    PassesPartial(t.nodes, t);
  }

  /** Approving a privilege supersedes the attempt and readies a second one whose
      task holds one live grant, no longer lasting than the approval. */
  lemma PrivilegeApproved(t: Tables, c: Call, d: Decision, ttl: nat)
    requires Sound(t) && Decide(t, c, d, ttl).Ok? && !Replays(t.approvals[d.approval], d) && d.target.Approved?
    requires t.approvals[d.approval].subject.OfRequest?
    ensures var row, u := t.approvals[d.approval], Decide(t, c, d, ttl).value; var q, r := row.subject.request, row.node;
      && r in u.nodes && u.nodes[r].status.Superseded? && Next(r) !in t.nodes
      && Next(r) in u.nodes && u.nodes[Next(r)].status.Ready? && u.run.status.Running?
      && Next(r) in u.tasks && u.tasks[Next(r)].status.Pending? && u.tasks[Next(r)].grant == Some(q)
      && q in u.requests && u.requests[q].status.Approved?
      && q in u.grants && Live(u.grants[q]) && u.grants[q].target == Next(r)
      && u.grants[q].expires <= row.expires && u.grants[q].expires <= c.now + ttl
  {
    hide Core, Waits, Flags, Agrees, ApproveRequest;
    SoundKept(t);
    AgreesBound(t);
    ApproveRequestLeaves(t, t.approvals[d.approval].subject.request, t.approvals[d.approval], c.now + ttl);
  }

  /** Rejecting a privilege, or letting its approval lapse, ends the waiting
      attempt rejected and lets the run go on. */
  lemma PrivilegeRefused(t: Tables, c: Call, d: Decision, ttl: nat)
    requires Sound(t) && Decide(t, c, d, ttl).Ok? && !Replays(t.approvals[d.approval], d) && d.target.Rejected?
    requires t.approvals[d.approval].subject.OfRequest?
    ensures var row, u := t.approvals[d.approval], Decide(t, c, d, ttl).value;
      && row.node in u.nodes && u.nodes[row.node] == REJECTED && NoneWaits(u.nodes)
      && row.subject.request in u.requests && u.requests[row.subject.request].status.Rejected? && u.grants == t.grants
  {
    hide Core, Waits, Flags, Agrees, RejectPrivilegeIn;
    SoundKept(t);
    var row := t.approvals[d.approval];
    SetRequestKept(t, row.subject.request, RequestStatus.Rejected);
    RejectPrivilegeKept(SetRequest(t, row.subject.request, RequestStatus.Rejected), row.node);
  }

  lemma PrivilegeLapsed(t: Tables, a: int)
    requires Sound(t) && ExpireOne(t, a).Ok? && t.approvals[a].subject.OfRequest?
    ensures var row, u := t.approvals[a], ExpireOne(t, a).value;
      && a in u.approvals && u.approvals[a].status.Expired?
      && row.subject.request in u.requests && u.requests[row.subject.request].status.Expired? && row.node in t.nodes
      && (t.nodes[row.node].status.WaitingApproval? && t.run.status.WaitingApproval? ==>
            row.node in u.nodes && u.nodes[row.node] == REJECTED)
  {
    hide Core, Waits, Versioned, OnePending, ChangesAgree, RequestsAgree, LedgerAgrees, Woken, RejectPrivilegeIn;
    var row := t.approvals[a];
    var q := row.subject.request;
    PendingAsks(t, a, q);
    RequestNode(t, a, q);
    ExpireOneKept(t, a);
    var ended := Log(t.(requests := t.requests[q := t.requests[q].(status := RequestStatus.Expired)]),
                     RequestMoved(q, Some(t.requests[q].status), RequestStatus.Expired));
    RequestLogKept(t, ended.requests, RequestMoved(q, Some(t.requests[q].status), RequestStatus.Expired));
    if RejectPrivilegeIn(ended, row.node).Ok? { RejectPrivilegeKept(ended, row.node); }
  }

  // ---------------------------------------------------------------- merging, cancelling, orphaning

  /** A merge completes its node with success. */
  lemma MergeCompletes(t: Tables, c: Call, r: NodeRun, cs: NodeRun, commit: int, w: WorkLease)
    requires FinalizeMerge(t, c, r, cs, commit, w).Ok?
    ensures var u := FinalizeMerge(t, c, r, cs, commit, w).value;
      r in u.nodes && u.nodes[r] == NodeRow(NodeStatus.Completed, Some(Outcome.Success), None)
  {
    hide Reconciled;
    var merged := t.(head := commit, run := t.run.(commit := commit, mergeFinalizing := false),
                     changeSets := t.changeSets[cs := ChangeSetStatus.Merged]);
    DoneStays(MoveNode(merged, r, NodeStatus.Running, NodeRow(NodeStatus.Completed, Some(Outcome.Success), None)), r);
  }

  /** Orphaning quarantines what was running or waiting, all of it or the one
      node named, and the run. */
  lemma OrphanQuarantines(t: Tables, c: Call, rows: seq<NodeRun>, only: Option<NodeRun>)
    requires Sound(t) && Orphan(t, c, rows, only).Ok? && !RunDone(t.run.status)
    ensures var u := Orphan(t, c, rows, only).value;
      && u.run.status.Orphaned? && u.nodes.Keys == t.nodes.Keys
      && forall r | r in t.nodes ::
           if r in Uncertain(t.nodes) && (only.None? || only.value == r) then u.nodes[r] == NodeRow(NodeStatus.Orphaned, None, None) else u.nodes[r] == t.nodes[r]
  {
    hide Core, Waits, Flags, Agrees;
    SoundKept(t);
    OrphanKept(t, c, rows, only);
    OrphanedRows(t, rows, only);
    UncertainOpen(t);
    forall r | r in t.nodes ensures r in rows <==> r in Uncertain(t.nodes) {}
  }

  lemma UncertainOpen(t: Tables)
    requires Sound(t)
    ensures forall r | r in Uncertain(t.nodes) :: t.nodes[r].outcome.None?
  {
    hide Consistent, Compiled, Rowed, Waits, Flags, Agrees;
    forall r | r in Uncertain(t.nodes) ensures t.nodes[r].outcome.None? { assert Plain(t.nodes[r]); }
  }

  lemma {:induction false} OrphanedRows(t: Tables, rows: seq<NodeRun>, only: Option<NodeRun>)
    requires forall r | r in rows :: r in t.nodes
    ensures var u := OrphanNodes(t, rows, only);
      && u == t.(nodes := u.nodes, log := u.log, nextSeq := u.nextSeq) && u.nodes.Keys == t.nodes.Keys
      && forall r | r in t.nodes :: u.nodes[r] ==
           if r in rows && (only.None? || only == Some(r)) then NodeRow(NodeStatus.Orphaned, t.nodes[r].outcome, None) else t.nodes[r]
  {
    if rows != [] {
      var r, init := rows[|rows| - 1], rows[..|rows| - 1];
      assert rows == init + [r];
      OrphanedRows(t, init, only);
    }
  }
}
