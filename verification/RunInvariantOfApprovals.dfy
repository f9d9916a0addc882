/** The run invariant under the steps of approvals, grants, expiry, orphaning and
    cancellation, and under lease writes. */
module RunInvariantOfApprovals {
  import opened Wrappers
  import opened Records
  import opened Leases
  import opened WorkflowRuns
  import opened Approvals
  import opened Audit
  import opened RunInvariant

  // ---------------------------------------------------------------- approval rows

  lemma MoveApprovalKept(t: Tables, a: int, row: ApprovalRow)
    requires RunKept(t) && a in t.approvals && row.version == t.approvals[a].version + 1
    ensures RunKept(MoveApproval(t, a, row))
  {
    hide Consistent, Compiled, Rowed;
    ApprovalAudited(t, a, row, Some(t.approvals[a].status));
  }

  lemma InsertApprovalKept(t: Tables, a: int, row: ApprovalRow)
    requires RunKept(t) && a !in t.approvals
    ensures RunKept(InsertApproval(t, a, row))
  {
    hide Consistent, Compiled, Rowed;
    ApprovalAudited(t, a, row, None);
  }

  lemma LogKept(t: Tables, e: Event)
    requires RunKept(t) && Silent(e) && Rightful(e, LockToken(t))
    ensures RunKept(Log(t, e))
  {
    hide Consistent, Compiled, Rowed;
    LogCore(t, e);
  }

  lemma InsertOrFindKept(t: Tables, a: int, row: ApprovalRow)
    requires RunKept(t) && InsertOrFind(t, a, row).Ok?
    ensures RunKept(InsertOrFind(t, a, row).value)
  {
    hide Consistent, Compiled, Rowed;
    if !exists b :: PendingOn(t, row.subject, b) {
      match row.subject
      case OfChangeSet(cs) => InsertApprovalKept(SubmitChangeSet(t, cs), a, row);
      case OfRequest(q) =>
        LogKept(t.(requests := t.requests[q := t.requests[q].(status := RequestStatus.WaitingApproval)]),
          RequestMoved(q, Some(t.requests[q].status), RequestStatus.WaitingApproval));
        InsertApprovalKept(AwaitRequest(t, q), a, row);
    }
  }

  lemma RenewKept(t: Tables, c: Call, prior: int, version: nat, hash: int, a: int, row: ApprovalRow)
    requires RunKept(t) && Renew(t, c, prior, version, hash, a, row).Ok?
    ensures RunKept(Renew(t, c, prior, version, hash, a, row).value)
  {
    hide Core, Waits, Flags;
    InsertApprovalKept(t, a, row);
  }

  lemma CreateRequestKept(t: Tables, c: Call, q: int, row: RequestRow, w: WorkLease)
    requires RunKept(t) && CreateRequest(t, c, q, row, w).Ok?
    ensures RunKept(CreateRequest(t, c, q, row, w).value)
  {
    hide Consistent, Compiled, Rowed;
    if q !in t.requests { LogKept(t.(requests := t.requests[q := row]), RequestMoved(q, None, row.status)); }
  }

  // ---------------------------------------------------------------- decisions

  lemma SetRequestKept(t: Tables, q: int, next: RequestStatus)
    requires RunKept(t) && q in t.requests
    ensures RunKept(SetRequest(t, q, next))
  {
    hide Consistent, Compiled, Rowed;
    LogKept(t.(requests := t.requests[q := t.requests[q].(status := next)]), RequestMoved(q, Some(RequestStatus.WaitingApproval), next));
  }

  lemma DecideChangeSetKept(t: Tables, cs: NodeRun, node: NodeRun, target: ApprovalStatus)
    requires RunKept(t) && DecideChangeSet(t, cs, node, target).Ok?
    ensures RunKept(DecideChangeSet(t, cs, node, target).value)
    ensures DecideChangeSet(t, cs, node, target).value.approvals == t.approvals
  {
    hide Consistent, Compiled, Rowed, ResumeIn;
    var next := if target.Approved? then ChangeSetStatus.Approved else ChangeSetStatus.Rejected;
    ResumeKept(t.(changeSets := t.changeSets[cs := next]), node, target.Approved?);
  }

  lemma RejectRequestKept(t: Tables, q: int, node: NodeRun)
    requires RunKept(t) && RejectRequest(t, q, node).Ok?
    ensures RunKept(RejectRequest(t, q, node).value)
    ensures RejectRequest(t, q, node).value.approvals == t.approvals
  {
    hide Core, Waits, Flags, RejectPrivilegeIn;
    SetRequestKept(t, q, RequestStatus.Rejected);
    RejectPrivilegeKept(SetRequest(t, q, RequestStatus.Rejected), node);
  }

  lemma DecideKept(t: Tables, c: Call, d: Decision, ttl: nat)
    requires RunKept(t) && GrantsBound(t) && Decide(t, c, d, ttl).Ok?
    ensures RunKept(Decide(t, c, d, ttl).value)
  {
    hide Core, Waits, Flags, GrantsBound, ApproveRequest, RejectRequest, DecideChangeSet;
    var row := t.approvals[d.approval];
    if Replays(row, d) {
      ReplayKept(t, d);
    } else {
      match row.subject
      case OfChangeSet(cs) =>
        DecideChangeSetKept(t, cs, row.node, d.target);
        MoveApprovalKept(DecideChangeSet(t, cs, row.node, d.target).value, d.approval, DecidedRow(row, d));
      case OfRequest(q) =>
        if d.target.Approved? {
          ApproveRequestKept(t, q, row, c.now + ttl);
          ApproveRequestLeaves(t, q, row, c.now + ttl);
          MoveApprovalKept(ApproveRequest(t, q, row, c.now + ttl).value, d.approval, DecidedRow(row, d));
        } else {
          RejectRequestKept(t, q, row.node);
          MoveApprovalKept(RejectRequest(t, q, row.node).value, d.approval, DecidedRow(row, d));
        }
    }
  }

  lemma ReplayKept(t: Tables, d: Decision)
    requires RunKept(t) && d.approval in t.approvals && Replay(t, d).Ok?
    ensures RunKept(Replay(t, d).value)
  {
    hide Compiled, Rowed, Waits, Flags, TellNode, TellRun, TellApproval, Numbered, Lawful;
  }

  // ---------------------------------------------------------------- expiry

  lemma ExpireOneKept(t: Tables, a: int)
    requires RunKept(t) && ExpireOne(t, a).Ok?
    ensures RunKept(ExpireOne(t, a).value)
    ensures ExpireOne(t, a).value.approvals == t.approvals[a := Lapsed(t.approvals[a], ApprovalStatus.Expired)]
  {
    hide Core, Waits, Flags, RejectPrivilegeIn;
    var row := t.approvals[a];
    var lapsed := Lapsed(row, ApprovalStatus.Expired);
    if row.subject.OfChangeSet? || !Asking(t, row.subject.request) {
      MoveApprovalKept(t, a, lapsed);
    } else {
      var q := row.subject.request;
      var node := t.requests[q].node;
      var ended := Log(t.(requests := t.requests[q := t.requests[q].(status := RequestStatus.Expired)]),
                       RequestMoved(q, Some(t.requests[q].status), RequestStatus.Expired));
      RequestLogKept(t, t.requests[q := t.requests[q].(status := RequestStatus.Expired)],
        RequestMoved(q, Some(t.requests[q].status), RequestStatus.Expired));
      if node in t.nodes && t.nodes[node].status.WaitingApproval? && t.run.status.WaitingApproval? && !t.run.cancelRequested {
        RejectPrivilegeKept(ended, node);
        MoveApprovalKept(RejectPrivilegeIn(ended, node).value, a, lapsed);
      } else {
        MoveApprovalKept(ended, a, lapsed);
      }
    }
  }

  lemma RequestLogKept(t: Tables, requests: map<int, RequestRow>, e: Event)
    requires RunKept(t) && e.RequestMoved?
    ensures RunKept(Log(t.(requests := requests), e))
  {
    hide Consistent, Compiled, Rowed;
    LogKept(t.(requests := requests), e);
  }

  // ---------------------------------------------------------------- grants

  lemma GrantLogKept(t: Tables, grants: map<int, GrantRow>, requests: map<int, RequestRow>, tasks: map<NodeRun, TaskRow>, e: Event)
    requires RunKept(t) && tasks.Keys == t.tasks.Keys && (e.GrantChanged? || e.RequestMoved?)
    ensures RunKept(Log(t.(grants := grants, requests := requests, tasks := tasks), e))
  {
    hide Consistent, Compiled, Rowed;
    RowedTasks(t.(tasks := tasks), t.tasks);
    LogKept(t.(grants := grants, requests := requests, tasks := tasks), e);
  }

  lemma ConsumeKept(t: Tables, c: Call, q: int, target: NodeRun, subject: int, a: int, w: Option<WorkLease>)
    requires RunKept(t) && Consume(t, c, q, target, subject, a, w).Ok?
    ensures RunKept(Consume(t, c, q, target, subject, a, w).value)
  {
    hide Core, Waits, Flags;
    var token := w.value.token;
    GrantLogKept(t, t.grants[q := t.grants[q].(consumed := Some(Use(c.now, token)))],
      t.requests[q := t.requests[q].(status := RequestStatus.Consumed)],
      t.tasks[target := t.tasks[target].(grant := None)], GrantChanged(q, Some(token)));
  }

  /** A second attempt is never pending, so finding a grant activates nothing. */
  lemma CreateGrantOnlyBinds(t: Tables, c: Call, q: int, grant: GrantRow)
    requires RunKept(t) && CreateGrant(t, c, q, grant).Ok? && t.requests[q].node in t.nodes
    ensures q in t.grants && grant.target in t.tasks && t.grants[q].target == grant.target
    ensures CreateGrant(t, c, q, grant).value ==
      if t.tasks[grant.target].grant.None?
      then t.(tasks := t.tasks[grant.target := t.tasks[grant.target].(grant := Some(q))]) else t
  {
    hide Consistent, Compiled, Waits, Flags;
    assert grant.target.attempt == 2;
  }

  // ---------------------------------------------------------------- orphaning

  lemma {:induction false} OrphanNodesKept(t: Tables, rows: seq<NodeRun>, only: Option<NodeRun>)
    requires Core(t) && (forall i, j | 0 <= i < j < |rows| :: rows[i] != rows[j])
    requires forall r | r in rows :: r in Uncertain(t.nodes)
    ensures Core(OrphanNodes(t, rows, only)) && Steady(t.nodes, OrphanNodes(t, rows, only).nodes)
    ensures var u := OrphanNodes(t, rows, only); u == t.(nodes := u.nodes, log := u.log, nextSeq := u.nextSeq)
    ensures forall r | r in t.nodes && r !in rows :: OrphanNodes(t, rows, only).nodes[r] == t.nodes[r]
  {
    hide Consistent, Compiled, Rowed;
    if rows != [] {
      var r, init := rows[|rows| - 1], rows[..|rows| - 1];
      assert rows == init + [r];
      OrphanNodesKept(t, init, only);
      var before := OrphanNodes(t, init, only);
      assert r !in init && r in Uncertain(t.nodes);
      if !(only.Some? && only.value != r) {
        NodeCore(before, r, t.nodes[r].status, t.nodes[r].(status := NodeStatus.Orphaned, waitsFor := None));
      }
    }
  }

  lemma OrphanKept(t: Tables, c: Call, rows: seq<NodeRun>, only: Option<NodeRun>)
    requires RunKept(t) && Orphan(t, c, rows, only).Ok?
    ensures RunKept(Orphan(t, c, rows, only).value) && Steady(t.nodes, Orphan(t, c, rows, only).value.nodes)
    ensures var u := Orphan(t, c, rows, only).value;
      u == t.(nodes := u.nodes, run := t.run.(status := u.run.status), log := u.log, nextSeq := u.nextSeq)
  {
    hide Consistent, Compiled, Rowed, OrphanNodes;
    if !RunDone(t.run.status) || t.run.status.Orphaned? {
      OrphanNodesKept(t, rows, only);
      if !t.run.status.Orphaned? { RunCore(OrphanNodes(t, rows, only), t.run.status, RunStatus.Orphaned); }
    }
  }

  // ---------------------------------------------------------------- cancellation

  lemma WithdrawSubjectKept(t: Tables, subject: Subject)
    requires RunKept(t)
    ensures RunKept(WithdrawSubject(t, subject))
    ensures var u := WithdrawSubject(t, subject);
      u == t.(changeSets := u.changeSets, requests := u.requests, log := u.log, nextSeq := u.nextSeq)
  {
    hide Consistent, Compiled, Rowed;
    if subject.OfRequest? && Asking(t, subject.request) { SetRequestKept(t, subject.request, RequestStatus.Denied); }
  }

  lemma InvalidateKept(t: Tables, a: int)
    requires RunKept(t)
    ensures RunKept(Invalidate(t, a))
    ensures var u := Invalidate(t, a);
      u == t.(changeSets := u.changeSets, requests := u.requests, log := u.log, nextSeq := u.nextSeq, approvals := u.approvals)
  {
    hide Core, Waits, Flags, WithdrawSubject;
    if a in t.approvals {
      WithdrawSubjectKept(t, t.approvals[a].subject);
      MoveApprovalKept(WithdrawSubject(t, t.approvals[a].subject), a, Lapsed(t.approvals[a], ApprovalStatus.Invalidated));
    }
  }

  lemma {:induction false} InvalidateRowsKept(t: Tables, rows: seq<int>)
    requires RunKept(t)
    ensures RunKept(InvalidateRows(t, rows))
    ensures var u := InvalidateRows(t, rows);
      u == t.(changeSets := u.changeSets, requests := u.requests, log := u.log, nextSeq := u.nextSeq, approvals := u.approvals)
  {
    hide Core, Waits, Flags, Invalidate;
    if rows != [] {
      InvalidateRowsKept(t, rows[..|rows| - 1]);
      InvalidateKept(InvalidateRows(t, rows[..|rows| - 1]), rows[|rows| - 1]);
    }
  }

  lemma RevokeKept(t: Tables, q: int)
    requires RunKept(t)
    ensures RunKept(Revoke(t, q))
    ensures var u := Revoke(t, q);
      u == t.(requests := u.requests, tasks := u.tasks, log := u.log, nextSeq := u.nextSeq, grants := u.grants)
  {
    hide Core, Waits, Flags;
    if q in t.grants {
      var g := t.grants[q];
      var tasks := if g.target in t.tasks && t.tasks[g.target].grant == Some(q)
        then t.tasks[g.target := t.tasks[g.target].(grant := None)] else t.tasks;
      var grants := t.grants[q := g.(revoked := true)];
      if q in t.requests && t.requests[q].status.Approved? {
        var requests := t.requests[q := t.requests[q].(status := RequestStatus.Denied)];
        var e := RequestMoved(q, Some(RequestStatus.Approved), RequestStatus.Denied);
        GrantLogKept(t, grants, requests, tasks, e);
        var denied := Log(t.(grants := grants, requests := requests, tasks := tasks), e);
        GrantLogKept(denied, grants, requests, tasks, GrantChanged(q, None));
        assert Revoke(t, q) == Log(denied.(grants := grants, requests := requests, tasks := tasks), GrantChanged(q, None));
      } else {
        GrantLogKept(t, grants, t.requests, tasks, GrantChanged(q, None));
      }
    }
  }

  lemma {:induction false} RevokeRowsKept(t: Tables, rows: seq<int>)
    requires RunKept(t)
    ensures RunKept(RevokeRows(t, rows))
    ensures var u := RevokeRows(t, rows);
      u == t.(requests := u.requests, tasks := u.tasks, log := u.log, nextSeq := u.nextSeq, grants := u.grants)
  {
    hide Core, Waits, Flags, Revoke;
    if rows != [] {
      RevokeRowsKept(t, rows[..|rows| - 1]);
      RevokeKept(RevokeRows(t, rows[..|rows| - 1]), rows[|rows| - 1]);
    }
  }

  const CANCELLED := NodeRow(NodeStatus.Cancelled, Some(Outcome.Cancelled), None)

  lemma StopTaskTasks(t: Tables, r: NodeRun)
    ensures StopTask(t, r) == t.(tasks := StopTask(t, r).tasks)
    ensures StopTask(t, r).tasks.Keys == t.tasks.Keys
    ensures forall s | s in t.tasks :: StopTask(t, r).tasks[s].grant == t.tasks[s].grant
  {
  }

  lemma StopTaskCore(t: Tables, r: NodeRun)
    requires Core(t)
    ensures Core(StopTask(t, r))
  {
    hide Consistent, Compiled, Rowed, Plain, StopTask;
    StopTaskTasks(t, r);
    RowedTasks(StopTask(t, r), t.tasks);
  }

  lemma {:induction false} CancelNodesKept(t: Tables, rows: seq<NodeRun>)
    requires Core(t) && (forall i, j | 0 <= i < j < |rows| :: rows[i] != rows[j])
    requires forall r | r in rows :: r in Active(t.nodes)
    ensures Core(CancelNodes(t, rows)) && Steady(t.nodes, CancelNodes(t, rows).nodes)
    ensures var u := CancelNodes(t, rows); u == t.(nodes := u.nodes, tasks := u.tasks, log := u.log, nextSeq := u.nextSeq)
    ensures forall r | r in t.nodes :: CancelNodes(t, rows).nodes[r] == if r in rows then CANCELLED else t.nodes[r]
    ensures CancelNodes(t, rows).tasks.Keys == t.tasks.Keys
    ensures forall s | s in t.tasks :: CancelNodes(t, rows).tasks[s].grant == t.tasks[s].grant
  {
    hide Core, StopTask;
    if rows != [] {
      var r, init := rows[|rows| - 1], rows[..|rows| - 1];
      assert rows == init + [r];
      CancelNodesKept(t, init);
      StopTaskCore(CancelNodes(t, init), r);
      StopTaskTasks(CancelNodes(t, init), r);
      assert r !in init && r in Active(t.nodes);
      NodeCore(StopTask(CancelNodes(t, init), r), r, t.nodes[r].status, CANCELLED);
    }
  }

  /** A cancelled run is over: all its nodes are terminal. */
  lemma CancelKept(t: Tables, c: Call, approvals: seq<int>, grants: seq<int>, nodes: seq<NodeRun>)
    requires RunKept(t) && Cancel(t, c, approvals, grants, nodes).Ok?
    ensures RunKept(Cancel(t, c, approvals, grants, nodes).value)
  {
    hide Consistent, Compiled, Rowed, InvalidateRows, RevokeRows, CancelNodes;
    if !RunDone(t.run.status) || t.run.cancelRequested {
      InvalidateRowsKept(t, approvals);
      var withdrawn := WithdrawChangeSets(InvalidateRows(t, approvals));
      RevokeRowsKept(withdrawn, grants);
      var revoked := RevokeRows(withdrawn, grants);
      if RunDone(t.run.status) {
        LogKept(revoked, CancellationRecovered);
      } else {
        EndRunKept(revoked, nodes);
        LogKept(EndRun(CancelNodes(revoked, nodes)), CancellationRecovered);
      }
    }
  }

  lemma EndRunKept(t: Tables, nodes: seq<NodeRun>)
    requires RunKept(t) && !t.run.mergeFinalizing && Fetched(nodes, Active(t.nodes))
    ensures RunKept(EndRun(CancelNodes(t, nodes)))
  {
    hide Consistent, Compiled, Rowed, CancelNodes;
    CancelNodesKept(t, nodes);
    var u := CancelNodes(t, nodes);
    forall r | r in u.nodes ensures NodeDone(u.nodes[r].status) {
      assert r in Active(t.nodes) <==> !NodeDone(t.nodes[r].status);
    }
    RunCore(u.(run := u.run.(cancelRequested := true)), t.run.status, RunStatus.Cancelled);
  }

  // ---------------------------------------------------------------- leases

  lemma MasterKept(t: Tables, row: LeaseRow)
    requires RunKept(t) && row.token >= MasterToken(t)
    ensures RunKept(t.(master := Some(row)))
  {
    hide Compiled, Rowed, Waits, Flags, TellNode, TellRun, TellApproval, Lawful;
  }

  lemma LockKept(t: Tables, row: LockRow)
    requires RunKept(t) && row.token >= LockToken(t)
    ensures RunKept(t.(lock := Some(row)))
  {
    hide Compiled, Rowed, Waits, Flags, TellNode, TellRun, TellApproval, Numbered;
  }
}
