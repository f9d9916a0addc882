/** Expiry, the use of grants, invalidation, revocation and cancellation keep
    approvals, ChangeSets, requests and grants in agreement. */
module AgreementOnWithdrawal {
  import opened Wrappers
  import opened Records
  import opened Leases
  import opened Scheduling
  import opened WorkflowRuns
  import opened Approvals
  import opened RunInvariant
  import opened RunInvariantOfApprovals
  import opened Agreement
  import opened AgreementOnDecisions

  // ---------------------------------------------------------------- expiry

  lemma PendingAsks(t: Tables, a: int, q: int)
    requires RequestsAgree(t.approvals, t.requests, t.nodes, t.tasks) && Of(t.approvals, a, q) && t.approvals[a].status.Pending?
    ensures Asking(t, q)
  {
  }

  lemma ExpireOneAgrees(t: Tables, a: int)
    requires Sound(t) && ExpireOne(t, a).Ok?
    ensures Agrees(ExpireOne(t, a).value)
  {
    hide Core, Waits, Flags, Versioned, OnePending, ChangesAgree, RequestsAgree, LedgerAgrees, Woken, RejectPrivilegeIn;
    var row := t.approvals[a];
    var after := Lapsed(row, ApprovalStatus.Expired);
    var u := ExpireOne(t, a).value;
    ExpireOneKept(t, a);
    WokenNew(t.nodes, t.approvals, a, after);
    match row.subject
    case OfChangeSet(cs) =>
      VersionedEnds(t.approvals, a, after);
      ChangesLapse(t.approvals, t.changeSets, a, after);
      RequestsLapse(t.approvals, t.requests, t.nodes, t.tasks, a, after);
      LedgerEnds(t.approvals, t.requests, t.grants, t.tasks, a, after);
    case OfRequest(q) =>
      PendingAsks(t, a, q);
      var node := t.requests[q].node;
      var ended := Log(t.(requests := t.requests[q := t.requests[q].(status := RequestStatus.Expired)]),
                       RequestMoved(q, Some(t.requests[q].status), RequestStatus.Expired));
      RequestLogKept(t, ended.requests, RequestMoved(q, Some(t.requests[q].status), RequestStatus.Expired));
      if node in t.nodes && t.nodes[node].status.WaitingApproval? && t.run.status.WaitingApproval? && !t.run.cancelRequested {
        RejectPrivilegeKept(ended, node);
        WokenNone(u);
        NotCancelled(u);
      }
      EndedByRequest(t, u, a, after, q, RequestStatus.Expired);
  }

  lemma {:induction false} ExpireRowsSound(t: Tables, rows: seq<int>)
    requires Sound(t) && ExpireRows(t, rows).Ok?
    ensures Sound(ExpireRows(t, rows).value)
  {
    hide RunKept, Agrees, ExpireOne;
    if rows != [] {
      ExpireRowsSound(t, rows[..|rows| - 1]);
      ExpireOneKept(ExpireRows(t, rows[..|rows| - 1]).value, rows[|rows| - 1]);
      ExpireOneAgrees(ExpireRows(t, rows[..|rows| - 1]).value, rows[|rows| - 1]);
    }
  }

  // ---------------------------------------------------------------- grants

  lemma RequestHasNode(t: Tables, q: int)
    requires RequestsAgree(t.approvals, t.requests, t.nodes, t.tasks) && q in t.requests
    ensures t.requests[q].node in t.nodes
  {
  }

  /** On every reachable state the idempotent grant call changes nothing. */
  lemma CreateGrantIdle(t: Tables, c: Call, q: int, grant: GrantRow)
    requires Sound(t) && CreateGrant(t, c, q, grant).Ok?
    ensures CreateGrant(t, c, q, grant).value == t
  {
    hide RunKept, Versioned, OnePending, ChangesAgree, RequestsAgree, Woken, Quiet, ActivateIn;
    RequestHasNode(t, q);
    CreateGrantOnlyBinds(t, c, q, grant);
    assert Live(t.grants[q]);
  }

  lemma LedgerUsed(approvals: ApprovalRows, requests: RequestRows, grants: GrantRows, tasks: TaskRows, q: int, used: GrantRow)
    requires LedgerAgrees(approvals, requests, grants, tasks) && q in grants && Live(grants[q])
    requires used == grants[q].(consumed := used.consumed) && used.consumed.Some? && UsedInTime(approvals, q, used)
    ensures LedgerAgrees(approvals, requests[q := requests[q].(status := RequestStatus.Consumed)], grants[q := used],
              tasks[used.target := tasks[used.target].(grant := None)])
  {
  }

  lemma ConsumeAgrees(t: Tables, c: Call, q: int, target: NodeRun, subject: int, a: int, w: Option<WorkLease>)
    requires Sound(t) && Consume(t, c, q, target, subject, a, w).Ok?
    ensures Agrees(Consume(t, c, q, target, subject, a, w).value)
  {
    hide RunKept, Versioned, OnePending, ChangesAgree, RequestsAgree, LedgerAgrees, Woken;
    var u := Consume(t, c, q, target, subject, a, w).value;
    assert Of(t.approvals, a, q);
    ApprovedFits(t, q);
    RequestMovedOn(t.approvals, t.requests, t.nodes, t.tasks, q, RequestStatus.Consumed);
    RequestsForward(t.approvals, u.requests, t.nodes, u.nodes, t.tasks, u.tasks);
    LedgerUsed(t.approvals, t.requests, t.grants, t.tasks, q, u.grants[q]);
  }

  lemma ApprovedFits(t: Tables, q: int)
    requires RequestsAgree(t.approvals, t.requests, t.nodes, t.tasks) && q in t.requests && t.requests[q].status.Approved?
    ensures forall a | Of(t.approvals, a, q) ::
      FitsRequest(t.approvals[a].status, RequestStatus.Consumed) && FitsRequest(t.approvals[a].status, RequestStatus.Denied)
  {
  }

  // ---------------------------------------------------------------- invalidation

  lemma InvalidateAgrees(t: Tables, a: int)
    requires Sound(t) && a in t.approvals && t.approvals[a].status.Pending?
    ensures Agrees(Invalidate(t, a))
    ensures Invalidate(t, a).approvals == t.approvals[a := Lapsed(t.approvals[a], ApprovalStatus.Invalidated)]
  {
    hide RunKept, Versioned, OnePending, ChangesAgree, RequestsAgree, LedgerAgrees, Woken;
    var after := Lapsed(t.approvals[a], ApprovalStatus.Invalidated);
    WokenNew(t.nodes, t.approvals, a, after);
    match t.approvals[a].subject
    case OfChangeSet(cs) => InvalidateChange(t, a, cs);
    case OfRequest(q) =>
      PendingAsks(t, a, q);
      EndedByRequest(t, Invalidate(t, a), a, after, q, RequestStatus.Denied);
  }

  lemma InvalidateChange(t: Tables, a: int, cs: NodeRun)
    requires Agrees(t) && On(t.approvals, a, cs) && t.approvals[a].status.Pending?
    ensures var u := Invalidate(t, a);
      && Versioned(u.approvals) && OnePending(u.approvals) && ChangesAgree(u.approvals, u.changeSets)
      && RequestsAgree(u.approvals, u.requests, u.nodes, u.tasks) && LedgerAgrees(u.approvals, u.requests, u.grants, u.tasks)
  {
    hide Versioned, OnePending, ChangesAgree, RequestsAgree, LedgerAgrees, Woken, Quiet;
    var u, after := Invalidate(t, a), Lapsed(t.approvals[a], ApprovalStatus.Invalidated);
    VersionedEnds(t.approvals, a, after);
    ChangesLapse(t.approvals, t.changeSets, a, after);
    if u.changeSets != t.changeSets { ChangeMoved(u.approvals, t.changeSets, cs, ChangeSetStatus.Cancelled); }
    RequestsLapse(t.approvals, t.requests, t.nodes, t.tasks, a, after);
    LedgerEnds(t.approvals, t.requests, t.grants, t.tasks, a, after);
  }

  lemma {:induction false} InvalidateRowsSound(t: Tables, rows: seq<int>)
    requires Sound(t) && (forall i, j | 0 <= i < j < |rows| :: rows[i] != rows[j])
    requires forall a | a in rows :: a in Undecided(t)
    ensures Sound(InvalidateRows(t, rows))
    ensures InvalidateRows(t, rows).approvals.Keys == t.approvals.Keys
    ensures forall a | a in t.approvals ::
      InvalidateRows(t, rows).approvals[a]
      == (if a in rows then Lapsed(t.approvals[a], ApprovalStatus.Invalidated) else t.approvals[a])
  {
    hide RunKept, Agrees, Invalidate;
    if rows != [] {
      var a, init := rows[|rows| - 1], rows[..|rows| - 1];
      assert rows == init + [a];
      InvalidateRowsSound(t, init);
      assert a in Undecided(t) && a !in init;
      InvalidateKept(InvalidateRows(t, init), a);
      InvalidateAgrees(InvalidateRows(t, init), a);
    }
  }

  lemma WithdrawAgrees(t: Tables)
    requires Sound(t)
    ensures Sound(WithdrawChangeSets(t))
  {
    hide Core, Waits, Flags, Versioned, OnePending, RequestsAgree, LedgerAgrees, Woken;
    MovedKept(t, WithdrawChangeSets(t).changeSets);
  }

  lemma LedgerRevoked(approvals: ApprovalRows, requests: RequestRows, grants: GrantRows, tasks: TaskRows, q: int)
    requires LedgerAgrees(approvals, requests, grants, tasks) && q in grants && Live(grants[q])
    ensures q in requests && requests[q].status.Approved? && grants[q].target in tasks && tasks[grants[q].target].grant == Some(q)
    ensures LedgerAgrees(approvals, requests[q := requests[q].(status := RequestStatus.Denied)],
              grants[q := grants[q].(revoked := true)], tasks[grants[q].target := tasks[grants[q].target].(grant := None)])
  {
  }

  lemma RevokeAgrees(t: Tables, q: int)
    requires Sound(t) && q in t.grants && Live(t.grants[q])
    ensures Agrees(Revoke(t, q))
    ensures Revoke(t, q).grants == t.grants[q := t.grants[q].(revoked := true)]
  {
    hide RunKept, Versioned, OnePending, ChangesAgree, RequestsAgree, LedgerAgrees, Woken;
    LedgerRevoked(t.approvals, t.requests, t.grants, t.tasks, q);
    var u := Revoke(t, q);
    ApprovedFits(t, q);
    RequestMovedOn(t.approvals, t.requests, t.nodes, t.tasks, q, RequestStatus.Denied);
    RequestsForward(t.approvals, u.requests, t.nodes, u.nodes, t.tasks, u.tasks);
  }

  lemma {:induction false} RevokeRowsSound(t: Tables, rows: seq<int>)
    requires Sound(t) && (forall i, j | 0 <= i < j < |rows| :: rows[i] != rows[j])
    requires forall q | q in rows :: q in Unused(t)
    ensures Sound(RevokeRows(t, rows))
    ensures RevokeRows(t, rows).grants.Keys == t.grants.Keys
    ensures forall q | q in t.grants ::
      RevokeRows(t, rows).grants[q] == (if q in rows then t.grants[q].(revoked := true) else t.grants[q])
  {
    hide RunKept, Agrees, Revoke;
    if rows != [] {
      var q, init := rows[|rows| - 1], rows[..|rows| - 1];
      assert rows == init + [q];
      RevokeRowsSound(t, init);
      assert q in Unused(t) && q !in init;
      RevokeKept(RevokeRows(t, init), q);
      RevokeAgrees(RevokeRows(t, init), q);
    }
  }

  /** What cancelling withdraws: no approval pending, no grant live, no
      ChangeSet awaiting or holding approval. */
  lemma WithdrawnQuiet(t: Tables, approvals: seq<int>, grants: seq<int>)
    requires Sound(t) && Fetched(approvals, Undecided(t)) && Fetched(grants, Unused(t))
    ensures var u := RevokeRows(WithdrawChangeSets(InvalidateRows(t, approvals)), grants);
      && Sound(u) && u == t.(approvals := u.approvals, changeSets := u.changeSets, requests := u.requests, grants := u.grants,
                             tasks := u.tasks, log := u.log, nextSeq := u.nextSeq)
      && (forall a | a in u.approvals :: !u.approvals[a].status.Pending?)
      && (forall q | q in u.grants :: !Live(u.grants[q]))
      && (forall cs | cs in u.changeSets :: !u.changeSets[cs].PendingApproval? && !u.changeSets[cs].Approved?)
  {
    hide RunKept, Agrees, InvalidateRows, RevokeRows;
    InvalidateRowsSound(t, approvals);
    SoundKept(t);
    InvalidateRowsKept(t, approvals);
    var i := InvalidateRows(t, approvals);
    forall a | a in i.approvals ensures !i.approvals[a].status.Pending? {
      assert a in approvals <==> a in Undecided(t);
    }
    WithdrawAgrees(i);
    var w := WithdrawChangeSets(i);
    RevokeRowsSound(w, grants);
    SoundKept(w);
    RevokeRowsKept(w, grants);
    forall q | q in w.grants ensures !Live(RevokeRows(w, grants).grants[q]) {
      assert q in grants <==> q in Unused(t);
    }
  }

  lemma SoundKept(t: Tables)
    requires Sound(t)
    ensures RunKept(t)
  {
  }

  lemma CancelAgrees(t: Tables, c: Call, approvals: seq<int>, grants: seq<int>, nodes: seq<NodeRun>)
    requires Sound(t) && Cancel(t, c, approvals, grants, nodes).Ok?
    ensures Agrees(Cancel(t, c, approvals, grants, nodes).value)
  {
    hide Core, Waits, Versioned, OnePending, ChangesAgree, RequestsAgree, LedgerAgrees, Woken, InvalidateRows, RevokeRows, CancelNodes;
    if !RunDone(t.run.status) || t.run.cancelRequested {
      WithdrawnQuiet(t, approvals, grants);
      var w := RevokeRows(WithdrawChangeSets(InvalidateRows(t, approvals)), grants);
      var u := Cancel(t, c, approvals, grants, nodes).value;
      if !RunDone(t.run.status) {
        CancelNodesKept(w, nodes);
        SteadyOnward(w.nodes, u.nodes);
        RequestsForward(w.approvals, w.requests, w.nodes, u.nodes, w.tasks, u.tasks);
        LedgerForward(w.approvals, w.requests, w.grants, w.tasks, u.tasks);
        WokenOnward(w.nodes, u.nodes, w.approvals);
      }
    }
  }

  lemma SteadyOnward(was: Rows, nodes: Rows)
    requires Steady(was, nodes)
    ensures Onward(was, nodes)
  {
  }

  lemma WokenOnward(was: Rows, nodes: Rows, approvals: ApprovalRows)
    requires Woken(was, approvals) && Onward(was, nodes)
    ensures Woken(nodes, approvals)
  {
  }
}
