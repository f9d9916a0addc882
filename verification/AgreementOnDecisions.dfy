/** Captures, merges, new approvals and decisions keep approvals, ChangeSets,
    requests and grants in agreement. */
module AgreementOnDecisions {
  import opened Wrappers
  import opened Records
  import opened Leases
  import opened Scheduling
  import opened WorkflowRuns
  import opened Approvals
  import opened ChangeSets
  import opened Audit
  import opened RunInvariant
  import opened RunInvariantOfApprovals
  import opened Agreement

  // ---------------------------------------------------------------- ChangeSet statuses

  lemma ChangeAdded(approvals: ApprovalRows, changes: ChangeSetRows, cs: NodeRun, status: ChangeSetStatus)
    requires ChangesAgree(approvals, changes) && cs !in changes
    requires !status.Approved? && !status.Merged? && !status.Rejected?
    ensures ChangesAgree(approvals, changes[cs := status])
  {
    assert forall a :: !On(approvals, a, cs);
  }

  lemma ChangeMoved(approvals: ApprovalRows, changes: ChangeSetRows, cs: NodeRun, next: ChangeSetStatus)
    requires ChangesAgree(approvals, changes) && cs in changes && Allowed(changes[cs], next)
    requires !next.Approved? && !next.Rejected?
    ensures ChangesAgree(approvals, changes[cs := next])
  {
    if next.Merged? { assert Answered(approvals, cs, ApprovalStatus.Approved); }
  }

  lemma CaptureAgrees(t: Tables, c: Call, r: NodeRun, status: ChangeSetStatus, target: TaskStatus, hasError: bool, w: WorkLease)
    requires Sound(t) && Capture(t, c, r, status, target, hasError, w).Ok?
    ensures Agrees(Capture(t, c, r, status, target, hasError, w).value)
  {
    hide RunKept, Versioned, OnePending, ChangesAgree, RequestsAgree, LedgerAgrees, Woken, IsWrite;
    var u := Capture(t, c, r, status, target, hasError, w).value;
    ChangeAdded(t.approvals, t.changeSets, r, status);
    RequestsForward(t.approvals, t.requests, t.nodes, u.nodes, t.tasks, u.tasks);
    LedgerForward(t.approvals, t.requests, t.grants, t.tasks, u.tasks);
  }

  lemma TransitionAgrees(t: Tables, c: Call, r: NodeRun, was: ChangeSetStatus, next: ChangeSetStatus, w: Option<WorkLease>)
    requires Sound(t) && Transition(t, c, r, was, next, w).Ok? && !Reserved(next)
    ensures Agrees(Transition(t, c, r, was, next, w).value)
  {
    hide RunKept, Versioned, OnePending, ChangesAgree, RequestsAgree, LedgerAgrees, Woken;
    ChangeMoved(t.approvals, t.changeSets, r, next);
  }

  lemma FinalizeMergeAgrees(t: Tables, c: Call, r: NodeRun, cs: NodeRun, commit: int, w: WorkLease)
    requires Sound(t) && FinalizeMerge(t, c, r, cs, commit, w).Ok?
    ensures Agrees(FinalizeMerge(t, c, r, cs, commit, w).value)
  {
    hide Core, Waits, Versioned, OnePending, ChangesAgree, RequestsAgree, LedgerAgrees, Reconciled, Flags;
    FinalizeMergeKept(t, c, r, cs, commit, w);
    var u := FinalizeMerge(t, c, r, cs, commit, w).value;
    ChangeMoved(t.approvals, t.changeSets, cs, ChangeSetStatus.Merged);
    RequestsForward(t.approvals, t.requests, t.nodes, u.nodes, t.tasks, u.tasks);
  }

  // ---------------------------------------------------------------- new approvals

  lemma VersionedNew(approvals: ApprovalRows, a: int, row: ApprovalRow)
    requires Versioned(approvals) && OnePending(approvals) && a !in approvals
    requires row.status.Pending? && row.version == 1 && !row.risk.L4?
    requires forall b | b in approvals && approvals[b].status.Pending? :: approvals[b].subject != row.subject
    ensures Versioned(approvals[a := row]) && OnePending(approvals[a := row])
  {
  }

  lemma ChangesNew(approvals: ApprovalRows, changes: ChangeSetRows, a: int, row: ApprovalRow)
    requires ChangesAgree(approvals, changes) && a !in approvals && row.status.Pending?
    requires row.subject.OfChangeSet? ==> row.subject.task in changes && changes[row.subject.task].PendingApproval?
    ensures ChangesAgree(approvals[a := row], changes)
  {
    forall cs, s | Answered(approvals, cs, s) ensures Answered(approvals[a := row], cs, s) {
      var b :| On(approvals, b, cs) && approvals[b].status == s;
      assert On(approvals[a := row], b, cs);
    }
    var after := approvals[a := row];
    forall b, cs | On(after, b, cs) ensures cs in changes && Fits(after[b].status, changes[cs]) {
      if b != a { assert On(approvals, b, cs); }
    }
    forall b, c, cs | On(after, b, cs) && On(after, c, cs) && Decided(after[b].status) && Decided(after[c].status) ensures b == c {
      assert On(approvals, b, cs) && On(approvals, c, cs);
    }
  }

  lemma RequestsNew(approvals: ApprovalRows, requests: RequestRows, nodes: Rows, tasks: TaskRows, a: int, row: ApprovalRow)
    requires RequestsAgree(approvals, requests, nodes, tasks) && a !in approvals && row.status.Pending?
    requires row.subject.OfRequest? ==>
      var q := row.subject.request;
      q in requests && requests[q].node == row.node && requests[q].status.WaitingApproval? && forall b :: !Of(approvals, b, q)
    ensures RequestsAgree(approvals[a := row], requests, nodes, tasks)
  {
    forall q | Permitted(approvals, q) ensures Permitted(approvals[a := row], q) {
      var b :| Of(approvals, b, q) && approvals[b].status.Approved?;
      assert Of(approvals[a := row], b, q);
    }
    var after := approvals[a := row];
    forall b, q | Of(after, b, q)
      ensures q in requests && after[b].node == requests[q].node && requests[q].node in nodes
        && FitsRequest(after[b].status, requests[q].status) && Past(after[b].status, nodes[requests[q].node].status)
    {
      if b != a { assert Of(approvals, b, q); }
    }
    forall b, c, q | Of(after, b, q) && Of(after, c, q) ensures b == c {
      assert b != a ==> Of(approvals, b, q);
      assert c != a ==> Of(approvals, c, q);
    }
  }

  lemma LedgerNew(approvals: ApprovalRows, requests: RequestRows, grants: GrantRows, tasks: TaskRows, a: int, row: ApprovalRow)
    requires LedgerAgrees(approvals, requests, grants, tasks) && a !in approvals
    ensures LedgerAgrees(approvals[a := row], requests, grants, tasks)
  {
    forall q | q in grants && grants[q].consumed.Some? ensures UsedInTime(approvals[a := row], q, grants[q]) {
      assert UsedInTime(approvals, q, grants[q]);
      var b :| Of(approvals, b, q) && approvals[b].status.Approved? && grants[q].consumed.value.at < approvals[b].expires;
      assert Of(approvals[a := row], b, q);
    }
  }

  /** A request that still asks has no approval yet, pending ones aside. */
  lemma NoApprovalYet(t: Tables, q: int)
    requires RequestsAgree(t.approvals, t.requests, t.nodes, t.tasks) && Asking(t, q)
    requires forall b :: !PendingOn(t, OfRequest(q), b)
    ensures forall b :: !Of(t.approvals, b, q)
  {
    forall b ensures !Of(t.approvals, b, q) {
      assert !PendingOn(t, OfRequest(q), b);
    }
  }

  lemma RequestMovedOn(approvals: ApprovalRows, requests: RequestRows, nodes: Rows, tasks: TaskRows, q: int, next: RequestStatus)
    requires RequestsAgree(approvals, requests, nodes, tasks) && q in requests && !next.Approved?
    requires forall a | Of(approvals, a, q) :: FitsRequest(approvals[a].status, next)
    ensures RequestsAgree(approvals, requests[q := requests[q].(status := next)], nodes, tasks)
  {
  }

  lemma LedgerMovedOn(approvals: ApprovalRows, requests: RequestRows, grants: GrantRows, tasks: TaskRows, q: int, next: RequestStatus)
    requires LedgerAgrees(approvals, requests, grants, tasks) && q in requests
    requires !requests[q].status.Approved? && !requests[q].status.Consumed? && !requests[q].status.Denied?
    requires !next.Approved? && !next.Consumed?
    ensures LedgerAgrees(approvals, requests[q := requests[q].(status := next)], grants, tasks)
  {
  }

  lemma WokenNew(nodes: Rows, approvals: ApprovalRows, a: int, row: ApprovalRow)
    requires Woken(nodes, approvals) && !Decided(row.status)
    ensures Woken(nodes, approvals[a := row])
  {
  }

  lemma InsertOrFindAgrees(t: Tables, a: int, row: ApprovalRow)
    requires Sound(t) && Fresh(row) && !row.risk.L4? && InsertOrFind(t, a, row).Ok?
    ensures Agrees(InsertOrFind(t, a, row).value)
  {
    hide Core, Waits, Versioned, OnePending, ChangesAgree, RequestsAgree, LedgerAgrees, Woken;
    if !exists b :: PendingOn(t, row.subject, b) {
      forall b | b in t.approvals && t.approvals[b].status.Pending? ensures t.approvals[b].subject != row.subject {
        assert !PendingOn(t, row.subject, b);
      }
      VersionedNew(t.approvals, a, row);
      WokenNew(t.nodes, t.approvals, a, row);
      match row.subject
      case OfChangeSet(cs) =>
        if t.changeSets[cs].TestPassed? { ChangeMoved(t.approvals, t.changeSets, cs, ChangeSetStatus.PendingApproval); }
        ChangesNew(t.approvals, SubmitChangeSet(t, cs).changeSets, a, row);
        RequestsNew(t.approvals, t.requests, t.nodes, t.tasks, a, row);
        LedgerNew(t.approvals, t.requests, t.grants, t.tasks, a, row);
      case OfRequest(q) =>
        NoApprovalYet(t, q);
        var asked := AwaitRequest(t, q);
        RequestMovedOn(t.approvals, t.requests, t.nodes, t.tasks, q, RequestStatus.WaitingApproval);
        LedgerMovedOn(t.approvals, t.requests, t.grants, t.tasks, q, RequestStatus.WaitingApproval);
        ChangesNew(t.approvals, t.changeSets, a, row);
        RequestsNew(t.approvals, asked.requests, t.nodes, t.tasks, a, row);
        LedgerNew(t.approvals, asked.requests, t.grants, t.tasks, a, row);
    }
  }

  lemma RenewAgrees(t: Tables, c: Call, prior: int, version: nat, hash: int, a: int, row: ApprovalRow)
    requires Sound(t) && Renew(t, c, prior, version, hash, a, row).Ok?
    ensures Agrees(Renew(t, c, prior, version, hash, a, row).value)
  {
    hide Core, Waits, Versioned, OnePending, ChangesAgree, RequestsAgree, LedgerAgrees, Woken;
    forall b | b in t.approvals && t.approvals[b].status.Pending? ensures t.approvals[b].subject != row.subject {
      assert !PendingOn(t, row.subject, b);
    }
    VersionedNew(t.approvals, a, row);
    WokenNew(t.nodes, t.approvals, a, row);
    ChangesNew(t.approvals, t.changeSets, a, row);
    RequestsNew(t.approvals, t.requests, t.nodes, t.tasks, a, row);
    LedgerNew(t.approvals, t.requests, t.grants, t.tasks, a, row);
  }

  lemma CreateRequestAgrees(t: Tables, c: Call, q: int, row: RequestRow, w: WorkLease)
    requires Sound(t) && CreateRequest(t, c, q, row, w).Ok? && !row.status.Approved? && !row.status.Consumed?
    ensures Agrees(CreateRequest(t, c, q, row, w).value)
  {
    hide Core, Waits, Versioned, OnePending, ChangesAgree, Woken, Flags;
    if q !in t.requests {
      assert forall a :: !Of(t.approvals, a, q);
      assert q !in t.grants;
    }
  }

  // ---------------------------------------------------------------- pending approvals that end

  /** A pending approval becomes something else of the same subject. */
  predicate Ends(approvals: ApprovalRows, a: int, row: ApprovalRow) {
    && a in approvals && approvals[a].status.Pending? && !row.status.Pending?
    && row == approvals[a].(status := row.status, version := approvals[a].version + 1, key := row.key,
                            decision := row.decision, actor := row.actor)
  }

  lemma VersionedEnds(approvals: ApprovalRows, a: int, row: ApprovalRow)
    requires Versioned(approvals) && OnePending(approvals) && Ends(approvals, a, row)
    ensures Versioned(approvals[a := row]) && OnePending(approvals[a := row])
  {
  }

  lemma ChangesEnds(approvals: ApprovalRows, changes: ChangeSetRows, a: int, row: ApprovalRow, cs: NodeRun, next: ChangeSetStatus)
    requires ChangesAgree(approvals, changes) && OnePending(approvals) && Ends(approvals, a, row)
    requires On(approvals, a, cs) && changes[cs].PendingApproval? && Decided(row.status)
    requires next == if row.status.Approved? then ChangeSetStatus.Approved else ChangeSetStatus.Rejected
    ensures ChangesAgree(approvals[a := row], changes[cs := next])
  {
    var after, moved := approvals[a := row], changes[cs := next];
    assert On(after, a, cs);
    forall d, s | Answered(approvals, d, s) && !s.Pending? ensures Answered(after, d, s) {
      var b :| On(approvals, b, d) && approvals[b].status == s;
      assert On(after, b, d);
    }
    forall b, d | On(after, b, d) ensures d in moved && Fits(after[b].status, moved[d]) {
      assert On(approvals, b, d);
      assert d == cs && b != a ==> !approvals[b].status.Pending?;
    }
    forall b, c, d | On(after, b, d) && On(after, c, d) && Decided(after[b].status) && Decided(after[c].status) ensures b == c {
      assert On(approvals, b, d) && On(approvals, c, d);
    }
    assert Answered(after, cs, row.status);
  }

  lemma ChangesLapse(approvals: ApprovalRows, changes: ChangeSetRows, a: int, row: ApprovalRow)
    requires ChangesAgree(approvals, changes) && Ends(approvals, a, row)
    requires row.subject.OfRequest? || row.status.Expired? || row.status.Invalidated?
    ensures ChangesAgree(approvals[a := row], changes)
  {
    var after := approvals[a := row];
    forall d, s | Answered(approvals, d, s) && !s.Pending? ensures Answered(after, d, s) {
      var b :| On(approvals, b, d) && approvals[b].status == s;
      assert On(after, b, d);
    }
    forall b, d | On(after, b, d) ensures d in changes && Fits(after[b].status, changes[d]) {
      assert On(approvals, b, d);
    }
    forall b, c, d | On(after, b, d) && On(after, c, d) && Decided(after[b].status) && Decided(after[c].status) ensures b == c {
      assert On(approvals, b, d) && On(approvals, c, d);
    }
  }

  lemma RequestsEnds(approvals: ApprovalRows, requests: RequestRows, nodes: Rows, tasks: TaskRows, a: int, row: ApprovalRow,
      q: int, next: RequestStatus)
    requires RequestsAgree(approvals, requests, nodes, tasks) && Ends(approvals, a, row)
    requires Of(approvals, a, q) && FitsRequest(row.status, next) && Past(row.status, nodes[requests[q].node].status)
    requires next.Approved? ==> row.status.Approved?
    ensures RequestsAgree(approvals[a := row], requests[q := requests[q].(status := next)], nodes, tasks)
  {
    var after, moved := approvals[a := row], requests[q := requests[q].(status := next)];
    forall p | p in moved && moved[p].status.Approved? ensures Permitted(after, p) {
      assert Of(after, a, q);
      if p != q {
        assert Permitted(approvals, p);
        var b :| Of(approvals, b, p) && approvals[b].status.Approved?;
        assert Of(after, b, p);
      }
    }
    forall b, p | Of(after, b, p)
      ensures p in moved && after[b].node == moved[p].node && moved[p].node in nodes
        && FitsRequest(after[b].status, moved[p].status) && Past(after[b].status, nodes[moved[p].node].status)
    {
      assert Of(approvals, b, p);
    }
    forall b, c, p | Of(after, b, p) && Of(after, c, p) ensures b == c {
      assert Of(approvals, b, p) && Of(approvals, c, p);
    }
  }

  lemma RequestsLapse(approvals: ApprovalRows, requests: RequestRows, nodes: Rows, tasks: TaskRows, a: int, row: ApprovalRow)
    requires RequestsAgree(approvals, requests, nodes, tasks) && Ends(approvals, a, row) && row.subject.OfChangeSet?
    ensures RequestsAgree(approvals[a := row], requests, nodes, tasks)
  {
    var after := approvals[a := row];
    forall p | Permitted(approvals, p) ensures Permitted(after, p) {
      var b :| Of(approvals, b, p) && approvals[b].status.Approved?;
      assert Of(after, b, p);
    }
    forall b, p | Of(after, b, p) ensures Of(approvals, b, p) && after[b] == approvals[b] {}
  }

  lemma LedgerEnds(approvals: ApprovalRows, requests: RequestRows, grants: GrantRows, tasks: TaskRows, a: int, row: ApprovalRow)
    requires LedgerAgrees(approvals, requests, grants, tasks) && Ends(approvals, a, row)
    ensures LedgerAgrees(approvals[a := row], requests, grants, tasks)
  {
    forall q | q in grants && grants[q].consumed.Some? ensures UsedInTime(approvals[a := row], q, grants[q]) {
      assert UsedInTime(approvals, q, grants[q]);
      var b :| Of(approvals, b, q) && approvals[b].status.Approved? && grants[q].consumed.value.at < approvals[b].expires;
      assert Of(approvals[a := row], b, q);
    }
  }

  lemma WokenNone(t: Tables)
    requires RunKept(t) && NoneWaits(t.nodes)
    ensures Woken(t.nodes, t.approvals)
  {
    hide Consistent, Compiled, Rowed, Waits, Flags;
    forall r | r in t.nodes ensures t.nodes[r].waitsFor.None? { assert Plain(t.nodes[r]); }
  }

  lemma NoneWhileRunning(t: Tables)
    requires RunKept(t) && t.run.status.Running?
    ensures NoneWaits(t.nodes)
  {
    hide Core, Flags;
  }

  lemma NotCancelled(t: Tables)
    requires RunKept(t) && !t.run.cancelRequested
    ensures !t.run.status.Cancelled?
  {
    hide Core, Waits;
  }

  // ---------------------------------------------------------------- deciding

  lemma DecideChangeSetAgrees(t: Tables, c: Call, d: Decision, ttl: nat)
    requires Sound(t) && Decide(t, c, d, ttl).Ok?
    requires !Replays(t.approvals[d.approval], d) && t.approvals[d.approval].subject.OfChangeSet?
    ensures Agrees(Decide(t, c, d, ttl).value)
  {
    hide Core, Waits, Flags, Versioned, OnePending, ChangesAgree, RequestsAgree, LedgerAgrees, Woken, ResumeIn;
    var row := t.approvals[d.approval];
    var cs, after := row.subject.task, DecidedRow(row, d);
    AgreesBound(t);
    DecideKept(t, c, d, ttl);
    var u := Decide(t, c, d, ttl).value;
    var next := if d.target.Approved? then ChangeSetStatus.Approved else ChangeSetStatus.Rejected;
    var moved := t.(changeSets := t.changeSets[cs := next]);
    MovedKept(t, moved.changeSets);
    ResumeKept(moved, row.node, d.target.Approved?);
    VersionedEnds(t.approvals, d.approval, after);
    ChangesEnds(t.approvals, t.changeSets, d.approval, after, cs, next);
    RequestsLapse(t.approvals, t.requests, t.nodes, t.tasks, d.approval, after);
    RequestsForward(u.approvals, t.requests, t.nodes, u.nodes, t.tasks, u.tasks);
    LedgerEnds(t.approvals, t.requests, t.grants, t.tasks, d.approval, after);
    WokenNone(u);
    NotCancelled(u);
  }

  lemma MovedKept(t: Tables, changes: ChangeSetRows)
    requires RunKept(t)
    ensures RunKept(t.(changeSets := changes))
  {
    hide Consistent, Compiled, Rowed;
  }

  lemma ApproveAgrees(t: Tables, c: Call, d: Decision, ttl: nat)
    requires Sound(t) && Decide(t, c, d, ttl).Ok? && d.target.Approved?
    requires !Replays(t.approvals[d.approval], d) && t.approvals[d.approval].subject.OfRequest?
    ensures Agrees(Decide(t, c, d, ttl).value)
  {
    hide Core, Waits, Flags, Versioned, OnePending, ChangesAgree, RequestsAgree, LedgerAgrees, Woken, ApproveRequest;
    var row := t.approvals[d.approval];
    var q, after, r := row.subject.request, DecidedRow(row, d), row.node;
    AgreesBound(t);
    DecideKept(t, c, d, ttl);
    var u := Decide(t, c, d, ttl).value;
    ApproveRequestLeaves(t, q, row, c.now + ttl);
    VersionedEnds(t.approvals, d.approval, after);
    ChangesLapse(t.approvals, t.changeSets, d.approval, after);
    assert Next(r) !in t.tasks by { NextIsNew(t, r); }
    RequestsRetried(t.approvals, t.requests, t.nodes, u.nodes, t.tasks, u.tasks, r);
    RequestsEnds(t.approvals, t.requests, u.nodes, u.tasks, d.approval, after, q, RequestStatus.Approved);
    LedgerEnds(t.approvals, t.requests, t.grants, t.tasks, d.approval, after);
    LedgerGranted(u.approvals, t.requests, t.grants, t.tasks, u.tasks, q, u.grants[q]);
    NoneWhileRunning(u);
    WokenNone(u);
  }

  lemma RequestsRetried(approvals: ApprovalRows, requests: RequestRows, was: Rows, nodes: Rows, tasksWere: TaskRows, tasks: TaskRows,
      r: NodeRun)
    requires RequestsAgree(approvals, requests, was, tasksWere) && r in was && was[r].status.WaitingApproval?
    requires nodes == Retried(was, r)
    requires Next(r) !in was && forall s | s in tasksWere :: s in tasks
    ensures RequestsAgree(approvals, requests, nodes, tasks)
  {
  }

  lemma LedgerGranted(approvals: ApprovalRows, requests: RequestRows, grants: GrantRows, was: TaskRows, tasks: TaskRows, q: int, g: GrantRow)
    requires LedgerAgrees(approvals, requests, grants, was) && q in requests && q !in grants
    requires g.target == Next(requests[q].node) && Live(g) && g.target !in was && g.target in tasks && tasks[g.target].grant == Some(q)
    requires forall r | r in was :: r in tasks && tasks[r].grant == was[r].grant
    requires forall r | r in tasks && r != g.target :: r in was
    ensures LedgerAgrees(approvals, requests[q := requests[q].(status := RequestStatus.Approved)], grants[q := g], tasks)
  {
  }

  lemma RejectAgrees(t: Tables, c: Call, d: Decision, ttl: nat)
    requires Sound(t) && Decide(t, c, d, ttl).Ok? && !d.target.Approved?
    requires !Replays(t.approvals[d.approval], d) && t.approvals[d.approval].subject.OfRequest?
    ensures Agrees(Decide(t, c, d, ttl).value)
  {
    hide Core, Waits, Flags, Versioned, OnePending, ChangesAgree, RequestsAgree, LedgerAgrees, Woken, RejectPrivilegeIn;
    var row := t.approvals[d.approval];
    var q, after, r := row.subject.request, DecidedRow(row, d), row.node;
    AgreesBound(t);
    DecideKept(t, c, d, ttl);
    var u := Decide(t, c, d, ttl).value;
    var asked := SetRequest(t, q, RequestStatus.Rejected);
    SetRequestKept(t, q, RequestStatus.Rejected);
    RejectPrivilegeKept(asked, r);
    RequestNode(t, d.approval, q);
    EndedByRequest(t, u, d.approval, after, q, RequestStatus.Rejected);
    WokenNone(u);
    NotCancelled(u);
  }

  lemma RequestNode(t: Tables, a: int, q: int)
    requires RequestsAgree(t.approvals, t.requests, t.nodes, t.tasks) && Of(t.approvals, a, q)
    ensures q in t.requests && t.requests[q].node == t.approvals[a].node && t.requests[q].node in t.nodes
  {
  }

  /** The shared end of rejecting and expiring a privilege request. */
  lemma EndedByRequest(t: Tables, u: Tables, a: int, row: ApprovalRow, q: int, next: RequestStatus)
    requires Agrees(t) && Ends(t.approvals, a, row) && Of(t.approvals, a, q) && Asking(t, q)
    requires (row.status.Rejected? && next.Rejected?) || (row.status.Expired? && next.Expired?) || (row.status.Invalidated? && next.Denied?)
    requires u.approvals == t.approvals[a := row] && u.requests == t.requests[q := t.requests[q].(status := next)]
    requires u.grants == t.grants && u.changeSets == t.changeSets
    requires Onward(t.nodes, u.nodes) && SamePointers(t.tasks, u.tasks)
    requires row.status.Rejected? ==> t.requests[q].node in u.nodes && NodeDone(u.nodes[t.requests[q].node].status)
    ensures Versioned(u.approvals) && OnePending(u.approvals) && ChangesAgree(u.approvals, u.changeSets)
    ensures RequestsAgree(u.approvals, u.requests, u.nodes, u.tasks)
    ensures LedgerAgrees(u.approvals, u.requests, u.grants, u.tasks)
  {
    hide Versioned, OnePending, ChangesAgree, RequestsAgree, LedgerAgrees, Woken, Quiet;
    VersionedEnds(t.approvals, a, row);
    ChangesLapse(t.approvals, t.changeSets, a, row);
    RequestsForward(t.approvals, t.requests, t.nodes, u.nodes, t.tasks, u.tasks);
    RequestsEnds(t.approvals, t.requests, u.nodes, u.tasks, a, row, q, next);
    LedgerEnds(t.approvals, t.requests, t.grants, t.tasks, a, row);
    LedgerForward(u.approvals, t.requests, t.grants, t.tasks, u.tasks);
    LedgerMovedOn(u.approvals, t.requests, t.grants, u.tasks, q, next);
  }
}
