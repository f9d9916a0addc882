/** The approval repository: decisions, expiry, grants and the cancellation that
    withdraws them, each one transaction over the store. */
module ApprovalRepository {
  import opened Graphs
  import opened Wrappers
  import opened Records
  import opened Leases
  import opened Scheduling
  import opened WorkflowRuns
  import opened Approvals
  import opened Database
  import opened Effects
  import opened RunRepository

  // The approval table is not read by the steps a decision sets off.

  lemma ReconcileBlind(t: Tables, approvals: map<int, ApprovalRow>)
    ensures Reconciled(t.(approvals := approvals)) == Reconciled(t).(approvals := approvals)
  {
    hide Passes, Finish;
    PassesBlind(t, approvals);
    FinishBlind(Passes(t), approvals);
  }

  lemma LogBlind(t: Tables, approvals: map<int, ApprovalRow>, e: Event)
    ensures Log(t.(approvals := approvals), e) == Log(t, e).(approvals := approvals)
  {
  }

  lemma MoveRunBlind(t: Tables, approvals: map<int, ApprovalRow>, was: RunStatus, next: RunStatus)
    ensures MoveRun(t.(approvals := approvals), was, next) == MoveRun(t, was, next).(approvals := approvals)
  {
    LogBlind(t.(run := t.run.(status := next)), approvals, RunMoved(was, next));
  }

  lemma FinishBlind(t: Tables, approvals: map<int, ApprovalRow>)
    ensures Finish(t.(approvals := approvals)) == Finish(t).(approvals := approvals)
  {
    hide FinalStatus, AllDone, MoveRun;
    MoveRunBlind(t, approvals, RunStatus.Running, FinalStatus(t.graph, t.nodes));
  }

  lemma {:induction false} PassesBlind(t: Tables, approvals: map<int, ApprovalRow>)
    ensures Passes(t.(approvals := approvals)) == Passes(t).(approvals := approvals)
    decreases PendingRows(t.nodes)
  {
    if Moves(t.graph, t.nodes) {
      PassShrinks(t);
      PassBlind(t.nodes, Due(t.graph, t.nodes), GraphOrder(t.graph), t, approvals);
      PassesBlind(PassOver(t), approvals);
    }
  }

  lemma {:induction false} PassBlind(seen: Rows, due: map<int, NodeStatus>, order: seq<int>, t: Tables, approvals: map<int, ApprovalRow>)
    ensures Pass(seen, due, order, t.(approvals := approvals)) == Pass(seen, due, order, t).(approvals := approvals)
  {
    if order != [] { PassBlind(seen, due, order[..|order| - 1], t, approvals); }
  }

  lemma ResumeBlind(t: Tables, approvals: map<int, ApprovalRow>, r: NodeRun, approved: bool)
    ensures var spec, blind := ResumeIn(t, r, approved), ResumeIn(t.(approvals := approvals), r, approved);
      if spec.Ok? then blind == Ok(spec.value.(approvals := approvals)) else blind == spec
  {
    hide Reconciled;
    if r in t.nodes {
      ReconcileBlind(Wake(t, r, REJECTED), approvals);
      ReconcileBlind(MoveNode(t, r, NodeStatus.Running, REJECTED), approvals);
    }
  }

  lemma RejectBlind(t: Tables, approvals: map<int, ApprovalRow>, r: NodeRun)
    ensures var spec, blind := WorkflowRuns.RejectPrivilegeIn(t, r), WorkflowRuns.RejectPrivilegeIn(t.(approvals := approvals), r);
      if spec.Ok? then blind == Ok(spec.value.(approvals := approvals)) else blind == spec
  {
    hide Reconciled, EndRejected;
    if r in t.nodes && r in t.tasks {
      EndBlind(t, approvals, r);
      ReconcileBlind(EndRejected(t, r), approvals);
    }
  }

  lemma EndBlind(t: Tables, approvals: map<int, ApprovalRow>, r: NodeRun)
    requires r in t.tasks
    ensures EndRejected(t.(approvals := approvals), r) == EndRejected(t, r).(approvals := approvals)
  {
    hide MoveRun, DropRetry;
    var failed := MoveTask(t, r, Some(TaskStatus.PrivilegeRequested), t.tasks[r].(status := TaskStatus.Failed), None);
    var ended := MoveNode(failed, r, NodeStatus.WaitingApproval, REJECTED);
    DropBlind(ended, approvals, Next(r));
    var dropped := if Next(r) in t.nodes && Next(r) in t.tasks then DropRetry(ended, Next(r)) else ended;
    MoveRunBlind(dropped, approvals, RunStatus.WaitingApproval, RunStatus.Running);
  }

  lemma DropBlind(t: Tables, approvals: map<int, ApprovalRow>, r: NodeRun)
    ensures DropRetry(t.(approvals := approvals), r) == DropRetry(t, r).(approvals := approvals)
  {
    hide MoveNode;
    var row := NodeRow(NodeStatus.Skipped, None, None);
    MoveNodeBlind(t, approvals, r, NodeStatus.Pending, row);
    if r in t.tasks { MoveNodeBlind(t.(tasks := t.tasks[r := t.tasks[r].(status := TaskStatus.Cancelled)]), approvals, r, NodeStatus.Pending, row); }
  }

  lemma MoveNodeBlind(t: Tables, approvals: map<int, ApprovalRow>, r: NodeRun, was: NodeStatus, row: NodeRow)
    ensures MoveNode(t.(approvals := approvals), r, was, row) == MoveNode(t, r, was, row).(approvals := approvals)
  {
    hide Log;
    LogBlind(t.(nodes := t.nodes[r := row]), approvals, NodeMoved(r, was, row.status, row.outcome));
  }

  lemma ApproveBlind(t: Tables, approvals: map<int, ApprovalRow>, r: NodeRun)
    ensures var spec, blind := WorkflowRuns.ApprovePrivilegeIn(t, r), WorkflowRuns.ApprovePrivilegeIn(t.(approvals := approvals), r);
      if spec.Ok? then blind == Ok(spec.value.(approvals := approvals)) else blind == spec
  {
    MayRetryBlind(t, t.(approvals := approvals), r);
    hide MayRetry;
  }

  lemma GrantBlind(t: Tables, approvals: map<int, ApprovalRow>, q: int, approval: ApprovalRow, limit: int)
    requires q in t.requests && Next(approval.node) in t.tasks
    ensures var spec, blind := GrantRetry(t, q, approval, limit), GrantRetry(t.(approvals := approvals), q, approval, limit);
      if spec.Ok? then blind == Ok(spec.value.(approvals := approvals)) else blind == spec
  {
    hide ActivateIn;
    var expires := if approval.expires < limit then approval.expires else limit;
    ActivateBlind(BindGrant(t, q, GrantRow(Next(approval.node), t.requests[q].subject, expires, None, false)), approvals, Next(approval.node));
  }

  lemma ActivateBlind(t: Tables, approvals: map<int, ApprovalRow>, r: NodeRun)
    ensures var spec, blind := ActivateIn(t, r), ActivateIn(t.(approvals := approvals), r);
      if spec.Ok? then blind == Ok(spec.value.(approvals := approvals)) else blind == spec
  {
  }

  lemma MayRetryBlind(t: Tables, u: Tables, r: NodeRun)
    requires u.nodes == t.nodes
    ensures MayRetry(u, r) <==> MayRetry(t, r)
  {
  }

  lemma WithdrawBlind(t: Tables, approvals: map<int, ApprovalRow>, subject: Subject)
    ensures WithdrawSubject(t.(approvals := approvals), subject) == WithdrawSubject(t, subject).(approvals := approvals)
    ensures WithdrawSubject(t, subject).approvals == t.approvals
  {
    hide Log;
    if subject.OfRequest? && Asking(t, subject.request) {
      var q := subject.request;
      LogBlind(t.(requests := t.requests[q := t.requests[q].(status := RequestStatus.Denied)]), approvals,
        RequestMoved(q, Some(RequestStatus.WaitingApproval), RequestStatus.Denied));
      LogApprovals(t.(requests := t.requests[q := t.requests[q].(status := RequestStatus.Denied)]),
        RequestMoved(q, Some(RequestStatus.WaitingApproval), RequestStatus.Denied));
    }
  }

  lemma LogApprovals(t: Tables, e: Event)
    ensures Log(t, e).approvals == t.approvals
  {
  }

  class ApprovalRepository {
    const store: Store
    const runs: WorkflowRunRepository

    constructor (s: Store, r: WorkflowRunRepository)
      requires r.store == s
      ensures store == s && runs == r && Wired()
    {
      store := s;
      runs := r;
    }

    ghost predicate Wired() {
      runs.store == store
    }

    // -------------------------------------------------------------- creating

    /** The pending approval of a subject, if there is one. */
    method FindPending(subject: Subject) returns (found: Option<int>)
      ensures found.Some? ==> PendingOn(store.tables, subject, found.value)
      ensures found.None? ==> forall a :: !PendingOn(store.tables, subject, a)
    {
      if a :| a in store.tables.approvals && store.tables.approvals[a].status.Pending? && store.tables.approvals[a].subject == subject {
        found := Some(a);
      } else {
        found := None;
      }
    }

    /** Creates an approval, or finds the pending one of the same subject. */
    method Create(c: Call, a: int, row: ApprovalRow) returns (fault: Option<Fault>)
      requires OnePendingEach(store.tables)
      modifies store
      ensures Executes(old(store.tables), store.tables, CreateApproval(old(store.tables), c, a, row), fault)
      ensures fault.None? ==> ApprovalThere(old(store.tables), store.tables, a, row)
    {
      hide InsertOrFind, ApprovalThere;
      ghost var t := store.tables;
      if !Fresh(row) || row.risk.L4? { return Some(Fault.Invalid); }
      if !MasterValid(store.tables.master, c.lease, c.now) { return Some(Fault.LeaseLost); }
      fault := InsertOrFindIn(a, row);
      if fault.None? { ApprovalCreated(t, c, a, row); }
    }

    method InsertOrFindIn(a: int, row: ApprovalRow) returns (fault: Option<Fault>)
      requires OnePendingEach(store.tables)
      modifies store
      ensures Executes(old(store.tables), store.tables, InsertOrFind(old(store.tables), a, row), fault)
    {
      var t := store.tables;
      var existing := FindPending(row.subject);
      if existing.Some? {
        return if t.approvals[existing.value].subjectHash != row.subjectHash then Some(Fault.Conflict) else None;
      }
      if row.node !in t.nodes { return Some(Fault.NotFound); }
      match row.subject {
        case OfChangeSet(cs) =>
          if cs !in t.changeSets { return Some(Fault.NotFound); }
          if !(t.changeSets[cs].TestPassed? || t.changeSets[cs].PendingApproval?) || RunClosed(t.run) { return Some(Fault.Conflict); }
          if a in t.approvals { return Some(Fault.Conflict); }
          var submitted := store.UpdateChangeSet(cs, {ChangeSetStatus.TestPassed}, ChangeSetStatus.PendingApproval);
        case OfRequest(q) =>
          if q !in t.requests { return Some(Fault.NotFound); }
          if t.requests[q].node != row.node { return Some(Fault.Invalid); }
          if RunClosed(t.run) || a in t.approvals { return Some(Fault.Conflict); }
          var asked := store.UpdateRequest(q, {RequestStatus.Pending, RequestStatus.WaitingApproval}, RequestStatus.WaitingApproval);
          if asked != 1 { return Some(Fault.Conflict); }
          store.Append(RequestMoved(q, Some(t.requests[q].status), RequestStatus.WaitingApproval));
      }
      store.tables := store.tables.(approvals := store.tables.approvals[a := row]);
      store.Append(ApprovalMoved(a, None, row.status, row.version));
      fault := None;
    }

    method CreatePrivilegeRequest(c: Call, q: int, row: RequestRow, w: WorkLease) returns (fault: Option<Fault>)
      modifies store
      ensures Executes(old(store.tables), store.tables, CreateRequest(old(store.tables), c, q, row, w), fault)
    {
      var t := store.tables;
      if !MasterValid(t.master, c.lease, c.now) { return Some(Fault.LeaseLost); }
      if !Bound(w, row.node) { return Some(Fault.Invalid); }
      if !LockValid(t.lock, w, c.now) { return Some(Fault.LeaseLost); }
      if q in t.requests {
        return if t.requests[q].(status := row.status) == row then None else Some(Fault.Conflict);
      }
      if row.node !in t.nodes || row.node !in t.tasks { return Some(Fault.Conflict); }
      store.tables := store.tables.(requests := store.tables.requests[q := row]);
      store.Append(RequestMoved(q, None, row.status));
      fault := None;
    }

    /** The request and its approval commit together or not at all. */
    method CreatePrivilegeRequestAndApproval(c: Call, q: int, row: RequestRow, w: WorkLease, a: int, approval: ApprovalRow)
      returns (fault: Option<Fault>)
      requires OnePendingEach(store.tables)
      modifies store
      ensures Executes(old(store.tables), store.tables, CreateRequestAndApproval(old(store.tables), c, q, row, w, a, approval), fault)
    {
      hide InsertOrFind, RequestCheck;
      var t := store.tables;
      if !Fresh(approval) || approval.risk.L4? || approval.subject != OfRequest(q) { return Some(Fault.Invalid); }
      fault := CreatePrivilegeRequest(c, q, row, w);
      if fault.Some? { return; }
      RequestKeepsPending(t, store.tables);
      fault := InsertOrFindIn(a, approval);
      if fault.Some? { store.Rollback(t); }
    }

    lemma RequestKeepsPending(t: Tables, u: Tables)
      requires OnePendingEach(t) && u.approvals == t.approvals
      ensures OnePendingEach(u)
    {
      forall a, s ensures PendingOn(u, s, a) <==> PendingOn(t, s, a) {}
    }

    method CreateGrantIn(c: Call, q: int, grant: GrantRow) returns (fault: Option<Fault>)
      requires Wired()
      modifies store
      ensures Executes(old(store.tables), store.tables, CreateGrant(old(store.tables), c, q, grant), fault)
    {
      hide ActivateIn;
      var t := store.tables;
      var target := grant.target;
      if !MasterValid(t.master, c.lease, c.now) { return Some(Fault.LeaseLost); }
      if q !in t.requests { return Some(Fault.NotFound); }
      if t.requests[q].subject != grant.subject { return Some(Fault.Invalid); }
      var approved := exists a | a in t.approvals :: t.approvals[a].subject == OfRequest(q)
                        && t.approvals[a].status.Approved? && t.approvals[a].expires > c.now;
      if approved {
        ghost var x :| x in t.approvals && t.approvals[x].subject == OfRequest(q) && t.approvals[x].status.Approved?
                       && t.approvals[x].expires > c.now;
        assert ApprovedFor(t, q, c.now, x);
      }
      if !t.requests[q].status.Approved? || !approved { return Some(Fault.Conflict); }
      if target !in t.tasks || target !in t.nodes { return Some(Fault.NotFound); }
      if target != Next(t.requests[q].node) || RunClosed(t.run) || !(t.tasks[target].grant.None? || t.tasks[target].grant == Some(q)) {
        return Some(Fault.Invalid);
      }
      if q in t.grants {
        if t.grants[q].target != target || t.grants[q].subject != grant.subject { return Some(Fault.Conflict); }
        if t.tasks[target].grant.None? {
          store.tables := store.tables.(tasks := store.tables.tasks[target := store.tables.tasks[target].(grant := Some(q))]);
        }
        fault := None;
        if t.nodes[target].status.Pending? { fault := runs.ActivateCapabilityTargetIn(target); }
      } else {
        if !t.tasks[target].status.Pending? || !t.nodes[target].status.Pending? || t.tasks[target].grant.Some? { return Some(Fault.Conflict); }
        store.tables := store.tables.(grants := store.tables.grants[q := grant]);
        store.tables := store.tables.(tasks := store.tables.tasks[target := store.tables.tasks[target].(grant := Some(q))]);
        store.Append(GrantChanged(q, None));
        fault := runs.ActivateCapabilityTargetIn(target);
      }
      if fault.Some? { store.Rollback(t); }
    }

    /** The index on pending subjects. */
    ghost predicate OnePendingEach(t: Tables) {
      forall a, b, s :: PendingOn(t, s, a) && PendingOn(t, s, b) ==> a == b
    }

    method RenewChangeSet(c: Call, prior: int, version: nat, hash: int, a: int, row: ApprovalRow) returns (fault: Option<Fault>)
      modifies store
      ensures Executes(old(store.tables), store.tables, Renew(old(store.tables), c, prior, version, hash, a, row), fault)
    {
      var t := store.tables;
      if !MasterValid(t.master, c.lease, c.now) { return Some(Fault.LeaseLost); }
      if prior !in t.approvals { return Some(Fault.NotFound); }
      var was := t.approvals[prior];
      if was.subject.OfRequest? { return Some(Fault.Invalid); }
      if !was.status.Expired? || was.version != version || was.subjectHash != hash || RunClosed(t.run) { return Some(Fault.Conflict); }
      if row.subject != was.subject || row.node != was.node || row.terms != was.terms || row.risk != was.risk
         || row.subjectHash == was.subjectHash || !Fresh(row) || row.key.Some? || row.risk.L4? || row.expires <= c.now
         || row.node !in t.nodes { return Some(Fault.Invalid); }
      if was.subject.task !in t.changeSets || !t.changeSets[was.subject.task].PendingApproval? { return Some(Fault.Conflict); }
      var existing := FindPending(row.subject);
      if a in t.approvals || existing.Some? { return Some(Fault.Conflict); }
      store.tables := store.tables.(approvals := store.tables.approvals[a := row]);
      store.Append(ApprovalMoved(a, None, row.status, row.version));
      fault := None;
    }

    // -------------------------------------------------------------- deciding

    /** The decision is written first and its event last; everything between,
        down to the retry and its grant, commits with it or not at all. */
    method Decide(c: Call, d: Decision, ttl: nat) returns (fault: Option<Fault>)
      requires Wired() && Prepared(store.tables)
      modifies store
      ensures Executes(old(store.tables), store.tables, Approvals.Decide(old(store.tables), c, d, ttl), fault)
    {
      hide ApproveRequest, RejectRequest, DecideChangeSet, Acyclic, WellFormed;
      var t := store.tables;
      if d.version < 1 || !Decided(d.target) { return Some(Fault.Invalid); }
      if !MasterValid(t.master, c.lease, c.now) { return Some(Fault.LeaseLost); }
      if d.approval !in t.approvals { return Some(Fault.NotFound); }
      var row := t.approvals[d.approval];
      if Replays(row, d) {
        fault := ReplayIn(d);
        return;
      }
      if row.subjectHash != d.subjectHash || RunClosed(t.run) || !row.status.Pending? || row.version != d.version
         || row.expires <= c.now { return Some(Fault.Conflict); }
      var changed := store.UpdateApproval(d.approval, d.version, DecidedRow(row, d));
      assert changed == 1;
      match row.subject {
        case OfChangeSet(cs) => fault := SettleChangeSet(t, d.approval, DecidedRow(row, d), cs, row.node, d.target);
        case OfRequest(q) =>
          if d.target.Approved? {
            fault := SettleApproved(t, d.approval, DecidedRow(row, d), q, row, c.now + ttl);
          } else {
            fault := SettleRejected(t, d.approval, DecidedRow(row, d), q, row.node);
          }
      }
      if fault.Some? { store.Rollback(t); return; }
      store.Append(ApprovalMoved(d.approval, Some(row.status), d.target, row.version + 1));
    }

    method ReplayIn(d: Decision) returns (fault: Option<Fault>)
      requires d.approval in store.tables.approvals
      modifies store
      ensures Executes(old(store.tables), store.tables, Replay(old(store.tables), d), fault)
    {
      var row := store.tables.approvals[d.approval];
      if row.decision.None? {
        if !(Decided(row.status) && row.status == d.target && row.actor == Some(d.actor)
             && row.version == d.version + 1 && row.subjectHash == d.subjectHash) { return Some(Fault.KeyReused); }
        store.tables := store.tables.(approvals := store.tables.approvals[d.approval := row.(decision := Some(d))]);
        return None;
      }
      fault := if row.decision == Some(d) && row.status == d.target then None else Some(Fault.KeyReused);
    }

    /** What is left to do once the approval row says how it was decided. */
    ghost predicate Settles(t: Tables, now: Tables, a: int, row: ApprovalRow, spec: Result<Tables>, fault: Option<Fault>) {
      match spec
      case Ok(u) => fault.None? && now == u.(approvals := t.approvals[a := row])
      case Err(f) => fault == Some(f)
    }

    method SettleChangeSet(ghost t: Tables, a: int, row: ApprovalRow, cs: NodeRun, node: NodeRun, target: ApprovalStatus)
      returns (fault: Option<Fault>)
      requires Wired() && Prepared(store.tables) && store.tables == t.(approvals := t.approvals[a := row]) && Decided(target)
      modifies store
      ensures Settles(t, store.tables, a, row, DecideChangeSet(t, cs, node, target), fault)
    {
      hide Acyclic, WellFormed, ResumeIn;
      var next := if target.Approved? then ChangeSetStatus.Approved else ChangeSetStatus.Rejected;
      var changed := store.UpdateChangeSet(cs, {ChangeSetStatus.PendingApproval}, next);
      if changed != 1 { return Some(Fault.Conflict); }
      ResumeBlind(t.(changeSets := t.changeSets[cs := next]), t.approvals[a := row], node, target.Approved?);
      fault := runs.ResumeAfterApprovalIn(node, target.Approved?);
    }

    method SettleRejected(ghost t: Tables, a: int, row: ApprovalRow, q: int, node: NodeRun) returns (fault: Option<Fault>)
      requires Wired() && Prepared(store.tables) && store.tables == t.(approvals := t.approvals[a := row])
      modifies store
      ensures Settles(t, store.tables, a, row, RejectRequest(t, q, node), fault)
    {
      hide Acyclic, WellFormed, WorkflowRuns.RejectPrivilegeIn;
      var changed := store.UpdateRequest(q, {RequestStatus.Pending, RequestStatus.WaitingApproval}, RequestStatus.Rejected);
      if changed != 1 { return Some(Fault.Conflict); }
      store.Append(RequestMoved(q, Some(RequestStatus.WaitingApproval), RequestStatus.Rejected));
      RejectBlind(SetRequest(t, q, RequestStatus.Rejected), t.approvals[a := row], node);
      fault := runs.RejectPrivilegeIn(node);
    }

    method SettleApproved(ghost t: Tables, a: int, row: ApprovalRow, q: int, approval: ApprovalRow, limit: int) returns (fault: Option<Fault>)
      requires Wired() && store.tables == t.(approvals := t.approvals[a := row])
      modifies store
      ensures Settles(t, store.tables, a, row, ApproveRequest(t, q, approval, limit), fault)
    {
      hide WorkflowRuns.ApprovePrivilegeIn, GrantRetry;
      var changed := store.UpdateRequest(q, {RequestStatus.Pending, RequestStatus.WaitingApproval}, RequestStatus.Approved);
      if changed != 1 { return Some(Fault.Conflict); }
      store.Append(RequestMoved(q, Some(RequestStatus.WaitingApproval), RequestStatus.Approved));
      ghost var asked := SetRequest(t, q, RequestStatus.Approved);
      ApproveBlind(asked, t.approvals[a := row], approval.node);
      fault := runs.ApprovePrivilegeIn(approval.node);
      if fault.Some? { return; }
      RetriedBooks(asked, approval.node);
      if store.tables.requests[q].node != approval.node { return Some(Fault.Conflict); }
      GrantBlind(WorkflowRuns.ApprovePrivilegeIn(asked, approval.node).value, t.approvals[a := row], q, approval, limit);
      fault := GrantRetryIn(q, approval, limit);
    }

    /** Binds one grant to the retry task and activates it. */
    method GrantRetryIn(q: int, approval: ApprovalRow, limit: int) returns (fault: Option<Fault>)
      requires Wired() && q in store.tables.requests && Next(approval.node) in store.tables.tasks
      modifies store
      ensures var spec := GrantRetry(old(store.tables), q, approval, limit);
        if spec.Ok? then fault.None? && store.tables == spec.value else fault == Some(spec.fault)
    {
      hide ActivateIn;
      var target := Next(approval.node);
      if q in store.tables.grants {
        var found := store.tables.grants[q];
        return if found.target == target && found.subject == store.tables.requests[q].subject then None else Some(Fault.Conflict);
      }
      if store.tables.tasks[target].grant.Some? { return Some(Fault.Conflict); }
      var expires := if approval.expires < limit then approval.expires else limit;
      var grant := GrantRow(target, store.tables.requests[q].subject, expires, None, false);
      store.tables := store.tables.(grants := store.tables.grants[q := grant]);
      store.tables := store.tables.(tasks := store.tables.tasks[target := store.tables.tasks[target].(grant := Some(q))]);
      store.Append(GrantChanged(q, None));
      fault := runs.ActivateCapabilityTargetIn(target);
    }

    lemma RetriedBooks(t: Tables, r: NodeRun)
      requires WorkflowRuns.ApprovePrivilegeIn(t, r).Ok?
      ensures var u := WorkflowRuns.ApprovePrivilegeIn(t, r).value; u.requests == t.requests && Next(r) in u.tasks
    {
      hide MayRetry;
    }

    // -------------------------------------------------------------- expiry

    /** The approval is marked first and its event written last. */
    method ExpireIn(a: int) returns (fault: Option<Fault>)
      requires Wired() && Prepared(store.tables)
      modifies store
      ensures Executes(old(store.tables), store.tables, ExpireOne(old(store.tables), a), fault)
      ensures Prepared(store.tables)
    {
      hide Acyclic, WellFormed, WorkflowRuns.RejectPrivilegeIn;
      var t := store.tables;
      if a !in t.approvals || !t.approvals[a].status.Pending? { return Some(Fault.Conflict); }
      var row := t.approvals[a];
      var after := Lapsed(row, ApprovalStatus.Expired);
      var changed := store.UpdateApproval(a, row.version, after);
      assert changed == 1;
      if row.subject.OfRequest? {
        var q := row.subject.request;
        var asked := store.UpdateRequest(q, {RequestStatus.Pending, RequestStatus.WaitingApproval}, RequestStatus.Expired);
        if asked == 1 {
          store.Append(RequestMoved(q, Some(t.requests[q].status), RequestStatus.Expired));
          var node := t.requests[q].node;
          if node in t.nodes && t.nodes[node].status.WaitingApproval? && t.run.status.WaitingApproval? && !t.run.cancelRequested {
            RejectBlind(Log(t.(requests := store.tables.requests), RequestMoved(q, Some(t.requests[q].status), RequestStatus.Expired)),
              t.approvals[a := after], node);
            fault := runs.RejectPrivilegeIn(node);
            if fault.Some? { store.Rollback(t); return; }
          }
        }
      }
      store.Append(ApprovalMoved(a, Some(row.status), after.status, after.version));
      fault := None;
      ExpirePrepared(t, a);
    }

    lemma ExpirePrepared(t: Tables, a: int)
      requires Prepared(t) && ExpireOne(t, a).Ok?
      ensures Prepared(ExpireOne(t, a).value)
    {
      hide Acyclic, WellFormed, Reconciled, AwaitsPrivilege;
      if t.approvals[a].subject.OfRequest? && Asking(t, t.approvals[a].subject.request) {
        var q := t.approvals[a].subject.request;
        var ended := Log(t.(requests := t.requests[q := t.requests[q].(status := RequestStatus.Expired)]),
                         RequestMoved(q, Some(t.requests[q].status), RequestStatus.Expired));
        if t.requests[q].node in t.tasks {
          ReconciledRows(EndRejected(ended, t.requests[q].node));
        }
      }
    }

    lemma ReconciledRows(t: Tables)
      ensures Reconciled(t).nodes.Keys == t.nodes.Keys
    {
      PassesPartial(t.nodes, t);
    }

    method ExpireDue(c: Call, rows: seq<int>) returns (fault: Option<Fault>)
      requires Wired() && Prepared(store.tables) && Fetched(rows, DueApprovals(store.tables, c.now))
      modifies store
      ensures Executes(old(store.tables), store.tables, Approvals.ExpireDue(old(store.tables), c, rows), fault)
    {
      hide Prepared, ExpireOne;
      var t := store.tables;
      if !MasterValid(t.master, c.lease, c.now) { return Some(Fault.LeaseLost); }
      for i := 0 to |rows|
        invariant Prepared(store.tables)
        invariant ExpireRows(t, rows[..i]) == Ok(store.tables)
      {
        assert rows[..i + 1][..i] == rows[..i];
        fault := ExpireIn(rows[i]);
        if fault.Some? {
          ExpireRowsFail(t, rows, i + 1);
          store.Rollback(t);
          return;
        }
      }
      assert rows[..|rows|] == rows;
      fault := None;
    }

    /** One failed row fails the whole expiry with the same fault. */
    lemma {:induction false} ExpireRowsFail(t: Tables, rows: seq<int>, k: nat)
      requires k <= |rows| && ExpireRows(t, rows[..k]).Err?
      ensures ExpireRows(t, rows) == ExpireRows(t, rows[..k])
      decreases |rows|
    {
      hide ExpireOne;
      if k == |rows| {
        assert rows[..k] == rows;
      } else {
        assert rows[..|rows| - 1][..k] == rows[..k];
        ExpireRowsFail(t, rows[..|rows| - 1], k);
      }
    }

    // -------------------------------------------------------------- grants

    method ConsumeGrant(c: Call, q: int, target: NodeRun, subject: int, a: int, w: Option<WorkLease>) returns (fault: Option<Fault>)
      modifies store
      ensures Executes(old(store.tables), store.tables, Consume(old(store.tables), c, q, target, subject, a, w), fault)
    {
      var t := store.tables;
      if !MasterValid(t.master, c.lease, c.now) { return Some(Fault.LeaseLost); }
      if q !in t.grants || q !in t.requests || t.grants[q].target !in t.tasks || t.grants[q].target !in t.nodes
         || a !in t.approvals || t.approvals[a].subject != OfRequest(q) { return Some(Fault.NotFound); }
      if t.grants[q].target != target || t.grants[q].subject != subject || t.tasks[target].grant != Some(q) { return Some(Fault.Invalid); }
      if t.run.cancelRequested || !t.run.status.Running? || !t.nodes[target].status.Running? { return Some(Fault.Conflict); }
      if !t.requests[q].status.Approved? || !t.approvals[a].status.Approved? || t.approvals[a].expires <= c.now { return Some(Fault.Conflict); }
      if w.None? || !Bound(w.value, target) { return Some(Fault.Invalid); }
      if !LockValid(t.lock, w.value, c.now) { return Some(Fault.Conflict); }
      if !Live(t.grants[q]) || t.grants[q].expires <= c.now { return Some(Fault.Conflict); }
      store.tables := store.tables.(grants := store.tables.grants[q := t.grants[q].(consumed := Some(Use(c.now, w.value.token)))]);
      var used := store.UpdateRequest(q, {RequestStatus.Approved}, RequestStatus.Consumed);
      assert used == 1;
      store.tables := store.tables.(tasks := store.tables.tasks[target := store.tables.tasks[target].(grant := None)]);
      store.Append(GrantChanged(q, Some(w.value.token)));
      fault := None;
    }

    // -------------------------------------------------------------- cancellation

    method InvalidateForRunIn(rows: seq<int>)
      requires forall i | 0 <= i < |rows| :: rows[i] in store.tables.approvals
      modifies store
      ensures store.tables == WithdrawChangeSets(InvalidateRows(old(store.tables), rows))
    {
      ghost var t := store.tables;
      for i := 0 to |rows|
        invariant store.tables == InvalidateRows(t, rows[..i])
        invariant store.tables.approvals.Keys == t.approvals.Keys
      {
        assert rows[..i + 1][..i] == rows[..i];
        InvalidateOne(rows[i]);
      }
      assert rows[..|rows|] == rows;
      store.tables := WithdrawChangeSets(store.tables);
    }

    method WithdrawIn(subject: Subject)
      modifies store
      ensures store.tables == WithdrawSubject(old(store.tables), subject)
    {
      match subject {
        case OfChangeSet(cs) =>
          var withdrawn := store.UpdateChangeSet(cs, {ChangeSetStatus.PendingApproval, ChangeSetStatus.Approved}, ChangeSetStatus.Cancelled);
        case OfRequest(q) =>
          var denied := store.UpdateRequest(q, {RequestStatus.Pending, RequestStatus.WaitingApproval}, RequestStatus.Denied);
          if denied == 1 { store.Append(RequestMoved(q, Some(RequestStatus.WaitingApproval), RequestStatus.Denied)); }
      }
    }

    method InvalidateOne(a: int)
      requires a in store.tables.approvals
      modifies store
      ensures store.tables == Invalidate(old(store.tables), a)
      ensures store.tables.approvals.Keys == old(store.tables).approvals.Keys
    {
      hide WithdrawSubject;
      ghost var t := store.tables;
      var row := store.tables.approvals[a];
      var after := Lapsed(row, ApprovalStatus.Invalidated);
      store.tables := store.tables.(approvals := store.tables.approvals[a := after]);
      WithdrawBlind(t, store.tables.approvals, row.subject);
      WithdrawIn(row.subject);
      store.Append(ApprovalMoved(a, Some(row.status), after.status, after.version));
    }

    method RevokeUnconsumedForRunIn(rows: seq<int>)
      modifies store
      ensures store.tables == RevokeRows(old(store.tables), rows)
    {
      ghost var t := store.tables;
      for i := 0 to |rows|
        invariant store.tables == RevokeRows(t, rows[..i])
      {
        assert rows[..i + 1][..i] == rows[..i];
        RevokeOne(rows[i]);
      }
      assert rows[..|rows|] == rows;
    }

    method RevokeOne(q: int)
      modifies store
      ensures store.tables == Revoke(old(store.tables), q)
    {
      if q !in store.tables.grants { return; }
      var g := store.tables.grants[q];
      store.tables := store.tables.(grants := store.tables.grants[q := g.(revoked := true)]);
      var denied := store.UpdateRequest(q, {RequestStatus.Approved}, RequestStatus.Denied);
      if g.target in store.tables.tasks && store.tables.tasks[g.target].grant == Some(q) {
        store.tables := store.tables.(tasks := store.tables.tasks[g.target := store.tables.tasks[g.target].(grant := None)]);
      }
      if denied == 1 { store.Append(RequestMoved(q, Some(RequestStatus.Approved), RequestStatus.Denied)); }
      store.Append(GrantChanged(q, None));
    }

    /** Cancellation: request, withdrawal, revocation, node and run state in one
        transaction. */
    method CancelWithCleanup(c: Call, approvals: seq<int>, grants: seq<int>, nodes: seq<NodeRun>) returns (fault: Option<Fault>)
      requires Wired()
      requires Fetched(approvals, Undecided(store.tables)) && Fetched(grants, Unused(store.tables))
      requires Fetched(nodes, Active(store.tables.nodes))
      modifies store
      ensures Executes(old(store.tables), store.tables, Cancel(old(store.tables), c, approvals, grants, nodes), fault)
    {
      hide InvalidateRows, RevokeRows, CancelNodes;
      var t := store.tables;
      if !MasterValid(t.master, c.lease, c.now) { return Some(Fault.LeaseLost); }
      if RunDone(t.run.status) && !t.run.cancelRequested { return None; }
      if t.run.mergeFinalizing { return Some(Fault.Conflict); }
      forall i | 0 <= i < |approvals| ensures approvals[i] in t.approvals { assert approvals[i] in approvals; }
      InvalidateForRunIn(approvals);
      RevokeUnconsumedForRunIn(grants);
      if !RunDone(t.run.status) {
        runs.CancelNodesIn(nodes);
        store.tables := store.tables.(run := store.tables.run.(cancelRequested := true, status := RunStatus.Cancelled));
        store.Append(RunMoved(t.run.status, RunStatus.Cancelled));
      }
      store.Append(CancellationRecovered);
      fault := None;
    }
  }
}
