/** What each step of the approval repository answers and leaves, said of rows
    and events alone; and what a cancellation makes of every row. */
module ApprovalOutcomes {
  import opened Wrappers
  import opened Records
  import opened Leases
  import opened Scheduling
  import opened WorkflowRuns
  import opened Approvals
  import opened Audit
  import opened RunInvariant
  import opened RunInvariantOfApprovals
  import opened Agreement
  import opened AgreementOnWithdrawal
  import opened Effects
  import opened RunOutcomes

  /** Run states in which nothing is approved any more. */
  predicate Closed(run: RunRow) {
    run.cancelRequested || run.status in {RunStatus.Cancelled, RunStatus.Completed, RunStatus.Failed, RunStatus.Orphaned}
  }

  predicate StillAsking(q: RequestRow) {
    q.status in {RequestStatus.Pending, RequestStatus.WaitingApproval}
  }

  // ---------------------------------------------------------------- creating

  /** A pending approval of the subject is found, if it binds the same subject,
      and refused if it does not. */
  lemma FindOutcome(t: Tables, a: int, row: ApprovalRow, b: int)
    requires OnePending(t.approvals)
    requires b in t.approvals && t.approvals[b].status.Pending? && t.approvals[b].subject == row.subject
    ensures InsertOrFind(t, a, row) == if t.approvals[b].subjectHash == row.subjectHash then Ok(t) else Err(Fault.Conflict)
  {
    assert PendingOn(t, row.subject, b);
  }

  /** Otherwise it is inserted, and its subject moves on to await it. */
  lemma InsertOutcome(t: Tables, a: int, row: ApprovalRow)
    requires forall b | b in t.approvals && t.approvals[b].status.Pending? :: t.approvals[b].subject != row.subject
    ensures Refused(InsertOrFind(t, a, row)) ==
      if row.node !in t.nodes then Some(Fault.NotFound)
      else match row.subject
        case OfChangeSet(cs) =>
          if cs !in t.changeSets then Some(Fault.NotFound)
          else if t.changeSets[cs] !in {ChangeSetStatus.TestPassed, ChangeSetStatus.PendingApproval} || Closed(t.run) then Some(Fault.Conflict)
          else if a in t.approvals then Some(Fault.Conflict) else None
        case OfRequest(q) =>
          if q !in t.requests then Some(Fault.NotFound)
          else if t.requests[q].node != row.node then Some(Fault.Invalid)
          else if Closed(t.run) || !StillAsking(t.requests[q]) then Some(Fault.Conflict)
          else if a in t.approvals then Some(Fault.Conflict) else None
    ensures InsertOrFind(t, a, row).Ok? ==> Inserts(t, InsertOrFind(t, a, row).value, a, row)
  {
    hide Inserts;
    forall b ensures !PendingOn(t, row.subject, b) {}
    if InsertOrFind(t, a, row).Ok? {
      match row.subject
      case OfChangeSet(cs) => SubmittedInserts(t, a, row);
      case OfRequest(q) => AwaitedInserts(t, a, row);
    }
  }

  ghost predicate Inserts(t: Tables, u: Tables, a: int, row: ApprovalRow) {
    && u == t.(approvals := t.approvals[a := row], changeSets := u.changeSets, requests := u.requests, log := u.log, nextSeq := u.nextSeq)
    && match row.subject
       case OfChangeSet(cs) =>
         && u.requests == t.requests && u.changeSets == t.changeSets[cs := ChangeSetStatus.PendingApproval]
         && Tells(t, u, [ApprovalMoved(a, None, row.status, row.version)])
       case OfRequest(q) =>
         && q in t.requests && u.changeSets == t.changeSets
         && u.requests == t.requests[q := RequestRow(t.requests[q].node, t.requests[q].subject, t.requests[q].risk, RequestStatus.WaitingApproval)]
         && Tells(t, u, [RequestMoved(q, Some(t.requests[q].status), RequestStatus.WaitingApproval), ApprovalMoved(a, None, row.status, row.version)])
  }

  lemma SubmittedInserts(t: Tables, a: int, row: ApprovalRow)
    requires row.subject.OfChangeSet? && row.subject.task in t.changeSets
    requires t.changeSets[row.subject.task].TestPassed? || t.changeSets[row.subject.task].PendingApproval?
    ensures Inserts(t, InsertApproval(SubmitChangeSet(t, row.subject.task), a, row), a, row)
  {
    var cs := row.subject.task;
    assert t.changeSets[cs].PendingApproval? ==> t.changeSets[cs := ChangeSetStatus.PendingApproval] == t.changeSets;
  }

  lemma AwaitedInserts(t: Tables, a: int, row: ApprovalRow)
    requires row.subject.OfRequest? && row.subject.request in t.requests
    ensures Inserts(t, InsertApproval(AwaitRequest(t, row.subject.request), a, row), a, row)
  {
  }

  lemma CreateApprovalOutcome(t: Tables, c: Call, a: int, row: ApprovalRow)
    ensures CreateApproval(t, c, a, row) ==
      if !row.status.Pending? || row.version != 1 || row.decision.Some? || row.actor.Some? || row.risk == Risk.L4 then Err(Fault.Invalid)
      else if !MasterValid(t.master, c.lease, c.now) then Err(Fault.LeaseLost)
      else InsertOrFind(t, a, row)
  {
  }

  lemma RenewOutcome(t: Tables, c: Call, prior: int, version: nat, hash: int, a: int, row: ApprovalRow)
    ensures Refused(Renew(t, c, prior, version, hash, a, row)) ==
      if !MasterValid(t.master, c.lease, c.now) then Some(Fault.LeaseLost)
      else if prior !in t.approvals then Some(Fault.NotFound)
      else var was := t.approvals[prior];
        if !was.subject.OfChangeSet? then Some(Fault.Invalid)
        else if was.status != ApprovalStatus.Expired || was.version != version || was.subjectHash != hash || Closed(t.run) then Some(Fault.Conflict)
        else if !(row.subject == was.subject && row.node == was.node && row.terms == was.terms && row.risk == was.risk
                  && row.subjectHash != was.subjectHash && row.status.Pending? && row.version == 1 && row.decision.None? && row.actor.None?
                  && row.key.None? && row.risk != Risk.L4 && row.expires > c.now && row.node in t.nodes) then Some(Fault.Invalid)
        else if was.subject.task !in t.changeSets || !t.changeSets[was.subject.task].PendingApproval? then Some(Fault.Conflict)
        else if a in t.approvals || exists b :: b in t.approvals && t.approvals[b].status.Pending? && t.approvals[b].subject == row.subject
        then Some(Fault.Conflict)
        else None
    ensures Renew(t, c, prior, version, hash, a, row).Ok? ==>
      var u := Renew(t, c, prior, version, hash, a, row).value;
      && u == t.(approvals := t.approvals[a := row], log := u.log, nextSeq := u.nextSeq)
      && Tells(t, u, [ApprovalMoved(a, None, ApprovalStatus.Pending, 1)])
  {
    forall b
      ensures PendingOn(t, row.subject, b) <==> (b in t.approvals && t.approvals[b].status.Pending? && t.approvals[b].subject == row.subject)
    {}
  }

  lemma RequestOutcome(t: Tables, c: Call, q: int, row: RequestRow, w: WorkLease)
    ensures Refused(CreateRequest(t, c, q, row, w)) ==
      if !MasterValid(t.master, c.lease, c.now) then Some(Fault.LeaseLost)
      else if !Own(w, row.node) then Some(Fault.Invalid)
      else if !LockValid(t.lock, w, c.now) then Some(Fault.LeaseLost)
      else if q !in t.requests && (row.node !in t.nodes || row.node !in t.tasks) then Some(Fault.Conflict)
      else if q in t.requests && !(t.requests[q].node == row.node && t.requests[q].subject == row.subject && t.requests[q].risk == row.risk)
      then Some(Fault.Conflict)
      else None
    ensures CreateRequest(t, c, q, row, w).Ok? ==>
      var u := CreateRequest(t, c, q, row, w).value;
      if q in t.requests then u == t else
        u == t.(requests := t.requests[q := row], log := u.log, nextSeq := u.nextSeq) && Tells(t, u, [RequestMoved(q, None, row.status)])
  {
  }

  /** Request and approval together: the request first, then its approval, or
      neither. */
  lemma RequestAndApprovalOutcome(t: Tables, c: Call, q: int, row: RequestRow, w: WorkLease, a: int, approval: ApprovalRow)
    ensures CreateRequestAndApproval(t, c, q, row, w, a, approval) ==
      if !approval.status.Pending? || approval.version != 1 || approval.decision.Some? || approval.actor.Some?
         || approval.risk == Risk.L4 || approval.subject != OfRequest(q) then Err(Fault.Invalid)
      else match CreateRequest(t, c, q, row, w)
        case Err(f) => Err(f)
        case Ok(made) => InsertOrFind(made, a, approval)
  {
    hide InsertOrFind, CreateRequest;
  }

  // ---------------------------------------------------------------- deciding

  /** Which fault, if any, meets a decision before its subject is looked at. */
  function DecisionFault(t: Tables, c: Call, d: Decision): Option<Fault> {
    if d.version < 1 || d.target !in {ApprovalStatus.Approved, ApprovalStatus.Rejected} then Some(Fault.Invalid)
    else if !MasterValid(t.master, c.lease, c.now) then Some(Fault.LeaseLost)
    else if d.approval !in t.approvals then Some(Fault.NotFound)
    else None
  }

  /** A repeated key: the stored decision must be this very one. A row decided
      before decisions were stored is checked field by field and completed. */
  lemma ReplayOutcome(t: Tables, c: Call, d: Decision, ttl: nat)
    requires DecisionFault(t, c, d).None? && !t.approvals[d.approval].status.Pending? && t.approvals[d.approval].key == Some(d.key)
    ensures var row := t.approvals[d.approval];
      Decide(t, c, d, ttl) ==
        if row.decision.Some? then
          (if row.decision == Some(d) && row.status == d.target then Ok(t) else Err(Fault.KeyReused))
        else if row.status in {ApprovalStatus.Approved, ApprovalStatus.Rejected} && row.status == d.target && row.actor == Some(d.actor)
                && row.version == d.version + 1 && row.subjectHash == d.subjectHash
        then Ok(t.(approvals := t.approvals[d.approval := row.(decision := Some(d))]))
        else Err(Fault.KeyReused)
  {
  }

  /** A new decision: the row must be pending, as it was read, and not yet run out
      in an open run; then the subject's part, then the row and its event. */
  lemma DecideOutcome(t: Tables, c: Call, d: Decision, ttl: nat)
    ensures DecisionFault(t, c, d).Some? ==> Decide(t, c, d, ttl) == Err(DecisionFault(t, c, d).value)
    ensures DecisionFault(t, c, d).None? && (t.approvals[d.approval].status.Pending? || t.approvals[d.approval].key != Some(d.key)) ==>
      var row := t.approvals[d.approval];
      if row.subjectHash != d.subjectHash || Closed(t.run) || !row.status.Pending? || row.version != d.version || row.expires <= c.now
      then Decide(t, c, d, ttl) == Err(Fault.Conflict)
      else match SubjectSettles(t, c, d, ttl)
        case Err(f) => Decide(t, c, d, ttl) == Err(f)
        case Ok(s) => Decide(t, c, d, ttl).Ok? && s.approvals == t.approvals && Stamps(s, Decide(t, c, d, ttl).value, d)
  {
    hide DecideChangeSet, ApproveRequest, RejectRequest, Stamps;
    if Decide(t, c, d, ttl).Ok? && t.approvals[d.approval].status.Pending? {
      MovedStamps(t, SubjectSettles(t, c, d, ttl).value, d);
    }
  }

  ghost function SubjectSettles(t: Tables, c: Call, d: Decision, ttl: nat): Result<Tables>
    requires d.approval in t.approvals
  {
    var row := t.approvals[d.approval];
    match row.subject
    case OfChangeSet(cs) => DecideChangeSet(t, cs, row.node, d.target)
    case OfRequest(q) => if d.target == ApprovalStatus.Approved then ApproveRequest(t, q, row, c.now + ttl) else RejectRequest(t, q, row.node)
  }

  ghost predicate Stamps(s: Tables, u: Tables, d: Decision) {
    && d.approval in s.approvals
    && var was := s.approvals[d.approval];
       && u == s.(approvals := s.approvals[d.approval := ApprovalRow(was.node, was.subject, was.subjectHash, was.terms, was.risk,
                                              d.target, was.version + 1, Some(d.key), Some(d), Some(d.actor), was.expires)],
                  log := u.log, nextSeq := u.nextSeq)
       && Tells(s, u, [ApprovalMoved(d.approval, Some(was.status), d.target, was.version + 1)])
  }

  lemma MovedStamps(t: Tables, s: Tables, d: Decision)
    requires d.approval in t.approvals && s.approvals == t.approvals
    ensures Stamps(s, MoveApproval(s, d.approval, DecidedRow(t.approvals[d.approval], d)), d)
  {
  }

  lemma DecideChangeSetOutcome(t: Tables, cs: NodeRun, node: NodeRun, target: ApprovalStatus)
    ensures DecideChangeSet(t, cs, node, target) ==
      if cs !in t.changeSets || t.changeSets[cs] != ChangeSetStatus.PendingApproval then Err(Fault.Conflict)
      else ResumeIn(t.(changeSets := t.changeSets[cs :=
             if target == ApprovalStatus.Approved then ChangeSetStatus.Approved else ChangeSetStatus.Rejected]), node, target == ApprovalStatus.Approved)
  {
    hide ResumeIn;
  }

  /** The request's part of a decision: its row and event. */
  ghost predicate Answers(t: Tables, u: Tables, q: int, next: RequestStatus) {
    && q in t.requests
    && u == t.(requests := t.requests[q := RequestRow(t.requests[q].node, t.requests[q].subject, t.requests[q].risk, next)],
               log := u.log, nextSeq := u.nextSeq)
    && Tells(t, u, [RequestMoved(q, Some(RequestStatus.WaitingApproval), next)])
  }

  lemma RejectRequestOutcome(t: Tables, q: int, node: NodeRun) returns (w: Tables)
    ensures if q !in t.requests || !StillAsking(t.requests[q]) then RejectRequest(t, q, node) == Err(Fault.Conflict)
      else Answers(t, w, q, RequestStatus.Rejected) && RejectRequest(t, q, node) == RejectPrivilegeIn(w, node)
  {
    hide RejectPrivilegeIn;
    w := if q in t.requests then SetRequest(t, q, RequestStatus.Rejected) else t;
  }

  lemma ApproveRequestOutcome(t: Tables, q: int, approval: ApprovalRow, limit: int) returns (w: Tables)
    ensures q !in t.requests || !StillAsking(t.requests[q]) ==> ApproveRequest(t, q, approval, limit) == Err(Fault.Conflict)
    ensures q in t.requests && StillAsking(t.requests[q]) ==>
      && Answers(t, w, q, RequestStatus.Approved)
      && match ApprovePrivilegeIn(w, approval.node)
         case Err(f) => ApproveRequest(t, q, approval, limit) == Err(f)
         case Ok(s) =>
           if t.requests[q].node != approval.node then ApproveRequest(t, q, approval, limit) == Err(Fault.Conflict)
           else q in s.requests && NodeRun(approval.node.node, approval.node.attempt + 1) in s.tasks
                && ApproveRequest(t, q, approval, limit) == GrantRetry(s, q, approval, limit)
  {
    hide MayRetry, GrantRetry;
    w := if q in t.requests then SetRequest(t, q, RequestStatus.Approved) else t;
  }

  /** The retry's grant: an earlier one of this very retry is returned, any other
      is refused; a new one runs out with the approval or the limit, whichever is
      first, is bound to the retry's task, and readies the retry. */
  lemma GrantRetryOutcome(t: Tables, q: int, approval: ApprovalRow, limit: int) returns (w: Tables)
    requires q in t.requests && NodeRun(approval.node.node, approval.node.attempt + 1) in t.tasks
    ensures var target := NodeRun(approval.node.node, approval.node.attempt + 1);
      if q in t.grants then
        GrantRetry(t, q, approval, limit) ==
          if t.grants[q].target == target && t.grants[q].subject == t.requests[q].subject then Ok(t) else Err(Fault.Conflict)
      else if t.tasks[target].grant.Some? then GrantRetry(t, q, approval, limit) == Err(Fault.Conflict)
      else
        && Binds(t, w, q, GrantRow(target, t.requests[q].subject, if approval.expires < limit then approval.expires else limit, None, false))
        && GrantRetry(t, q, approval, limit) == ActivateIn(w, target)
  {
    hide ActivateIn;
    var target := NodeRun(approval.node.node, approval.node.attempt + 1);
    w := BindGrant(t, q, GrantRow(target, t.requests[q].subject, if approval.expires < limit then approval.expires else limit, None, false));
  }

  ghost predicate Binds(t: Tables, u: Tables, q: int, grant: GrantRow) {
    && grant.target in t.tasks
    && u == t.(grants := t.grants[q := grant],
               tasks := t.tasks[grant.target := TaskRow(t.tasks[grant.target].status, t.tasks[grant.target].base, Some(q))],
               log := u.log, nextSeq := u.nextSeq)
    && Tells(t, u, [GrantChanged(q, None)])
  }

  // ---------------------------------------------------------------- expiry

  /** A pending approval expires; its request with it, if it still asks; and a
      node that waits for a decision on that request ends rejected. */
  lemma ExpireOutcome(t: Tables, a: int) returns (w: Tables)
    ensures a !in t.approvals || !t.approvals[a].status.Pending? ==> ExpireOne(t, a) == Err(Fault.Conflict)
    ensures a in t.approvals && t.approvals[a].status.Pending? ==>
      var row := t.approvals[a];
      if row.subject.OfChangeSet? || row.subject.request !in t.requests || !StillAsking(t.requests[row.subject.request])
      then ExpireOne(t, a).Ok? && Lapses(t, ExpireOne(t, a).value, a, ApprovalStatus.Expired)
      else
        var q := row.subject.request;
        var node := t.requests[q].node;
        && w == t.(requests := t.requests[q := RequestRow(node, t.requests[q].subject, t.requests[q].risk, RequestStatus.Expired)],
                   log := w.log, nextSeq := w.nextSeq)
        && Tells(t, w, [RequestMoved(q, Some(t.requests[q].status), RequestStatus.Expired)])
        && if node in t.nodes && t.nodes[node].status.WaitingApproval? && t.run.status.WaitingApproval? && !t.run.cancelRequested
           then match RejectPrivilegeIn(w, node)
             case Err(f) => ExpireOne(t, a) == Err(f)
             case Ok(s) => ExpireOne(t, a).Ok? && Lapses(s, ExpireOne(t, a).value, a, ApprovalStatus.Expired)
           else ExpireOne(t, a).Ok? && Lapses(w, ExpireOne(t, a).value, a, ApprovalStatus.Expired)
  {
    hide RejectPrivilegeIn, Lapses;
    w := t;
    if a in t.approvals && t.approvals[a].status.Pending? {
      MovedLapses(t, t, a, ApprovalStatus.Expired);
      var subject := t.approvals[a].subject;
      if subject.OfRequest? && subject.request in t.requests {
        var q := subject.request;
        w := Log(t.(requests := t.requests[q := t.requests[q].(status := RequestStatus.Expired)]),
                 RequestMoved(q, Some(t.requests[q].status), RequestStatus.Expired));
        MovedLapses(t, w, a, ApprovalStatus.Expired);
        var node := t.requests[q].node;
        if RejectPrivilegeIn(w, node).Ok? { MovedLapses(t, RejectPrivilegeIn(w, node).value, a, ApprovalStatus.Expired); }
      }
    }
  }

  ghost predicate Lapses(s: Tables, u: Tables, a: int, next: ApprovalStatus) {
    && a in s.approvals
    && var was := s.approvals[a];
       && u == s.(approvals := s.approvals[a := ApprovalRow(was.node, was.subject, was.subjectHash, was.terms, was.risk, next, was.version + 1,
                                                 was.key, was.decision, was.actor, was.expires)],
                  log := u.log, nextSeq := u.nextSeq)
       && Tells(s, u, [ApprovalMoved(a, Some(was.status), next, was.version + 1)])
  }

  lemma MovedLapses(t: Tables, s: Tables, a: int, next: ApprovalStatus)
    requires a in t.approvals && s.approvals == t.approvals
    ensures Lapses(s, MoveApproval(s, a, Lapsed(t.approvals[a], next)), a, next)
  {
  }

  lemma ExpireDueOutcome(t: Tables, c: Call, rows: seq<int>)
    requires forall i, j | 0 <= i < j < |rows| :: rows[i] != rows[j]
    requires forall a :: a in rows <==> a in t.approvals && t.approvals[a].status.Pending? && t.approvals[a].expires <= c.now
    ensures ExpireDue(t, c, rows) == if !MasterValid(t.master, c.lease, c.now) then Err(Fault.LeaseLost) else ExpireRows(t, rows)
  {
    hide ExpireRows;
    assert forall a :: a in rows <==> a in DueApprovals(t, c.now);
  }

  // ---------------------------------------------------------------- grants

  lemma ConsumeOutcome(t: Tables, c: Call, q: int, target: NodeRun, subject: int, a: int, w: Option<WorkLease>)
    ensures Refused(Consume(t, c, q, target, subject, a, w)) ==
      if !MasterValid(t.master, c.lease, c.now) then Some(Fault.LeaseLost)
      else if q !in t.grants || q !in t.requests || t.grants[q].target !in t.tasks || t.grants[q].target !in t.nodes
              || a !in t.approvals || t.approvals[a].subject != OfRequest(q) then Some(Fault.NotFound)
      else if t.grants[q].target != target || t.grants[q].subject != subject || t.tasks[target].grant != Some(q) then Some(Fault.Invalid)
      else if t.run.cancelRequested || !t.run.status.Running? || !t.nodes[target].status.Running? then Some(Fault.Conflict)
      else if !t.requests[q].status.Approved? || !t.approvals[a].status.Approved? || t.approvals[a].expires <= c.now then Some(Fault.Conflict)
      else if w.None? || !Own(w.value, target) then Some(Fault.Invalid)
      else if !LockValid(t.lock, w.value, c.now) || t.grants[q].consumed.Some? || t.grants[q].revoked || t.grants[q].expires <= c.now
      then Some(Fault.Conflict)
      else None
    ensures Consume(t, c, q, target, subject, a, w).Ok? ==>
      var u, g, r := Consume(t, c, q, target, subject, a, w).value, t.grants[q], t.requests[q];
      && u == t.(grants := t.grants[q := GrantRow(g.target, g.subject, g.expires, Some(Use(c.now, w.value.token)), false)],
                 requests := t.requests[q := RequestRow(r.node, r.subject, r.risk, RequestStatus.Consumed)],
                 tasks := t.tasks[target := TaskRow(t.tasks[target].status, t.tasks[target].base, None)], log := u.log, nextSeq := u.nextSeq)
      && Tells(t, u, [GrantChanged(q, Some(w.value.token))])
  {
  }

  /** The idempotent creation: its checks, then an existing grant is bound if it
      was not, or a new one made for a pending retry; a pending retry is readied. */
  lemma CreateGrantOutcome(t: Tables, c: Call, q: int, grant: GrantRow) returns (w: Tables)
    ensures GrantFault(t, c, q, grant).Some? ==> CreateGrant(t, c, q, grant) == Err(GrantFault(t, c, q, grant).value)
    ensures GrantFault(t, c, q, grant).None? && q in t.grants ==>
      && w == t.(tasks := t.tasks[grant.target := TaskRow(t.tasks[grant.target].status, t.tasks[grant.target].base,
                   if t.tasks[grant.target].grant.None? then Some(q) else t.tasks[grant.target].grant)])
      && CreateGrant(t, c, q, grant) == if t.nodes[grant.target].status.Pending? then ActivateIn(w, grant.target) else Ok(w)
    ensures GrantFault(t, c, q, grant).None? && q !in t.grants ==>
      Binds(t, w, q, grant) && CreateGrant(t, c, q, grant) == ActivateIn(w, grant.target)
  {
    hide ActivateIn;
    w := t;
    forall a ensures ApprovedFor(t, q, c.now, a) <==> UsableApproval(t, q, c.now, a) {}
    if grant.target in t.tasks {
      if q !in t.grants {
        w := BindGrant(t, q, grant);
      } else {
        w := if t.tasks[grant.target].grant.None?
          then t.(tasks := t.tasks[grant.target := t.tasks[grant.target].(grant := Some(q))]) else t;
        assert t.tasks[grant.target].grant.Some? ==> t.tasks[grant.target := t.tasks[grant.target]] == t.tasks;
      }
    }
  }

  ghost function GrantFault(t: Tables, c: Call, q: int, grant: GrantRow): Option<Fault> {
    if !MasterValid(t.master, c.lease, c.now) then Some(Fault.LeaseLost)
    else if q !in t.requests then Some(Fault.NotFound)
    else if t.requests[q].subject != grant.subject then Some(Fault.Invalid)
    else if !t.requests[q].status.Approved? || !exists a :: UsableApproval(t, q, c.now, a) then Some(Fault.Conflict)
    else if grant.target !in t.tasks || grant.target !in t.nodes then Some(Fault.NotFound)
    else if grant.target != NodeRun(t.requests[q].node.node, t.requests[q].node.attempt + 1) || Closed(t.run)
            || t.tasks[grant.target].grant !in {None, Some(q)} then Some(Fault.Invalid)
    else if q in t.grants then
      (if t.grants[q].target != grant.target || t.grants[q].subject != grant.subject then Some(Fault.Conflict) else None)
    else if !t.tasks[grant.target].status.Pending? || !t.nodes[grant.target].status.Pending? || t.tasks[grant.target].grant.Some?
    then Some(Fault.Conflict)
    else None
  }

  predicate UsableApproval(t: Tables, q: int, now: int, a: int) {
    a in t.approvals && t.approvals[a].subject == OfRequest(q) && t.approvals[a].status == ApprovalStatus.Approved && now < t.approvals[a].expires
  }

  // ---------------------------------------------------------------- cancellation

  /** One approval is invalidated: its subject is withdrawn, then its row ends. */
  lemma InvalidateOutcome(t: Tables, a: int) returns (w: Tables)
    requires a in t.approvals
    ensures Lapses(w, Invalidate(t, a), a, ApprovalStatus.Invalidated)
    ensures Withdraws(t, w, t.approvals[a].subject)
  {
    hide Lapses, Withdraws, WithdrawSubject;
    w := WithdrawSubject(t, t.approvals[a].subject);
    SubjectWithdraws(t, t.approvals[a].subject);
    assert w.approvals == t.approvals by { SubjectKeeps(t, t.approvals[a].subject); }
    MovedLapses(t, w, a, ApprovalStatus.Invalidated);
  }

  ghost predicate Withdraws(t: Tables, w: Tables, subject: Subject) {
    match subject
    case OfChangeSet(cs) => w == t.(changeSets := Withdrawn(t.changeSets, cs))
    case OfRequest(q) =>
      if q in t.requests && StillAsking(t.requests[q]) then
        && w == t.(requests := t.requests[q := Denied(t.requests[q])], log := w.log, nextSeq := w.nextSeq)
        && Tells(t, w, [RequestMoved(q, Some(RequestStatus.WaitingApproval), RequestStatus.Denied)])
      else w == t
  }

  lemma SubjectWithdraws(t: Tables, subject: Subject)
    ensures Withdraws(t, WithdrawSubject(t, subject), subject)
  {
    if subject.OfChangeSet? && subject.task in t.changeSets {
      assert t.changeSets[subject.task := t.changeSets[subject.task]] == t.changeSets;
    }
  }

  lemma SubjectKeeps(t: Tables, subject: Subject)
    ensures WithdrawSubject(t, subject).approvals == t.approvals
  {
  }

  function Denied(q: RequestRow): RequestRow {
    RequestRow(q.node, q.subject, q.risk, RequestStatus.Denied)
  }

  function WithdrawnStatus(s: ChangeSetStatus): ChangeSetStatus {
    if s in {ChangeSetStatus.PendingApproval, ChangeSetStatus.Approved} then ChangeSetStatus.Cancelled else s
  }

  function Withdrawn(changes: ChangeSetRows, cs: NodeRun): ChangeSetRows {
    if cs in changes then changes[cs := WithdrawnStatus(changes[cs])] else changes
  }

  lemma WithdrawsRows(t: Tables, w: Tables, subject: Subject)
    requires Withdraws(t, w, subject)
    ensures w == t.(changeSets := w.changeSets, requests := w.requests, log := w.log, nextSeq := w.nextSeq)
    ensures w.requests.Keys == t.requests.Keys && w.changeSets.Keys == t.changeSets.Keys
    ensures forall q | q in t.requests ::
      w.requests[q] == if subject == OfRequest(q) && StillAsking(t.requests[q]) then Denied(t.requests[q]) else t.requests[q]
    ensures forall cs | cs in t.changeSets :: w.changeSets[cs] == t.changeSets[cs] || w.changeSets[cs] == WithdrawnStatus(t.changeSets[cs])
  {
    hide StillAsking, WithdrawnStatus;
  }

  lemma {:induction false} InvalidateRowsRows(t: Tables, rows: seq<int>)
    requires forall a | a in rows :: a in t.approvals
    ensures var u := InvalidateRows(t, rows);
      && u == t.(approvals := u.approvals, changeSets := u.changeSets, requests := u.requests, log := u.log, nextSeq := u.nextSeq)
      && u.approvals.Keys == t.approvals.Keys && u.requests.Keys == t.requests.Keys && u.changeSets.Keys == t.changeSets.Keys
      && (forall a | a in t.approvals :: u.approvals[a].subject == t.approvals[a].subject)
      && (forall q | q in t.requests :: u.requests[q] ==
            if AskedIn(t, rows, q) && StillAsking(t.requests[q]) then Denied(t.requests[q]) else t.requests[q])
      && (forall cs | cs in t.changeSets :: u.changeSets[cs] == t.changeSets[cs] || u.changeSets[cs] == WithdrawnStatus(t.changeSets[cs]))
  {
    hide Invalidate, Lapses, Withdraws;
    if rows != [] {
      var a, init := rows[|rows| - 1], rows[..|rows| - 1];
      assert forall b :: b in rows <==> b in init || b == a;
      InvalidateRowsRows(t, init);
      var mid := InvalidateRows(t, init);
      var w := InvalidateOutcome(mid, a);
      WithdrawsRows(mid, w, t.approvals[a].subject);
      LapsesRows(w, Invalidate(mid, a), a, ApprovalStatus.Invalidated);
      forall q | q in t.requests ensures AskedIn(t, rows, q) <==> AskedIn(t, init, q) || t.approvals[a].subject == OfRequest(q) {
        if AskedIn(t, init, q) { var b :| b in init && t.approvals[b].subject == OfRequest(q); assert b in rows; }
      }
    }
  }

  lemma LapsesRows(s: Tables, u: Tables, a: int, next: ApprovalStatus)
    requires Lapses(s, u, a, next)
    ensures u == s.(approvals := u.approvals, log := u.log, nextSeq := u.nextSeq) && u.approvals.Keys == s.approvals.Keys
    ensures forall b | b in s.approvals :: u.approvals[b].subject == s.approvals[b].subject
  {
  }

  predicate AskedIn(t: Tables, rows: seq<int>, q: int)
    requires forall a | a in rows :: a in t.approvals
  {
    exists a | a in rows :: t.approvals[a].subject == OfRequest(q)
  }

  /** One grant is revoked, its pointer cleared, its approved request denied. */
  lemma RevokeOutcome(t: Tables, q: int)
    requires q in t.grants
    ensures var u, g := Revoke(t, q), t.grants[q];
      && u == t.(grants := t.grants[q := GrantRow(g.target, g.subject, g.expires, g.consumed, true)],
                 tasks := if g.target in t.tasks && t.tasks[g.target].grant == Some(q)
                   then t.tasks[g.target := TaskRow(t.tasks[g.target].status, t.tasks[g.target].base, None)] else t.tasks,
                 requests := if q in t.requests && t.requests[q].status.Approved? then t.requests[q := Denied(t.requests[q])] else t.requests,
                 log := u.log, nextSeq := u.nextSeq)
      && Tells(t, u, (if q in t.requests && t.requests[q].status.Approved?
                      then [RequestMoved(q, Some(RequestStatus.Approved), RequestStatus.Denied)] else []) + [GrantChanged(q, None)])
  {
  }

  lemma RevokedRow(t: Tables, q: int)
    requires q in t.grants
    ensures var u := Revoke(t, q);
      && u == t.(grants := u.grants, tasks := u.tasks, requests := u.requests, log := u.log, nextSeq := u.nextSeq)
      && u.requests.Keys == t.requests.Keys && u.tasks.Keys == t.tasks.Keys && u.grants.Keys == t.grants.Keys
      && (forall k | k in t.grants :: u.grants[k].target == t.grants[k].target)
      && (forall k | k in t.requests :: u.requests[k] == if k == q && t.requests[k].status.Approved? then Denied(t.requests[k]) else t.requests[k])
      && (forall r | r in t.tasks :: u.tasks[r].status == t.tasks[r].status && u.tasks[r].base == t.tasks[r].base)
  {
    hide Revoke, Tells;
    RevokeOutcome(t, q);
  }

  lemma {:induction false} RevokeRowsRows(t: Tables, rows: seq<int>)
    requires forall q | q in rows :: q in t.grants
    ensures var u := RevokeRows(t, rows);
      && u == t.(grants := u.grants, tasks := u.tasks, requests := u.requests, log := u.log, nextSeq := u.nextSeq)
      && u.requests.Keys == t.requests.Keys && u.tasks.Keys == t.tasks.Keys && u.grants.Keys == t.grants.Keys
      && (forall q | q in t.grants :: u.grants[q].target == t.grants[q].target)
      && (forall q | q in t.requests :: u.requests[q] == if q in rows && t.requests[q].status.Approved? then Denied(t.requests[q]) else t.requests[q])
      && (forall r | r in t.tasks :: u.tasks[r].status == t.tasks[r].status && u.tasks[r].base == t.tasks[r].base)
  {
    hide Revoke;
    if rows != [] {
      var q, init := rows[|rows| - 1], rows[..|rows| - 1];
      assert forall k :: k in rows <==> k in init || k == q;
      RevokeRowsRows(t, init);
      RevokedRow(RevokeRows(t, init), q);
    }
  }

  /** Refused only for the lease or a merge being finalized; a run that ended
      otherwise is left as it is. An open run's approvals, ChangeSets, grants and
      nodes are dealt with first, then the run is told cancelled, and recovered. */
  lemma CancelOutcome(t: Tables, c: Call, approvals: seq<int>, grants: seq<int>, nodes: seq<NodeRun>) returns (w: Tables)
    requires Fetched(approvals, Undecided(t)) && Fetched(grants, Unused(t)) && Fetched(nodes, Active(t.nodes))
    ensures Refused(Cancel(t, c, approvals, grants, nodes)) ==
      if !MasterValid(t.master, c.lease, c.now) then Some(Fault.LeaseLost)
      else if RunDone(t.run.status) && !t.run.cancelRequested then None
      else if t.run.mergeFinalizing then Some(Fault.Conflict)
      else None
    ensures Cancel(t, c, approvals, grants, nodes).Ok? && RunDone(t.run.status) && !t.run.cancelRequested ==>
      Cancel(t, c, approvals, grants, nodes).value == t
    ensures Cancel(t, c, approvals, grants, nodes).Ok? && !RunDone(t.run.status) ==>
      && w == CancelNodes(RevokeRows(WithdrawChangeSets(InvalidateRows(t, approvals)), grants), nodes)
      && Tells(w, Cancel(t, c, approvals, grants, nodes).value, [RunMoved(t.run.status, RunStatus.Cancelled), CancellationRecovered])
  {
    hide Fetched, InvalidateRows, RevokeRows, CancelNodes, WithdrawChangeSets, RunDone;
    var v := RevokeRows(WithdrawChangeSets(InvalidateRows(t, approvals)), grants);
    w := CancelNodes(v, nodes);
    assert v.run == t.run by { WithdrawingKeepsRun(t, approvals, grants); }
  }

  lemma WithdrawingKeepsRun(t: Tables, approvals: seq<int>, grants: seq<int>)
    ensures RevokeRows(WithdrawChangeSets(InvalidateRows(t, approvals)), grants).run == t.run
  {
    hide InvalidateRows, RevokeRows;
  }

  /** What cancelling an open run makes of every row: run, nodes, tasks,
      approvals, ChangeSets, requests and grants. */
  lemma CancelEnds(t: Tables, c: Call, approvals: seq<int>, grants: seq<int>, nodes: seq<NodeRun>)
    requires Sound(t) && Cancel(t, c, approvals, grants, nodes).Ok? && !RunDone(t.run.status)
    ensures var u := Cancel(t, c, approvals, grants, nodes).value;
      && u == t.(run := RunRow(RunStatus.Cancelled, true, t.run.mergeFinalizing, t.run.commit), nodes := u.nodes, tasks := u.tasks,
                 approvals := u.approvals, changeSets := u.changeSets, requests := u.requests, grants := u.grants,
                 log := u.log, nextSeq := u.nextSeq)
      && u.nodes.Keys == t.nodes.Keys && u.tasks.Keys == t.tasks.Keys && u.approvals.Keys == t.approvals.Keys
      && u.changeSets.Keys == t.changeSets.Keys && u.requests.Keys == t.requests.Keys && u.grants.Keys == t.grants.Keys
      && (forall r | r in t.nodes :: u.nodes[r] ==
            if NodeDone(t.nodes[r].status) then t.nodes[r] else NodeRow(NodeStatus.Cancelled, Some(Outcome.Cancelled), None))
      && (forall r | r in t.tasks :: u.tasks[r] ==
            TaskRow(if r in t.nodes && !NodeDone(t.nodes[r].status)
                       && t.tasks[r].status in {TaskStatus.Pending, TaskStatus.Running, TaskStatus.PrivilegeRequested}
                    then TaskStatus.Cancelled else t.tasks[r].status, t.tasks[r].base, None))
      && (forall a | a in t.approvals :: u.approvals[a] ==
            if t.approvals[a].status.Pending? then Lapsed(t.approvals[a], ApprovalStatus.Invalidated) else t.approvals[a])
      && (forall cs | cs in t.changeSets :: u.changeSets[cs] == WithdrawnStatus(t.changeSets[cs]))
      && (forall q | q in t.requests :: u.requests[q] ==
            if t.requests[q].status.Approved? || PendingFor(t, q) then Denied(t.requests[q]) else t.requests[q])
      && (forall q | q in t.grants :: u.grants[q] ==
            if t.grants[q].consumed.None? then GrantRow(t.grants[q].target, t.grants[q].subject, t.grants[q].expires, None, true) else t.grants[q])
  {
    hide RunKept, Agrees, InvalidateRows, RevokeRows, CancelNodes, Fetched, WithdrawnStatus, NodeDone;
    var w := RevokeRows(WithdrawChangeSets(InvalidateRows(t, approvals)), grants);
    WithdrawnQuiet(t, approvals, grants);
    WithdrawnRows(t, approvals, grants);
    NoPointers(w);
    forall r ensures r in nodes <==> r in w.nodes && !NodeDone(w.nodes[r].status) { FetchedIs(nodes, Active(t.nodes), r); }
    FetchedOnce(nodes, Active(t.nodes));
    CancelNodesRows(w, nodes);
    var u := CancelNodes(w, nodes);
    SoundTasks(t);
    forall r | r in t.tasks ensures u.tasks[r] ==
            TaskRow(if r in t.nodes && !NodeDone(t.nodes[r].status)
                       && t.tasks[r].status in {TaskStatus.Pending, TaskStatus.Running, TaskStatus.PrivilegeRequested}
                    then TaskStatus.Cancelled else t.tasks[r].status, t.tasks[r].base, None) {
      assert w.tasks[r].status == t.tasks[r].status && w.tasks[r].base == t.tasks[r].base && w.tasks[r].grant.None?;
      if r in nodes { assert StopsTask(w.tasks[r], u.tasks[r]); }
    }
  }

  lemma FetchedIs<T(!new)>(rows: seq<T>, matching: set<T>, x: T)
    requires Fetched(rows, matching)
    ensures x in rows <==> x in matching
  {
  }

  lemma FetchedOnce<T(!new)>(rows: seq<T>, matching: set<T>)
    requires Fetched(rows, matching)
    ensures forall i, j | 0 <= i < j < |rows| :: rows[i] != rows[j]
  {
  }

  lemma SoundTasks(t: Tables)
    requires Sound(t)
    ensures forall r | r in t.tasks :: r in t.nodes
  {
    hide Consistent, Compiled, Waits, Flags, Agrees;
  }

  /** With no live grant no task points at one. */
  lemma NoPointers(t: Tables)
    requires Sound(t) && forall q | q in t.grants :: !Live(t.grants[q])
    ensures forall r | r in t.tasks :: t.tasks[r].grant.None?
  {
    hide RunKept, Versioned, OnePending, ChangesAgree, RequestsAgree, Woken, Quiet, UsedInTime;
    forall r | r in t.tasks ensures t.tasks[r].grant.None? {
      assert t.tasks[r].grant.Some? ==> Backs(t.grants, t.tasks[r].grant.value, r);
    }
  }

  /** What withdrawal makes of approvals, ChangeSets, requests and grants. */
  lemma WithdrawnRows(t: Tables, approvals: seq<int>, grants: seq<int>)
    requires Sound(t) && Fetched(approvals, Undecided(t)) && Fetched(grants, Unused(t))
    ensures var u := RevokeRows(WithdrawChangeSets(InvalidateRows(t, approvals)), grants);
      && u.approvals.Keys == t.approvals.Keys && u.tasks.Keys == t.tasks.Keys && u.nodes == t.nodes && u.run == t.run
      && u.changeSets.Keys == t.changeSets.Keys && u.requests.Keys == t.requests.Keys && u.grants.Keys == t.grants.Keys
      && (forall a | a in t.approvals :: u.approvals[a] ==
            if t.approvals[a].status.Pending? then Lapsed(t.approvals[a], ApprovalStatus.Invalidated) else t.approvals[a])
      && (forall cs | cs in t.changeSets :: u.changeSets[cs] == WithdrawnStatus(t.changeSets[cs]))
      && (forall q | q in t.requests :: u.requests[q] ==
            if t.requests[q].status.Approved? || PendingFor(t, q) then Denied(t.requests[q]) else t.requests[q])
      && (forall q | q in t.grants :: u.grants[q] ==
            if t.grants[q].consumed.None? then GrantRow(t.grants[q].target, t.grants[q].subject, t.grants[q].expires, None, true) else t.grants[q])
      && (forall r | r in t.tasks :: u.tasks[r].status == t.tasks[r].status && u.tasks[r].base == t.tasks[r].base)
  {
    hide RunKept, Agrees, InvalidateRows, RevokeRows, Fetched;
    FetchedOnce(approvals, Undecided(t));
    forall a ensures a in approvals <==> a in Undecided(t) { FetchedIs(approvals, Undecided(t), a); }
    InvalidateRowsSound(t, approvals);
    InvalidateRowsRows(t, approvals);
    var i := InvalidateRows(t, approvals);
    WithdrawAgrees(i);
    var w := WithdrawChangeSets(i);
    FetchedOnce(grants, Unused(t));
    forall q ensures q in grants <==> q in Unused(t) { FetchedIs(grants, Unused(t), q); }
    RevokeRowsSound(w, grants);
    RevokeRowsRows(w, grants);
    forall q | q in t.requests
      ensures RevokeRows(w, grants).requests[q] ==
        if t.requests[q].status.Approved? || PendingFor(t, q) then Denied(t.requests[q]) else t.requests[q]
    {
      RequestEnd(t, approvals, q);
      ApprovedIsLive(t, q);
    }
    SoundGrants(t);
  }

  lemma RequestEnd(t: Tables, approvals: seq<int>, q: int)
    requires Sound(t) && q in t.requests && forall a :: a in approvals <==> a in Undecided(t)
    ensures AskedIn(t, approvals, q) <==> PendingFor(t, q)
    ensures PendingFor(t, q) ==> StillAsking(t.requests[q])
  {
    hide RunKept, Versioned, OnePending, ChangesAgree, LedgerAgrees, Woken, Quiet;
    if PendingFor(t, q) {
      var a :| a in t.approvals && t.approvals[a].status.Pending? && t.approvals[a].subject == OfRequest(q);
      assert a in approvals;
      PendingAsks(t, a, q);
    }
  }

  lemma ApprovedIsLive(t: Tables, q: int)
    requires Sound(t) && q in t.requests
    ensures t.requests[q].status.Approved? <==> q in t.grants && Live(t.grants[q])
  {
    hide RunKept, Versioned, OnePending, ChangesAgree, RequestsAgree, Woken, Quiet, UsedInTime;
  }

  lemma SoundGrants(t: Tables)
    requires Sound(t)
    ensures forall q | q in t.grants :: q in t.requests && !(t.grants[q].consumed.Some? && t.grants[q].revoked)
  {
    hide RunKept, Versioned, OnePending, ChangesAgree, RequestsAgree, Woken, Quiet, UsedInTime;
  }

  // ---------------------------------------------------------------- cancelling against merging

  /** Once a merge is being finalized no cancel goes through, and the merge itself,
      under the same leases while they last, exactly if the HEAD is still the
      run's commit and the ChangeSet approved. */
  lemma MergeShutsOutCancel(t: Tables, c: Call, w: WorkLease, picked: NodeRun, d: Call, cs: NodeRun, commit: int,
      approvals: seq<int>, grants: seq<int>, nodes: seq<NodeRun>)
    requires BeginMerge(t, c, w, picked).Ok? && MasterValid(t.master, d.lease, d.now)
    ensures var u := BeginMerge(t, c, w, picked).value;
      && u == t.(run := t.run.(mergeFinalizing := true))
      && Cancel(u, d, approvals, grants, nodes) == Err(Fault.Conflict)
      && (LockValid(t.lock, w, d.now) ==>
            (FinalizeMerge(u, d, picked, cs, commit, w).Ok? <==>
               t.head == t.run.commit && cs in t.changeSets && t.changeSets[cs] == ChangeSetStatus.Approved))
  {
    hide Reconciled, Fetched;
  }

  /** Once the mark is cleared a cancel goes through. */
  lemma ClearedMergeCancels(t: Tables, c: Call, w: WorkLease, picked: Option<NodeRun>, d: Call,
      approvals: seq<int>, grants: seq<int>, nodes: seq<NodeRun>)
    requires ClearMerge(t, c, w, picked).Ok? && MasterValid(t.master, d.lease, d.now)
    requires Fetched(approvals, Undecided(t)) && Fetched(grants, Unused(t)) && Fetched(nodes, Active(t.nodes))
    ensures var u := ClearMerge(t, c, w, picked).value;
      u == t.(run := t.run.(mergeFinalizing := false)) && Cancel(u, d, approvals, grants, nodes).Ok?
  {
    hide Fetched, InvalidateRows, RevokeRows, CancelNodes, RunningMerge;
  }

  predicate PendingFor(t: Tables, q: int) {
    exists a | a in t.approvals :: t.approvals[a].status.Pending? && t.approvals[a].subject == OfRequest(q)
  }
}
