/** The steps of the approval repository: approvals, privilege requests and
    one-shot grants, and the cancellation that invalidates them. */
module Approvals {
  import opened Wrappers
  import opened Records
  import opened Leases
  import opened WorkflowRuns

  // ---------------------------------------------------------------- creating

  ghost predicate PendingOn(t: Tables, subject: Subject, a: int) {
    a in t.approvals && t.approvals[a].status.Pending? && t.approvals[a].subject == subject
  }

  /** Run states in which no approval may be created, renewed or decided. */
  predicate RunClosed(run: RunRow) {
    run.cancelRequested || run.status.Cancelled? || run.status.Completed? || run.status.Failed? || run.status.Orphaned?
  }

  predicate Fresh(row: ApprovalRow) {
    row.status.Pending? && row.version == 1 && row.decision.None? && row.actor.None?
  }

  function InsertApproval(t: Tables, a: int, row: ApprovalRow): Tables {
    Log(t.(approvals := t.approvals[a := row]), ApprovalMoved(a, None, row.status, row.version))
  }

  function AwaitRequest(t: Tables, q: int): Tables
    requires q in t.requests
  {
    Log(t.(requests := t.requests[q := t.requests[q].(status := RequestStatus.WaitingApproval)]),
        RequestMoved(q, Some(t.requests[q].status), RequestStatus.WaitingApproval))
  }

  function SubmitChangeSet(t: Tables, cs: NodeRun): Tables {
    if cs in t.changeSets && t.changeSets[cs].TestPassed?
    then t.(changeSets := t.changeSets[cs := ChangeSetStatus.PendingApproval]) else t
  }

  ghost function CreateApproval(t: Tables, c: Call, a: int, row: ApprovalRow): (after: Result<Tables>)
    ensures after.Ok? ==> Framed(t, after.value) && Unmoved(t, after.value)
  {
    var valid := Fresh(row) && !row.risk.L4?;
    :- Need(valid, Fault.Invalid);
    :- Need(MasterValid(t.master, c.lease, c.now), Fault.LeaseLost);
    InsertOrFind(t, a, row)
  }

  /** Returns a pending approval of the same subject, or inserts a new one. */
  ghost function InsertOrFind(t: Tables, a: int, row: ApprovalRow): (after: Result<Tables>)
    ensures after.Ok? ==> Framed(t, after.value) && Unmoved(t, after.value)
  {
    if exists b :: PendingOn(t, row.subject, b) then
      var b :| PendingOn(t, row.subject, b);
      if t.approvals[b].subjectHash == row.subjectHash then Ok(t) else Err(Fault.Conflict)
    else
      :- Need(row.node in t.nodes, Fault.NotFound);
      match row.subject
      case OfChangeSet(cs) =>
        :- Need(cs in t.changeSets, Fault.NotFound);
        :- Need((t.changeSets[cs].TestPassed? || t.changeSets[cs].PendingApproval?) && !RunClosed(t.run), Fault.Conflict);
        :- Need(a !in t.approvals, Fault.Conflict);
        Ok(InsertApproval(SubmitChangeSet(t, cs), a, row))
      case OfRequest(q) =>
        :- Need(q in t.requests, Fault.NotFound);
        :- Need(t.requests[q].node == row.node, Fault.Invalid);
        :- Need(!RunClosed(t.run) && (t.requests[q].status.Pending? || t.requests[q].status.WaitingApproval?), Fault.Conflict);
        :- Need(a !in t.approvals, Fault.Conflict);
        Ok(InsertApproval(AwaitRequest(t, q), a, row))
  }

  /** Replaces an expired ChangeSet approval; the index on pending subjects
      refuses the insert while another one is pending. */
  ghost function Renew(t: Tables, c: Call, prior: int, version: nat, hash: int, a: int, row: ApprovalRow): (after: Result<Tables>)
    ensures after.Ok? ==> Framed(t, after.value) && Unmoved(t, after.value)
  {
    var valid := MasterValid(t.master, c.lease, c.now);
    :- Need(valid, Fault.LeaseLost);
    :- Need(prior in t.approvals, Fault.NotFound);
    var was := t.approvals[prior];
    :- Need(was.subject.OfChangeSet?, Fault.Invalid);
    :- Need(was.status.Expired? && was.version == version && was.subjectHash == hash && !RunClosed(t.run), Fault.Conflict);
    :- Need(row.subject == was.subject && row.node == was.node && row.terms == was.terms && row.risk == was.risk
            && row.subjectHash != was.subjectHash && Fresh(row) && row.key.None? && !row.risk.L4? && row.expires > c.now
            && row.node in t.nodes, Fault.Invalid);
    :- Need(was.subject.task in t.changeSets && t.changeSets[was.subject.task].PendingApproval?, Fault.Conflict);
    :- Need(a !in t.approvals && !exists b :: PendingOn(t, row.subject, b), Fault.Conflict);
    Ok(InsertApproval(t, a, row))
  }

  // ---------------------------------------------------------------- privilege requests

  function InsertRequest(t: Tables, q: int, row: RequestRow): Tables {
    Log(t.(requests := t.requests[q := row]), RequestMoved(q, None, row.status))
  }

  function RequestCheck(t: Tables, c: Call, q: int, row: RequestRow, w: WorkLease): Check {
    if !MasterValid(t.master, c.lease, c.now) then Refuse(Fault.LeaseLost)
    else if !Bound(w, row.node) then Refuse(Fault.Invalid)
    else if !LockValid(t.lock, w, c.now) then Refuse(Fault.LeaseLost)
    else if q !in t.requests then Need(row.node in t.nodes && row.node in t.tasks, Fault.Conflict)
    else Need(t.requests[q].(status := row.status) == row, Fault.Conflict)
  }

  function CreateRequest(t: Tables, c: Call, q: int, row: RequestRow, w: WorkLease): (after: Result<Tables>)
    ensures after.Ok? ==> Framed(t, after.value) && Unmoved(t, after.value)
  {
    var check := RequestCheck(t, c, q, row, w);
    :- check;
    Ok(if q in t.requests then t else InsertRequest(t, q, row))
  }

  ghost function CreateRequestAndApproval(t: Tables, c: Call, q: int, row: RequestRow, w: WorkLease, a: int,
      approval: ApprovalRow): (after: Result<Tables>)
    ensures after.Ok? ==> Framed(t, after.value) && Unmoved(t, after.value)
  {
    var valid := Fresh(approval) && !approval.risk.L4? && approval.subject == OfRequest(q);
    :- Need(valid, Fault.Invalid);
    var made :- CreateRequest(t, c, q, row, w);
    InsertOrFind(made, a, approval)
  }

  // ---------------------------------------------------------------- deciding

  predicate Replays(row: ApprovalRow, d: Decision) {
    !row.status.Pending? && row.key == Some(d.key)
  }

  /** The answer to a repeated key: the stored decision, or a refusal. */
  function Replay(t: Tables, d: Decision): (after: Result<Tables>)
    requires d.approval in t.approvals
    ensures after.Ok? ==> Framed(t, after.value) && Unmoved(t, after.value)
  {
    var row := t.approvals[d.approval];
    if row.decision.None? then
      :- Need(Decided(row.status) && row.status == d.target && row.actor == Some(d.actor)
              && row.version == d.version + 1 && row.subjectHash == d.subjectHash, Fault.KeyReused);
      Ok(t.(approvals := t.approvals[d.approval := row.(decision := Some(d))]))
    else
      :- Need(row.decision == Some(d) && row.status == d.target, Fault.KeyReused);
      Ok(t)
  }

  function DecidedRow(row: ApprovalRow, d: Decision): ApprovalRow {
    row.(status := d.target, version := row.version + 1, actor := Some(d.actor), key := Some(d.key), decision := Some(d))
  }

  function MoveApproval(t: Tables, a: int, row: ApprovalRow): Tables
    requires a in t.approvals
  {
    Log(t.(approvals := t.approvals[a := row]), ApprovalMoved(a, Some(t.approvals[a].status), row.status, row.version))
  }

  ghost function Decide(t: Tables, c: Call, d: Decision, ttl: nat): (after: Result<Tables>)
    ensures after.Ok? ==> Framed(t, after.value)
  {
    var valid := d.version >= 1 && Decided(d.target);
    :- Need(valid, Fault.Invalid);
    :- Need(MasterValid(t.master, c.lease, c.now), Fault.LeaseLost);
    :- Need(d.approval in t.approvals, Fault.NotFound);
    var row := t.approvals[d.approval];
    if Replays(row, d) then Replay(t, d) else
      :- Need(row.subjectHash == d.subjectHash && !RunClosed(t.run) && row.status.Pending? && row.version == d.version
              && row.expires > c.now, Fault.Conflict);
      var settled :- (match row.subject
        case OfChangeSet(cs) => DecideChangeSet(t, cs, row.node, d.target)
        case OfRequest(q) => if d.target.Approved? then ApproveRequest(t, q, row, c.now + ttl) else RejectRequest(t, q, row.node));
      Ok(MoveApproval(settled, d.approval, DecidedRow(row, d)))
  }

  ghost function DecideChangeSet(t: Tables, cs: NodeRun, node: NodeRun, target: ApprovalStatus): (after: Result<Tables>)
    ensures after.Ok? ==> Framed(t, after.value) && after.value.approvals == t.approvals
  {
    var valid := cs in t.changeSets && t.changeSets[cs].PendingApproval?;
    :- Need(valid, Fault.Conflict);
    var next := if target.Approved? then ChangeSetStatus.Approved else ChangeSetStatus.Rejected;
    ResumeIn(t.(changeSets := t.changeSets[cs := next]), node, target.Approved?)
  }

  predicate Asking(t: Tables, q: int) {
    q in t.requests && (t.requests[q].status.Pending? || t.requests[q].status.WaitingApproval?)
  }

  function SetRequest(t: Tables, q: int, next: RequestStatus): Tables
    requires q in t.requests
  {
    Log(t.(requests := t.requests[q := t.requests[q].(status := next)]),
        RequestMoved(q, Some(RequestStatus.WaitingApproval), next))
  }

  /** Approves the request, replaces its attempt, and binds one grant to the
      retry for no longer than the approval lasts. */
  ghost function ApproveRequest(t: Tables, q: int, approval: ApprovalRow, limit: int): (after: Result<Tables>)
    ensures after.Ok? ==> Framed(t, after.value) && after.value.approvals == t.approvals
  {
    var valid := Asking(t, q);
    :- Need(valid, Fault.Conflict);
    var approved := SetRequest(t, q, RequestStatus.Approved);
    var retried :- ApprovePrivilegeIn(approved, approval.node);
    :- Need(approved.requests[q].node == approval.node, Fault.Conflict);
    GrantRetry(retried, q, approval, limit)
  }

  /** A grant already there for this very retry is returned as it is. */
  function GrantRetry(t: Tables, q: int, approval: ApprovalRow, limit: int): (after: Result<Tables>)
    requires q in t.requests && Next(approval.node) in t.tasks
    ensures after.Ok? ==> Framed(t, after.value) && after.value.approvals == t.approvals
  {
    var target := Next(approval.node);
    if q in t.grants then
      :- Need(t.grants[q].target == target && t.grants[q].subject == t.requests[q].subject, Fault.Conflict);
      Ok(t)
    else
      :- Need(t.tasks[target].grant.None?, Fault.Conflict);
      var expires := if approval.expires < limit then approval.expires else limit;
      ActivateIn(BindGrant(t, q, GrantRow(target, t.requests[q].subject, expires, None, false)), target)
  }

  function BindGrant(t: Tables, q: int, grant: GrantRow): Tables
    requires grant.target in t.tasks
  {
    Log(t.(grants := t.grants[q := grant],
           tasks := t.tasks[grant.target := t.tasks[grant.target].(grant := Some(q))]), GrantChanged(q, None))
  }

  ghost function RejectRequest(t: Tables, q: int, node: NodeRun): (after: Result<Tables>)
    ensures after.Ok? ==> Framed(t, after.value) && after.value.approvals == t.approvals
  {
    var valid := Asking(t, q);
    :- Need(valid, Fault.Conflict);
    RejectPrivilegeIn(SetRequest(t, q, RequestStatus.Rejected), node)
  }

  // ---------------------------------------------------------------- expiry

  function Lapsed(row: ApprovalRow, s: ApprovalStatus): ApprovalRow {
    row.(status := s, version := row.version + 1)
  }

  ghost function ExpireOne(t: Tables, a: int): (after: Result<Tables>)
    ensures after.Ok? ==> Framed(t, after.value)
  {
    var valid := a in t.approvals && t.approvals[a].status.Pending?;
    :- Need(valid, Fault.Conflict);
    var row := t.approvals[a];
    if row.subject.OfChangeSet? || !Asking(t, row.subject.request) then
      Ok(MoveApproval(t, a, Lapsed(row, ApprovalStatus.Expired)))
    else
      var q := row.subject.request;
      var node := t.requests[q].node;
      var ended := Log(t.(requests := t.requests[q := t.requests[q].(status := RequestStatus.Expired)]),
                       RequestMoved(q, Some(t.requests[q].status), RequestStatus.Expired));
      var resumed :- if node in t.nodes && t.nodes[node].status.WaitingApproval? && t.run.status.WaitingApproval?
                        && !t.run.cancelRequested
                     then RejectPrivilegeIn(ended, node) else Ok(ended);
      Ok(MoveApproval(resumed, a, Lapsed(row, ApprovalStatus.Expired)))
  }

  ghost function ExpireRows(t: Tables, rows: seq<int>): (after: Result<Tables>)
    ensures after.Ok? ==> Framed(t, after.value)
  {
    if rows == [] then Ok(t) else
      var before :- ExpireRows(t, rows[..|rows| - 1]);
      ExpireOne(before, rows[|rows| - 1])
  }

  function DueApprovals(t: Tables, now: int): set<int> {
    set a | a in t.approvals && t.approvals[a].status.Pending? && t.approvals[a].expires <= now
  }

  ghost function ExpireDue(t: Tables, c: Call, rows: seq<int>): (after: Result<Tables>)
    ensures after.Ok? ==> Framed(t, after.value)
  {
    var valid := MasterValid(t.master, c.lease, c.now);
    :- Need(valid, Fault.LeaseLost);
    :- Need(Fetched(rows, DueApprovals(t, c.now)), Fault.Invalid);
    ExpireRows(t, rows)
  }

  // ---------------------------------------------------------------- grants

  predicate Live(g: GrantRow) {
    g.consumed.None? && !g.revoked
  }

  ghost predicate ApprovedFor(t: Tables, q: int, now: int, a: int) {
    && a in t.approvals && t.approvals[a].subject == OfRequest(q)
    && t.approvals[a].status.Approved? && t.approvals[a].expires > now
  }

  /** The idempotent grant creation; after a decision it only finds the grant. */
  ghost function CreateGrant(t: Tables, c: Call, q: int, grant: GrantRow): (after: Result<Tables>)
    ensures after.Ok? ==> Framed(t, after.value)
  {
    var valid := MasterValid(t.master, c.lease, c.now);
    :- Need(valid, Fault.LeaseLost);
    :- Need(q in t.requests, Fault.NotFound);
    :- Need(t.requests[q].subject == grant.subject, Fault.Invalid);
    :- Need(t.requests[q].status.Approved? && exists a :: ApprovedFor(t, q, c.now, a), Fault.Conflict);
    var target := grant.target;
    :- Need(target in t.tasks && target in t.nodes, Fault.NotFound);
    :- Need(target == Next(t.requests[q].node) && !RunClosed(t.run)
            && (t.tasks[target].grant.None? || t.tasks[target].grant == Some(q)), Fault.Invalid);
    if q in t.grants then
      :- Need(t.grants[q].target == target && t.grants[q].subject == grant.subject, Fault.Conflict);
      var bound := if t.tasks[target].grant.None? then t.(tasks := t.tasks[target := t.tasks[target].(grant := Some(q))]) else t;
      if t.nodes[target].status.Pending? then ActivateIn(bound, target) else Ok(bound)
    else
      :- Need(t.tasks[target].status.Pending? && t.nodes[target].status.Pending? && t.tasks[target].grant.None?, Fault.Conflict);
      ActivateIn(BindGrant(t, q, grant), target)
  }

  /** `a` is the approval row joined to the grant's request. */
  ghost function Consume(t: Tables, c: Call, q: int, target: NodeRun, subject: int, a: int, w: Option<WorkLease>): (after: Result<Tables>)
    ensures after.Ok? ==> Framed(t, after.value) && Unmoved(t, after.value)
  {
    var valid := MasterValid(t.master, c.lease, c.now);
    :- Need(valid, Fault.LeaseLost);
    :- Need(q in t.grants && q in t.requests && t.grants[q].target in t.tasks && t.grants[q].target in t.nodes
            && a in t.approvals && t.approvals[a].subject == OfRequest(q), Fault.NotFound);
    :- Need(t.grants[q].target == target && t.grants[q].subject == subject && t.tasks[target].grant == Some(q), Fault.Invalid);
    :- Need(!t.run.cancelRequested && t.run.status.Running? && t.nodes[target].status.Running?, Fault.Conflict);
    :- Need(t.requests[q].status.Approved? && ApprovedFor(t, q, c.now, a), Fault.Conflict);
    :- Need(w.Some? && Bound(w.value, target), Fault.Invalid);
    :- Need(LockValid(t.lock, w.value, c.now) && Live(t.grants[q]) && t.grants[q].expires > c.now, Fault.Conflict);
    var token := w.value.token;
    Ok(Log(t.(grants := t.grants[q := t.grants[q].(consumed := Some(Use(c.now, token)))],
              requests := t.requests[q := t.requests[q].(status := RequestStatus.Consumed)],
              tasks := t.tasks[target := t.tasks[target].(grant := None)]), GrantChanged(q, Some(token))))
  }

  // ---------------------------------------------------------------- cancellation

  function Undecided(t: Tables): set<int> {
    set a | a in t.approvals && t.approvals[a].status.Pending?
  }

  function Unused(t: Tables): set<int> {
    set q | q in t.grants && Live(t.grants[q])
  }

  function WithdrawSubject(t: Tables, subject: Subject): Tables {
    match subject
    case OfChangeSet(cs) =>
      if cs in t.changeSets && (t.changeSets[cs].PendingApproval? || t.changeSets[cs].Approved?)
      then t.(changeSets := t.changeSets[cs := ChangeSetStatus.Cancelled]) else t
    case OfRequest(q) => if Asking(t, q) then SetRequest(t, q, RequestStatus.Denied) else t
  }

  function Invalidate(t: Tables, a: int): (after: Tables)
    ensures Framed(t, after) && after.run == t.run
  {
    if a !in t.approvals then t else
      var w := WithdrawSubject(t, t.approvals[a].subject);
      MoveApproval(w, a, Lapsed(t.approvals[a], ApprovalStatus.Invalidated))
  }

  function InvalidateRows(t: Tables, rows: seq<int>): (after: Tables)
    ensures Framed(t, after) && after.run == t.run
  {
    if rows == [] then t else Invalidate(InvalidateRows(t, rows[..|rows| - 1]), rows[|rows| - 1])
  }

  function WithdrawChangeSets(t: Tables): Tables {
    t.(changeSets := map cs | cs in t.changeSets ::
        if t.changeSets[cs].PendingApproval? || t.changeSets[cs].Approved? then ChangeSetStatus.Cancelled else t.changeSets[cs])
  }

  function Revoke(t: Tables, q: int): (after: Tables)
    ensures Framed(t, after) && after.run == t.run
  {
    if q !in t.grants then t else
      var g := t.grants[q];
      var unbound := if g.target in t.tasks && t.tasks[g.target].grant == Some(q)
        then t.tasks[g.target := t.tasks[g.target].(grant := None)] else t.tasks;
      var revoked := t.(grants := t.grants[q := g.(revoked := true)], tasks := unbound);
      var denied := if q in t.requests && t.requests[q].status.Approved?
        then Log(revoked.(requests := t.requests[q := t.requests[q].(status := RequestStatus.Denied)]),
                 RequestMoved(q, Some(RequestStatus.Approved), RequestStatus.Denied))
        else revoked;
      Log(denied, GrantChanged(q, None))
  }

  function RevokeRows(t: Tables, rows: seq<int>): (after: Tables)
    ensures Framed(t, after) && after.run == t.run
  {
    if rows == [] then t else Revoke(RevokeRows(t, rows[..|rows| - 1]), rows[|rows| - 1])
  }

  /** Cancellation and everything it revokes, in one transaction. */
  ghost function Cancel(t: Tables, c: Call, approvals: seq<int>, grants: seq<int>, nodes: seq<NodeRun>): (after: Result<Tables>)
    ensures after.Ok? ==> Framed(t, after.value)
  {
    var valid := MasterValid(t.master, c.lease, c.now);
    :- Need(valid, Fault.LeaseLost);
    if RunDone(t.run.status) && !t.run.cancelRequested then Ok(t) else
      :- Need(!t.run.mergeFinalizing, Fault.Conflict);
      :- Need(Fetched(approvals, Undecided(t)) && Fetched(grants, Unused(t)) && Fetched(nodes, Active(t.nodes)), Fault.Invalid);
      var withdrawn := RevokeRows(WithdrawChangeSets(InvalidateRows(t, approvals)), grants);
      var ended := if RunDone(t.run.status) then withdrawn else EndRun(CancelNodes(withdrawn, nodes));
      Ok(Log(ended, CancellationRecovered))
  }

  /** The request and the status change commit together. */
  function EndRun(t: Tables): Tables {
    MoveRun(t.(run := t.run.(cancelRequested := true)), t.run.status, RunStatus.Cancelled)
  }
}
