/** What ends a wait for an approval: which waits are attended, and which
    nothing but cancelling or orphaning the run can end. */
module Waiting {
  import opened Wrappers
  import opened Records
  import opened Leases
  import opened Scheduling
  import opened Meaning
  import opened WorkflowRuns
  import opened Approvals
  import opened Actions
  import opened Audit
  import opened RunInvariant
  import opened RunInvariantOfApprovals
  import opened Agreement
  import opened AgreementOnDecisions
  import opened AgreementOnWithdrawal
  import opened Invariance
  import opened History
  import opened Effects
  import opened Timelines

  // ---------------------------------------------------------------- attended waits

  /** The approval of a privilege can still be decided or expire, and either will
      find the attempt that asked for it. */
  ghost predicate Answerable(t: Tables, r: NodeRun, a: int) {
    && a in t.approvals && t.approvals[a].status.Pending? && t.approvals[a].node == r
    && t.approvals[a].subject.OfRequest? && Asking(t, t.approvals[a].subject.request)
    && r in t.tasks && t.tasks[r].status.PrivilegeRequested? && r.attempt < 2
  }

  /** Outside orphaned runs, a node waits for a privilege only on an approval
      that is pending, of a request that asks. */
  ghost predicate Attended(t: Tables) {
    !t.run.status.Orphaned? ==>
      forall r | r in t.nodes && t.nodes[r].waitsFor.Some? && t.nodes[r].waitsFor.value.ForPrivilege? ::
        Answerable(t, r, t.nodes[r].waitsFor.value.approval)
  }

  /** A caller that looks at the approval before it parks the node on it. */
  predicate Attentive(t: Tables, x: Action) {
    x.AwaitPrivilege? ==> x.a in t.approvals && t.approvals[x.a].status.Pending?
  }

  /** A pending approval of the node that waits. */
  predicate Calls(t: Tables, b: int) {
    && b in t.approvals && t.approvals[b].status.Pending?
    && t.approvals[b].node in t.nodes && t.nodes[t.approvals[b].node].status.WaitingApproval?
  }

  /** The run waits, and no pending approval belongs to the waiting node. */
  ghost predicate Stranded(t: Tables, r: NodeRun) {
    && t.run.status.WaitingApproval? && r in t.nodes && t.nodes[r].status.WaitingApproval?
    && forall b | b in t.approvals && t.approvals[b].status.Pending? :: t.approvals[b].node != r
  }

  /** Steps that may bring a new approval of a node. */
  predicate Asks(x: Action, r: NodeRun) {
    (x.NewApproval? || x.RenewApproval? || x.NewRequestAndApproval?) && x.row.node == r
  }

  // ---------------------------------------------------------------- steps while the run waits

  /** Nothing moves, and attended waits stay attended. */
  ghost predicate Rests(t: Tables, u: Tables) {
    && u.nodes == t.nodes && u.run.status == t.run.status
    && forall r, a | r in t.nodes && t.nodes[r].status.WaitingApproval? && Answerable(t, r, a) :: Answerable(u, r, a)
  }

  ghost predicate NoneNew(t: Tables, u: Tables) {
    forall b | b in u.approvals && u.approvals[b].status.Pending? ::
      b in t.approvals && t.approvals[b].status.Pending? && u.approvals[b].node == t.approvals[b].node
  }

  /** Either the run rests, or it went on because an approval of the waiting node
      was pending. */
  ghost predicate RestsOrCalled(t: Tables, u: Tables) {
    if u.run.status.WaitingApproval? then Rests(t, u) && NoneNew(t, u) else exists b :: Calls(t, b)
  }

  lemma WaiterIsOnly(t: Tables, r: NodeRun)
    requires RunKept(t) && t.run.status.WaitingApproval? && r in t.nodes && t.nodes[r].status.WaitingApproval?
    ensures OnlyWaits(t.nodes, r)
  {
    hide Core, Flags;
  }

  lemma RunningNoWait(t: Tables)
    requires RunKept(t) && !t.run.status.WaitingApproval? && !t.run.status.Orphaned?
    ensures forall r | r in t.nodes :: t.nodes[r].waitsFor.None?
  {
    hide Consistent, Compiled, Rowed, Flags;
    forall r | r in t.nodes ensures t.nodes[r].waitsFor.None? { assert Plain(t.nodes[r]); }
  }

  lemma NoWaitAttended(t: Tables)
    requires Sound(t) && !t.run.status.WaitingApproval?
    ensures Attended(t)
  {
    hide RunKept, Agrees, Answerable;
    if !t.run.status.Orphaned? { SoundKept(t); RunningNoWait(t); }
  }

  lemma DecideWhileWaiting(t: Tables, c: Call, d: Decision, ttl: nat)
    requires Sound(t) && t.run.status.WaitingApproval? && Decide(t, c, d, ttl).Ok?
    ensures RestsOrCalled(t, Decide(t, c, d, ttl).value)
  {
    hide Core, Waits, Flags, Agrees, ApproveRequest, RejectPrivilegeIn, ResumeIn, Reconciled;
    SoundKept(t);
    var row, u := t.approvals[d.approval], Decide(t, c, d, ttl).value;
    if !Replays(row, d) {
      match row.subject
      case OfChangeSet(cs) =>
        var next := if d.target.Approved? then ChangeSetStatus.Approved else ChangeSetStatus.Rejected;
        var moved := t.(changeSets := t.changeSets[cs := next]);
        MovedKept(t, moved.changeSets);
        ResumeCalled(moved, row.node, d.target.Approved?);
        assert Calls(t, d.approval);
      case OfRequest(q) =>
        AgreesBound(t);
        if d.target.Approved? {
          ApproveRequestLeaves(t, q, row, c.now + ttl);
        } else {
          SetRequestKept(t, q, RequestStatus.Rejected);
          RejectCalled(SetRequest(t, q, RequestStatus.Rejected), row.node);
        }
        assert Calls(t, d.approval);
    }
  }

  lemma ResumeCalled(t: Tables, r: NodeRun, approved: bool)
    requires RunKept(t) && t.run.status.WaitingApproval? && ResumeIn(t, r, approved).Ok?
    ensures r in t.nodes && t.nodes[r].status.WaitingApproval?
    ensures ResumeIn(t, r, approved).value.approvals == t.approvals && !ResumeIn(t, r, approved).value.run.status.WaitingApproval?
  {
    hide Core, Waits, Flags, Reconciled;
    if !approved { FinishedAway(Wake(t, r, REJECTED)); }
  }

  lemma RejectCalled(t: Tables, r: NodeRun)
    requires RunKept(t) && RejectPrivilegeIn(t, r).Ok?
    ensures r in t.nodes && t.nodes[r].status.WaitingApproval?
    ensures RejectPrivilegeIn(t, r).value.approvals == t.approvals && !RejectPrivilegeIn(t, r).value.run.status.WaitingApproval?
  {
    hide Core, Waits, Flags, Reconciled;
    FinishedAway(EndRejected(t, r));
  }

  lemma FinishedAway(t: Tables)
    requires t.run.status.Running?
    ensures Reconciled(t).approvals == t.approvals && !Reconciled(t).run.status.WaitingApproval? && !Reconciled(t).run.status.Orphaned?
  {
    hide Passes, FinalStatus;
  }

  lemma ExpireOneWhileWaiting(t: Tables, a: int)
    requires Sound(t) && t.run.status.WaitingApproval? && ExpireOne(t, a).Ok?
    ensures RestsOrCalled(t, ExpireOne(t, a).value)
  {
    hide Core, Waits, Agrees, RejectPrivilegeIn;
    SoundKept(t);
    var row := t.approvals[a];
    if row.subject.OfRequest? && Asking(t, row.subject.request) {
      var q := row.subject.request;
      RequestOf(t, a, q);
      var node := t.requests[q].node;
      var ended := Log(t.(requests := t.requests[q := t.requests[q].(status := RequestStatus.Expired)]),
                       RequestMoved(q, Some(t.requests[q].status), RequestStatus.Expired));
      RequestLogKept(t, ended.requests, RequestMoved(q, Some(t.requests[q].status), RequestStatus.Expired));
      if node in t.nodes && t.nodes[node].status.WaitingApproval? {
        assert Calls(t, a);
        RejectCalled(ended, node);
      } else {
        forall r, b | r in t.nodes && t.nodes[r].status.WaitingApproval? && Answerable(t, r, b)
          ensures Answerable(ExpireOne(t, a).value, r, b)
        {
          RequestOf(t, b, t.approvals[b].subject.request);
        }
      }
    } else if row.subject.OfRequest? {
      StillAsks(t, a);
    }
  }

  lemma RequestOf(t: Tables, a: int, q: int)
    requires Agrees(t) && Of(t.approvals, a, q)
    ensures q in t.requests && t.requests[q].node == t.approvals[a].node
    ensures forall b | Of(t.approvals, b, q) :: b == a
  {
    hide Versioned, OnePending, ChangesAgree, LedgerAgrees, Woken, Quiet;
  }

  lemma StillAsks(t: Tables, a: int)
    requires Agrees(t) && a in t.approvals && t.approvals[a].status.Pending? && t.approvals[a].subject.OfRequest?
    ensures Asking(t, t.approvals[a].subject.request)
  {
    hide Versioned, OnePending, ChangesAgree, LedgerAgrees, Woken, Quiet;
    assert Of(t.approvals, a, t.approvals[a].subject.request);
  }

  lemma {:induction false} ExpireWhileWaiting(t: Tables, rows: seq<int>)
    requires Sound(t) && t.run.status.WaitingApproval? && ExpireRows(t, rows).Ok?
    ensures RestsOrCalled(t, ExpireRows(t, rows).value)
  {
    hide RunKept, Agrees, ExpireOne, Answerable;
    if rows != [] {
      var init, last := rows[..|rows| - 1], rows[|rows| - 1];
      ExpireWhileWaiting(t, init);
      ExpireRowsSound(t, init);
      var mid := ExpireRows(t, init).value;
      if mid.run.status.WaitingApproval? {
        ExpireOneWhileWaiting(mid, last);
        if b :| Calls(mid, b) { assert Calls(t, b); }
      } else {
        ExpireStaysAway(mid, last);
      }
    }
  }

  lemma ExpireStaysAway(t: Tables, a: int)
    requires Sound(t) && !t.run.status.WaitingApproval? && ExpireOne(t, a).Ok?
    ensures !ExpireOne(t, a).value.run.status.WaitingApproval?
  {
    hide RunKept, Agrees, RejectPrivilegeIn;
  }

  /** No node or run moves, asking requests and pending approvals stay, and the
      one new pending approval is the one inserted. */
  ghost predicate Adds(t: Tables, u: Tables, x: Action) {
    && Rests(t, u)
    && forall b | b in u.approvals && u.approvals[b].status.Pending? ::
         (b in t.approvals && t.approvals[b].status.Pending? && u.approvals[b].node == t.approvals[b].node)
         || Asks(x, u.approvals[b].node)
  }

  lemma InsertRests(t: Tables, a: int, row: ApprovalRow)
    requires InsertOrFind(t, a, row).Ok?
    ensures Rests(t, InsertOrFind(t, a, row).value)
    ensures InsertOrFind(t, a, row).value.approvals == t.approvals
      || (a !in t.approvals && InsertOrFind(t, a, row).value.approvals == t.approvals[a := row])
  {
    hide Rests;
    if exists b :: PendingOn(t, row.subject, b) { RestsSame(t); }
    else { InsertedRests(t, InsertOrFind(t, a, row).value, a, row); }
  }

  lemma RestsSame(t: Tables)
    ensures Rests(t, t)
  {
  }

  lemma InsertedRests(t: Tables, u: Tables, a: int, row: ApprovalRow)
    requires u.nodes == t.nodes && u.run == t.run && u.tasks == t.tasks && a !in t.approvals && u.approvals == t.approvals[a := row]
    requires forall q | Asking(t, q) :: Asking(u, q)
    ensures Rests(t, u)
  {
  }

  lemma NewWhileWaiting(t: Tables, x: Action)
    requires BookStep(t, x).Ok? && (x.NewApproval? || x.RenewApproval? || x.NewRequest? || x.NewRequestAndApproval?)
    ensures Adds(t, BookStep(t, x).value, x)
  {
    hide Rests, InsertOrFind, CreateRequest, Renew;
    match x
    case NewApproval(_, a, row) => InsertRests(t, a, row);
    case RenewApproval(c, prior, version, hash, a, row) => RenewRests(t, c, prior, version, hash, a, row);
    case NewRequest(c, q, request, w) => RequestRests(t, c, q, request, w);
    case NewRequestAndApproval(c, q, request, w, a, row) =>
      RequestRests(t, c, q, request, w);
      var made := CreateRequest(t, c, q, request, w).value;
      InsertRests(made, a, row);
      RestsAgain(t, made, InsertOrFind(made, a, row).value);
  }

  lemma RestsAgain(t: Tables, u: Tables, v: Tables)
    requires Rests(t, u) && Rests(u, v)
    ensures Rests(t, v)
  {
  }

  lemma RequestRests(t: Tables, c: Call, q: int, row: RequestRow, w: WorkLease)
    requires CreateRequest(t, c, q, row, w).Ok?
    ensures Rests(t, CreateRequest(t, c, q, row, w).value) && CreateRequest(t, c, q, row, w).value.approvals == t.approvals
  {
    hide RequestCheck;
  }

  lemma RenewRests(t: Tables, c: Call, prior: int, version: nat, hash: int, a: int, row: ApprovalRow)
    requires Renew(t, c, prior, version, hash, a, row).Ok?
    ensures Rests(t, Renew(t, c, prior, version, hash, a, row).value)
    ensures a !in t.approvals && Renew(t, c, prior, version, hash, a, row).value.approvals == t.approvals[a := row]
  {
  }

  lemma BooksWhileWaiting(t: Tables, x: Action)
    requires Sound(t) && t.run.status.WaitingApproval? && BookStep(t, x).Ok?
    requires x.DecideApproval? || x.ExpireApprovals? || x.FindGrant? || x.ConsumeGrant?
    ensures RestsOrCalled(t, BookStep(t, x).value)
  {
    hide Sound, Decide, ExpireRows, CreateGrant;
    match x
    case DecideApproval(c, d, ttl) => DecideWhileWaiting(t, c, d, ttl);
    case ExpireApprovals(c, rows) => ExpireWhileWaiting(t, rows);
    case FindGrant(c, q, grant) => CreateGrantIdle(t, c, q, grant);
    case _ =>
  }

  lemma TasksWhileWaiting(t: Tables, x: Action)
    requires t.run.status.WaitingApproval? && TaskStep(t, x).Ok?
    ensures var u := TaskStep(t, x).value; Rests(t, u) && u.approvals == t.approvals
  {
    hide IsWrite, FenceCheck;
  }

  lemma RunsWhileWaiting(t: Tables, x: Action)
    requires t.run.status.WaitingApproval? && RunStep(t, x).Ok? && !x.OrphanRun?
    ensures var u := RunStep(t, x).value; Rests(t, u) && u.approvals == t.approvals
  {
    hide WriteCheck, MayRetry, ResumeIn, Reconciled, IsWrite, RunningMerge;
  }

  lemma LeasesWhileWaiting(t: Tables, x: Action)
    requires t.run.status.WaitingApproval? && LeaseStep(t, x).Ok?
    ensures var u := LeaseStep(t, x).value; Rests(t, u) && u.approvals == t.approvals
  {
    hide AcquireMaster, BeatMaster, ReleaseMaster, AcquireLock, BeatLock, ReleaseLock;
  }

  /** A waiting run goes on only by being cancelled or orphaned, or because an
      approval of the waiting node was pending; any other step moves no node,
      leaves attended waits attended, and brings no approval but its own. */
  lemma WaitingStep(t: Tables, x: Action)
    requires Sound(t) && t.run.status.WaitingApproval?
    ensures var u := After(t, x);
      if u.run.status.WaitingApproval? then Adds(t, u, x)
      else x.CancelRun? || x.OrphanRun? || exists b :: Calls(t, b)
  {
    hide Sound, LeaseStep, BookStep, TaskStep, RunStep, Answerable;
    if Do(t, x).Ok? {
      if OnLeases(x) { LeasesWhileWaiting(t, x); }
      else if OnTasks(x) { TasksWhileWaiting(t, x); }
      else if x.NewApproval? || x.RenewApproval? || x.NewRequest? || x.NewRequestAndApproval? { NewWhileWaiting(t, x); }
      else if x.CancelRun? { CancelEndsWait(t, x); }
      else if OnBooks(x) { BooksWhileWaiting(t, x); }
      else if x.OrphanRun? { OrphanEndsWait(t, x); }
      else { RunsWhileWaiting(t, x); }
    }
  }

  lemma CancelEndsWait(t: Tables, x: Action)
    requires Sound(t) && t.run.status.WaitingApproval? && x.CancelRun? && BookStep(t, x).Ok?
    ensures !BookStep(t, x).value.run.status.WaitingApproval?
  {
    hide Sound, InvalidateRows, RevokeRows, CancelNodes;
  }

  lemma OrphanEndsWait(t: Tables, x: Action)
    requires t.run.status.WaitingApproval? && x.OrphanRun? && RunStep(t, x).Ok?
    ensures !RunStep(t, x).value.run.status.WaitingApproval?
  {
    hide OrphanNodes;
  }

  // ---------------------------------------------------------------- every wait is attended

  /** A run that comes to wait does so by one of the two waiting steps. */
  lemma WaitBegins(t: Tables, x: Action)
    requires Sound(t) && Proper(t, x) && Attentive(t, x) && !t.run.status.WaitingApproval? && After(t, x).run.status.WaitingApproval?
    ensures Attended(After(t, x))
  {
    hide RunKept, Agrees, LeaseStep, BookStep, TaskStep, RunStep;
    SoundKept(t);
    if OnLeases(x) { LeasesUnmoved(t, x); }
    else if OnTasks(x) { TasksFramed(t, x); }
    else if OnBooks(x) { BooksStayAway(t, x); }
    else { RunsWaitBegins(t, x); }
  }

  lemma BooksStayAway(t: Tables, x: Action)
    requires Sound(t) && !t.run.status.WaitingApproval? && BookStep(t, x).Ok?
    ensures !BookStep(t, x).value.run.status.WaitingApproval?
  {
    hide Sound, Decide, CreateGrant, InsertOrFind, RequestCheck, Cancel, ExpireRows;
    match x
    case DecideApproval(c, d, ttl) => DecideStaysAway(t, c, d, ttl);
    case ExpireApprovals(c, rows) => ExpireRowsStayAway(t, rows);
    case FindGrant(c, q, grant) => CreateGrantIdle(t, c, q, grant);
    case CancelRun(c, approvals, grants, nodes) => CancelStaysAway(t, c, approvals, grants, nodes);
    case _ =>
  }

  lemma DecideStaysAway(t: Tables, c: Call, d: Decision, ttl: nat)
    requires Sound(t) && !t.run.status.WaitingApproval? && Decide(t, c, d, ttl).Ok?
    ensures !Decide(t, c, d, ttl).value.run.status.WaitingApproval?
  {
    hide RunKept, Agrees, Reconciled, ApproveRequest, RejectPrivilegeIn, ResumeIn;
    SoundKept(t);
    var row := t.approvals[d.approval];
    if !Replays(row, d) {
      match row.subject
      case OfChangeSet(cs) =>
        var next := if d.target.Approved? then ChangeSetStatus.Approved else ChangeSetStatus.Rejected;
        ResumeStaysAway(t.(changeSets := t.changeSets[cs := next]), row.node, d.target.Approved?);
      case OfRequest(q) =>
        AgreesBound(t);
        if d.target.Approved? { ApproveRequestLeaves(t, q, row, c.now + ttl); }
        else {
          SetRequestKept(t, q, RequestStatus.Rejected);
          RejectCalled(SetRequest(t, q, RequestStatus.Rejected), row.node);
        }
    }
  }

  lemma {:induction false} ExpireRowsStayAway(t: Tables, rows: seq<int>)
    requires Sound(t) && !t.run.status.WaitingApproval? && ExpireRows(t, rows).Ok?
    ensures !ExpireRows(t, rows).value.run.status.WaitingApproval?
  {
    hide RunKept, Agrees, ExpireOne;
    if rows != [] {
      ExpireRowsStayAway(t, rows[..|rows| - 1]);
      ExpireRowsSound(t, rows[..|rows| - 1]);
      ExpireStaysAway(ExpireRows(t, rows[..|rows| - 1]).value, rows[|rows| - 1]);
    }
  }

  lemma CancelStaysAway(t: Tables, c: Call, approvals: seq<int>, grants: seq<int>, nodes: seq<NodeRun>)
    requires !t.run.status.WaitingApproval? && Cancel(t, c, approvals, grants, nodes).Ok?
    ensures !Cancel(t, c, approvals, grants, nodes).value.run.status.WaitingApproval?
  {
    hide InvalidateRows, RevokeRows, CancelNodes;
  }

  /** Of the run's own steps only the two waiting ones start a wait, and only of
      the node they name. */
  lemma RunsWaitBegins(t: Tables, x: Action)
    requires Sound(t) && Proper(t, x) && Attentive(t, x) && !t.run.status.WaitingApproval?
    requires RunStep(t, x).Ok? && RunStep(t, x).value.run.status.WaitingApproval?
    ensures Attended(RunStep(t, x).value)
  {
    hide RunKept, Agrees, Attended, EnterWaiting, PrepareRetry, Start, Claim, Complete, BeginMerge, ClearMerge, FinalizeMerge, Orphan, ResumeIn, MayRetry, Reconciled;
    SoundKept(t);
    match x
    case StartRun(c) => StartStaysAway(t, c);
    case ClaimNext(c) => ClaimStaysAway(t, c);
    case CompleteNode(c, r, v, e) => CompleteStaysAway(t, c, r, v, e);
    case CommitMerge(c, r, cs, commit, w) => MergeStaysAway(t, c, r, cs, commit, w);
    case OrphanRun(c, rows, only) => OrphanStaysAway(t, c, rows, only);
    case AwaitApproval(c, r, a) => GateWaitBegins(t, c, r, a);
    case AwaitPrivilege(c, r, a, w) => PrivilegeWaitBegins(t, c, r, a, w);
    case _ =>
  }

  lemma GateWaitBegins(t: Tables, c: Call, r: NodeRun, a: int)
    requires RunKept(t) && EnterWaiting(t, c, r, a).Ok? && EnterWaiting(t, c, r, a).value.run.status.WaitingApproval?
    ensures Attended(EnterWaiting(t, c, r, a).value)
  {
    hide RunKept, ResumeIn, Answerable;
    RunningNoWait(t);
    if a in t.approvals && Decided(t.approvals[a].status) { ResumeStaysAway(t, r, t.approvals[a].status.Approved?); }
  }

  lemma PrivilegeWaitBegins(t: Tables, c: Call, r: NodeRun, a: int, w: WorkLease)
    requires Sound(t) && PrepareRetry(t, c, r, a, w).Ok?
    requires a in t.approvals && t.approvals[a].status.Pending? && t.approvals[a].subject.OfRequest? && t.approvals[a].node == r
    ensures Attended(PrepareRetry(t, c, r, a, w).value)
  {
    hide RunKept, Agrees, MayRetry;
    SoundKept(t);
    RunningNoWait(t);
    StillAsks(t, a);
    assert MayRetry(t, r);
    RetryFirst(t, r);
  }

  lemma RetryFirst(t: Tables, r: NodeRun)
    requires MayRetry(t, r)
    ensures r.attempt < 2
  {
  }

  lemma StartStaysAway(t: Tables, c: Call)
    requires !t.run.status.WaitingApproval? && Start(t, c).Ok?
    ensures !Start(t, c).value.run.status.WaitingApproval?
  {
    hide Reconciled;
    if t.run.status.Pending? { FinishedAway(MoveRun(t, RunStatus.Pending, RunStatus.Running)); }
    else if t.run.status.Running? { FinishedAway(t); }
  }

  lemma ClaimStaysAway(t: Tables, c: Call)
    requires !t.run.status.WaitingApproval? && Claim(t, c).Ok?
    ensures !Claim(t, c).value.run.status.WaitingApproval?
  {
    hide FirstReady;
  }

  lemma CompleteStaysAway(t: Tables, c: Call, r: NodeRun, v: Verdict, hasError: bool)
    requires !t.run.status.WaitingApproval? && Complete(t, c, r, v, hasError).Ok?
    ensures !Complete(t, c, r, v, hasError).value.run.status.WaitingApproval?
  {
    hide WriteCheck, IsWrite;
  }

  lemma MergeStaysAway(t: Tables, c: Call, r: NodeRun, cs: NodeRun, commit: int, w: WorkLease)
    requires FinalizeMerge(t, c, r, cs, commit, w).Ok?
    ensures !FinalizeMerge(t, c, r, cs, commit, w).value.run.status.WaitingApproval?
  {
    hide Reconciled;
    var merged := t.(head := commit, run := t.run.(commit := commit, mergeFinalizing := false),
                     changeSets := t.changeSets[cs := ChangeSetStatus.Merged]);
    FinishedAway(MoveNode(merged, r, NodeStatus.Running, NodeRow(NodeStatus.Completed, Some(Outcome.Success), None)));
  }

  lemma OrphanStaysAway(t: Tables, c: Call, rows: seq<NodeRun>, only: Option<NodeRun>)
    requires !t.run.status.WaitingApproval? && Orphan(t, c, rows, only).Ok?
    ensures !Orphan(t, c, rows, only).value.run.status.WaitingApproval?
  {
    hide OrphanNodes;
  }

  lemma ResumeStaysAway(t: Tables, r: NodeRun, approved: bool)
    requires !t.run.status.WaitingApproval? && ResumeIn(t, r, approved).Ok?
    ensures !ResumeIn(t, r, approved).value.run.status.WaitingApproval?
  {
    hide Reconciled;
    if !approved { FinishedAway(MoveNode(t, r, NodeStatus.Running, REJECTED)); }
  }

  lemma StepAttended(t: Tables, x: Action)
    requires Sound(t) && Attended(t) && Proper(t, x) && Attentive(t, x)
    ensures Attended(After(t, x))
  {
    hide Sound, After, Proper, Attentive, Answerable;
    var u := After(t, x);
    StepSound(t, x);
    if !u.run.status.WaitingApproval? {
      NoWaitAttended(u);
    } else if t.run.status.WaitingApproval? {
      WaitingStep(t, x);
      forall r | r in u.nodes && u.nodes[r].waitsFor.Some? && u.nodes[r].waitsFor.value.ForPrivilege?
        ensures Answerable(u, r, u.nodes[r].waitsFor.value.approval)
      {
        AwaitedWaits(t, r);
      }
    } else {
      WaitBegins(t, x);
    }
  }

  lemma AwaitedWaits(t: Tables, r: NodeRun)
    requires Sound(t) && r in t.nodes && t.nodes[r].waitsFor.Some?
    ensures t.nodes[r].status.WaitingApproval?
  {
    hide Consistent, Compiled, Rowed, Waits, Flags, Agrees;
    assert Plain(t.nodes[r]);
  }

  ghost predicate AllAttentive(t: Tables, steps: seq<Action>) {
    forall i | 0 <= i < |steps| :: Attentive(Trace(t, steps[..i]), steps[i])
  }

  /** With callers that look at the approval first, every wait for a privilege
      in every run is one that deciding or expiry can still end. */
  lemma {:induction false} RunAttended(t: Tables, steps: seq<Action>)
    requires Created(t) && AllProper(t, steps) && AllAttentive(t, steps)
    ensures Attended(Trace(t, steps))
  {
    hide Sound, Created, Proper, After, AllProper, Attended, Attentive;
    if steps == [] {
      CreatedSound(t);
      CreatedAttended(t);
    } else {
      var k := |steps| - 1;
      PrefixSound(t, steps, k);
      PrefixProper(t, steps, k);
      forall i | 0 <= i < k ensures Attentive(Trace(t, steps[..k][..i]), steps[..k][i]) {
        assert steps[..k][..i] == steps[..i];
        assert Attentive(Trace(t, steps[..i]), steps[i]);
      }
      RunAttended(t, steps[..k]);
      assert Attentive(Trace(t, steps[..k]), steps[k]);
      StepAttended(Trace(t, steps[..k]), steps[k]);
    }
  }

  lemma CreatedAttended(t: Tables)
    requires Created(t)
    ensures Attended(t)
  {
  }

  // ---------------------------------------------------------------- what nothing ends

  /** A stranded run stays stranded until it is cancelled or orphaned, or a new
      approval of the waiting node is asked for. */
  lemma StrandedStays(t: Tables, x: Action, r: NodeRun)
    requires Sound(t) && Stranded(t, r)
    ensures Stranded(After(t, x), r) || x.CancelRun? || x.OrphanRun? || Asks(x, r)
  {
    hide Sound, After, Asks, Answerable;
    WaitingStep(t, x);
    SoundKept(t);
    WaiterIsOnly(t, r);
    if b :| Calls(t, b) { assert false; }
  }

  // ---------------------------------------------------------------- what does end a wait

  /** A decision made on the approval as it stands, before it expires. */
  predicate Timely(t: Tables, c: Call, d: Decision) {
    && MasterValid(t.master, c.lease, c.now) && Decided(d.target)
    && d.approval in t.approvals && t.approvals[d.approval].status.Pending? && d.version == t.approvals[d.approval].version
    && d.subjectHash == t.approvals[d.approval].subjectHash && c.now < t.approvals[d.approval].expires
  }

  lemma WaitIsOpen(t: Tables, r: NodeRun)
    requires RunKept(t) && t.run.status.WaitingApproval? && r in t.nodes && t.nodes[r].status.WaitingApproval?
    ensures !RunClosed(t.run) && Next(r) !in t.nodes && Next(r) !in t.tasks && (r.attempt < 2 ==> MayRetry(t, r))
  {
    hide Consistent, Compiled;
  }

  lemma PendingFirst(t: Tables, a: int)
    requires Agrees(t) && a in t.approvals && t.approvals[a].status.Pending?
    ensures t.approvals[a].version == 1
    ensures t.approvals[a].subject.OfRequest? && Asking(t, t.approvals[a].subject.request) ==> t.approvals[a].subject.request !in t.grants
    ensures t.approvals[a].subject.OfChangeSet? ==> t.approvals[a].subject.task in t.changeSets
  {
    hide OnePending, RequestsAgree, Woken, Quiet;
    if t.approvals[a].subject.OfChangeSet? { assert On(t.approvals, a, t.approvals[a].subject.task); }
  }

  /** A timely decision on an attended wait always goes through. */
  lemma DecidesAttended(t: Tables, c: Call, r: NodeRun, d: Decision, ttl: nat)
    requires Sound(t) && t.run.status.WaitingApproval? && r in t.nodes && t.nodes[r].status.WaitingApproval?
    requires Answerable(t, r, d.approval) && Timely(t, c, d)
    ensures Decide(t, c, d, ttl).Ok?
  {
    hide Consistent, Compiled, Rowed, Agrees, Reconciled, MayRetry, Plain;
    var row := t.approvals[d.approval];
    var q := row.subject.request;
    WaitIsOpen(t, r);
    PendingFirst(t, d.approval);
    RequestOf(t, d.approval, q);
    if d.target.Approved? {
      var approved := SetRequest(t, q, RequestStatus.Approved);
      assert MayRetry(approved, r) by { SameRetry(t, approved, r); }
    }
  }

  lemma SameRetry(t: Tables, u: Tables, r: NodeRun)
    requires MayRetry(t, r) && u.nodes == t.nodes
    ensures MayRetry(u, r)
  {
  }

  /** Deciding an attended wait ends it: approved, the attempt is superseded and
      its retry ready; rejected, the attempt ends. Either way nothing waits. */
  lemma PrivilegeAnswered(t: Tables, c: Call, r: NodeRun, d: Decision, ttl: nat)
    requires Sound(t) && t.run.status.WaitingApproval? && r in t.nodes && t.nodes[r].status.WaitingApproval?
    requires Answerable(t, r, d.approval) && Timely(t, c, d)
    ensures Decide(t, c, d, ttl).Ok?
    ensures var u := Decide(t, c, d, ttl).value;
      && NoneWaits(u.nodes) && !u.run.status.WaitingApproval? && r in u.nodes
      && (if d.target.Approved? then u.nodes[r].status.Superseded? && Next(r) in u.nodes && u.nodes[Next(r)].status.Ready?
          else u.nodes[r] == REJECTED)
  {
    hide Sound, Answerable, Decide, Replays;
    DecidesAttended(t, c, r, d, ttl);
    assert !Replays(t.approvals[d.approval], d) by { PendingIsNew(t.approvals[d.approval], d); }
    assert t.approvals[d.approval].subject.OfRequest? && t.approvals[d.approval].node == r by { OfItsRequest(t, r, d.approval); }
    if d.target.Approved? {
      PrivilegeApproved(t, c, d, ttl);
      DecidedSound(t, c, d, ttl);
    } else {
      PrivilegeRefused(t, c, d, ttl);
      DecidedSound(t, c, d, ttl);
    }
  }

  lemma PendingIsNew(row: ApprovalRow, d: Decision)
    requires row.status.Pending?
    ensures !Replays(row, d)
  {
  }

  lemma OfItsRequest(t: Tables, r: NodeRun, a: int)
    requires Answerable(t, r, a)
    ensures t.approvals[a].subject.OfRequest? && t.approvals[a].node == r
  {
  }

  lemma DecidedSound(t: Tables, c: Call, d: Decision, ttl: nat)
    requires Sound(t) && Decide(t, c, d, ttl).Ok?
    requires !Replays(t.approvals[d.approval], d) && t.approvals[d.approval].subject.OfRequest?
    ensures NoneWaits(Decide(t, c, d, ttl).value.nodes) && !Decide(t, c, d, ttl).value.run.status.WaitingApproval?
  {
    hide Core, Waits, Flags, Agrees, Reconciled, ApproveRequest, RejectPrivilegeIn, Replays;
    SoundKept(t);
    var row := t.approvals[d.approval];
    var q := row.subject.request;
    if d.target.Approved? {
      AgreesBound(t);
      ApproveRequestLeaves(t, q, row, c.now + ttl);
      RetriesOnly(t, c, d, ttl);
    } else {
      SetRequestKept(t, q, RequestStatus.Rejected);
      RejectPrivilegeKept(SetRequest(t, q, RequestStatus.Rejected), row.node);
      RejectCalled(SetRequest(t, q, RequestStatus.Rejected), row.node);
    }
  }

  lemma RetriesOnly(t: Tables, c: Call, d: Decision, ttl: nat)
    requires Sound(t) && Decide(t, c, d, ttl).Ok? && Decide(t, c, d, ttl).value.run.status.Running?
    ensures NoneWaits(Decide(t, c, d, ttl).value.nodes)
  {
    hide Core, Waits, Flags, Agrees, Decide;
    DecideSound(t, c, d, ttl);
    SoundKept(Decide(t, c, d, ttl).value);
    NoneWhileRunning(Decide(t, c, d, ttl).value);
  }

  /** Expiry of an attended wait goes through too, and ends the attempt. */
  lemma PrivilegeTimesOut(t: Tables, r: NodeRun, a: int)
    requires Sound(t) && t.run.status.WaitingApproval? && r in t.nodes && t.nodes[r].status.WaitingApproval? && Answerable(t, r, a)
    ensures ExpireOne(t, a).Ok?
    ensures var u := ExpireOne(t, a).value; r in u.nodes && u.nodes[r] == REJECTED && !u.run.status.WaitingApproval?
  {
    hide Consistent, Compiled, Rowed, Agrees, Reconciled, Plain;
    var q := t.approvals[a].subject.request;
    RequestOf(t, a, q);
    WaitIsOpen(t, r);
    var ended := Log(t.(requests := t.requests[q := t.requests[q].(status := RequestStatus.Expired)]),
                     RequestMoved(q, Some(t.requests[q].status), RequestStatus.Expired));
    RequestLogKept(t, ended.requests, RequestMoved(q, Some(t.requests[q].status), RequestStatus.Expired));
    RejectPrivilegeKept(ended, r);
    RejectCalled(ended, r);
  }

  /** A gate's pending approval can be decided exactly while its ChangeSet still
      awaits approval; deciding it then ends the gate's wait. */
  lemma GateAnswered(t: Tables, c: Call, r: NodeRun, d: Decision, ttl: nat)
    requires Sound(t) && t.run.status.WaitingApproval? && r in t.nodes && t.nodes[r].status.WaitingApproval?
    requires Timely(t, c, d) && t.approvals[d.approval].subject.OfChangeSet? && t.approvals[d.approval].node == r
    ensures var cs := t.approvals[d.approval].subject.task;
      cs in t.changeSets && (Decide(t, c, d, ttl).Ok? <==> t.changeSets[cs].PendingApproval?)
    ensures Decide(t, c, d, ttl).Ok? ==>
      var u := Decide(t, c, d, ttl).value;
      && r in u.nodes && !u.run.status.WaitingApproval?
      && u.nodes[r] == if d.target.Approved? then NodeRow(NodeStatus.Ready, None, None) else REJECTED
  {
    hide Consistent, Compiled, Rowed, Agrees, Reconciled, Plain;
    var cs := t.approvals[d.approval].subject.task;
    PendingFirst(t, d.approval);
    WaitIsOpen(t, r);
    if t.changeSets[cs].PendingApproval? {
      var next := if d.target.Approved? then ChangeSetStatus.Approved else ChangeSetStatus.Rejected;
      var moved := t.(changeSets := t.changeSets[cs := next]);
      if !d.target.Approved? {
        DoneStays(Wake(moved, r, REJECTED), r);
        FinishedAway(Wake(moved, r, REJECTED));
      }
    }
  }
}
