/** One invariant over every step, and so over every run. */
module Invariance {
  import opened Wrappers
  import opened Records
  import opened Leases
  import opened Meaning
  import opened WorkflowRuns
  import opened Approvals
  import opened ChangeSets
  import opened Actions
  import opened Audit
  import opened RunInvariant
  import opened RunInvariantOfApprovals
  import opened Agreement
  import opened AgreementOnDecisions
  import opened AgreementOnWithdrawal

  // ---------------------------------------------------------------- run steps

  lemma SteadySound(t: Tables, u: Tables)
    requires Sound(t) && RunKept(u) && Steady(t.nodes, u.nodes) && SamePointers(t.tasks, u.tasks)
    requires u.approvals == t.approvals && u.requests == t.requests && u.grants == t.grants && u.changeSets == t.changeSets
    requires u.run.status.Cancelled? ==> t.run.status.Cancelled?
    ensures Sound(u)
  {
    hide RunKept, Agrees, Onward;
    SteadyOnward(t.nodes, u.nodes);
    Untouched(t, u);
  }

  lemma SameCancel(t: Tables, u: Tables)
    requires RunKept(t) && RunKept(u) && u.run.cancelRequested == t.run.cancelRequested
    ensures u.run.status.Cancelled? ==> t.run.status.Cancelled?
  {
    hide Core, Waits;
  }

  lemma StartSound(t: Tables, c: Call)
    requires Sound(t) && Start(t, c).Ok?
    ensures Sound(Start(t, c).value)
  {
    hide Core, Waits, Flags, Agrees, Start, Steady;
    StartKept(t, c);
    SameCancel(t, Start(t, c).value);
    SteadySound(t, Start(t, c).value);
  }

  lemma ClaimSound(t: Tables, c: Call)
    requires Sound(t) && Claim(t, c).Ok?
    ensures Sound(Claim(t, c).value)
  {
    hide Core, Waits, Flags, Agrees, Claim, Steady;
    ClaimKept(t, c);
    SteadySound(t, Claim(t, c).value);
  }

  lemma CompleteSound(t: Tables, c: Call, r: NodeRun, v: Verdict, hasError: bool)
    requires Sound(t) && Complete(t, c, r, v, hasError).Ok?
    ensures Sound(Complete(t, c, r, v, hasError).value)
  {
    hide Core, Waits, Flags, Agrees, Steady, WriteCheck, Legal;
    CompleteKept(t, c, r, v, hasError);
    SteadySound(t, Complete(t, c, r, v, hasError).value);
  }

  lemma CreateTaskSound(t: Tables, c: Call, r: NodeRun, base: int)
    requires Sound(t) && CreateTask(t, c, r, base).Ok?
    ensures Sound(CreateTask(t, c, r, base).value)
  {
    hide Core, Waits, Flags, Agrees;
    CreateTaskKept(t, c, r, base);
    SteadySound(t, CreateTask(t, c, r, base).value);
  }

  lemma StartTaskSound(t: Tables, c: Call, r: NodeRun, base: int)
    requires Sound(t) && StartTask(t, c, r, base).Ok?
    ensures Sound(StartTask(t, c, r, base).value)
  {
    hide Core, Waits, Flags, Agrees;
    StartTaskKept(t, c, r, base);
    SteadySound(t, StartTask(t, c, r, base).value);
  }

  lemma FinishTaskSound(t: Tables, c: Call, r: NodeRun, target: TaskStatus, hasError: bool, w: Option<WorkLease>)
    requires Sound(t) && FinishTask(t, c, r, target, hasError, w).Ok?
    ensures Sound(FinishTask(t, c, r, target, hasError, w).value)
  {
    hide Core, Waits, Flags, Agrees, FenceCheck, IsWrite;
    FinishTaskKept(t, c, r, target, hasError, w);
    SteadySound(t, FinishTask(t, c, r, target, hasError, w).value);
  }

  lemma OrphanSound(t: Tables, c: Call, rows: seq<NodeRun>, only: Option<NodeRun>)
    requires Sound(t) && Orphan(t, c, rows, only).Ok?
    ensures Sound(Orphan(t, c, rows, only).value)
  {
    hide Core, Waits, Flags, Agrees, Orphan, Steady;
    OrphanKept(t, c, rows, only);
    SameCancel(t, Orphan(t, c, rows, only).value);
    SteadySound(t, Orphan(t, c, rows, only).value);
  }

  lemma MergeFlagSound(t: Tables, x: Action)
    requires Sound(t) && Do(t, x).Ok? && (x.StartMerge? || x.AbandonMerge?)
    ensures Sound(Do(t, x).value)
  {
    hide Consistent, Compiled, Rowed, Agrees, RunningMerge;
    SteadySound(t, Do(t, x).value);
  }

  lemma MasterSound(t: Tables, row: LeaseRow)
    requires Sound(t) && row.token >= MasterToken(t)
    ensures Sound(t.(master := Some(row)))
  {
    hide RunKept, Versioned, OnePending, ChangesAgree, RequestsAgree, LedgerAgrees, Woken, Quiet;
    MasterKept(t, row);
  }

  lemma LockSound(t: Tables, row: LockRow)
    requires Sound(t) && row.token >= LockToken(t)
    ensures Sound(t.(lock := Some(row)))
  {
    hide RunKept, Versioned, OnePending, ChangesAgree, RequestsAgree, LedgerAgrees, Woken, Quiet;
    LockKept(t, row);
  }

  lemma HeadSound(t: Tables, head: int)
    requires Sound(t)
    ensures Sound(t.(head := head))
  {
    hide RunKept, Versioned, OnePending, ChangesAgree, RequestsAgree, LedgerAgrees, Woken, Quiet;
    HeadKept(t, head);
  }

  lemma LeaseSound(t: Tables, x: Action)
    requires Sound(t) && Do(t, x).Ok?
    requires x.TakeMaster? || x.KeepMaster? || x.DropMaster? || x.TakeLock? || x.KeepLock? || x.DropLock? || x.OtherRunMerges?
    ensures Sound(Do(t, x).value)
  {
    hide Sound;
    var u := Do(t, x).value;
    if x.OtherRunMerges? { HeadSound(t, x.head); }
    else if x.TakeMaster? || x.KeepMaster? || x.DropMaster? { MasterSound(t, u.master.value); }
    else { LockSound(t, u.lock.value); }
  }

  lemma HeadKept(t: Tables, head: int)
    requires RunKept(t)
    ensures RunKept(t.(head := head))
  {
    hide Consistent, Compiled, Rowed;
  }

  // ---------------------------------------------------------------- waiting

  lemma WaitAgrees(t: Tables, r: NodeRun, a: Awaited)
    requires Agrees(t) && r in t.nodes && !NodeDone(t.nodes[r].status) && t.run.status.Running?
    requires a.approval in t.approvals ==> !Decided(t.approvals[a.approval].status)
    ensures Agrees(Wait(t, r, a))
  {
    hide Versioned, OnePending, ChangesAgree, LedgerAgrees;
  }

  lemma EnterWaitingSound(t: Tables, c: Call, r: NodeRun, a: int)
    requires Sound(t) && EnterWaiting(t, c, r, a).Ok?
    ensures Sound(EnterWaiting(t, c, r, a).value)
  {
    hide Core, Waits, Flags, Agrees, ResumeIn, Steady;
    EnterWaitingKept(t, c, r, a);
    if a in t.approvals && Decided(t.approvals[a].status) {
      ResumeKept(t, r, t.approvals[a].status.Approved?);
      SameCancel(t, EnterWaiting(t, c, r, a).value);
      SteadySound(t, EnterWaiting(t, c, r, a).value);
    } else {
      WaitAgrees(t, r, ForGate(a));
    }
  }

  /** An approval of this node's own request is undecided while the node runs. */
  lemma OwnApprovalUndecided(t: Tables, r: NodeRun, a: int)
    requires RequestsAgree(t.approvals, t.requests, t.nodes, t.tasks) && r in t.nodes && t.nodes[r].status.Running?
    requires a in t.approvals && t.approvals[a].subject.OfRequest? && t.approvals[a].node == r
    ensures !Decided(t.approvals[a].status)
  {
    assert Of(t.approvals, a, t.approvals[a].subject.request);
  }

  lemma PrepareRetrySound(t: Tables, c: Call, r: NodeRun, a: int, w: WorkLease)
    requires Sound(t) && PrepareRetry(t, c, r, a, w).Ok? && Proper(t, AwaitPrivilege(c, r, a, w))
    ensures Sound(PrepareRetry(t, c, r, a, w).value)
  {
    hide RunKept, Versioned, OnePending, ChangesAgree, LedgerAgrees, RequestsAgree, Woken, Quiet, MayRetry, MasterValid, LockValid, Bound;
    PrepareRetryKept(t, c, r, a, w);
    if a in t.approvals { OwnApprovalUndecided(t, r, a); }
    var task := t.tasks[r];
    if task.status.Running? {
      var asked := MoveTask(t, r, Some(TaskStatus.Running), task.(status := TaskStatus.PrivilegeRequested), Some(w.token));
      Untouched(t, asked);
      WaitAgrees(asked, r, ForPrivilege(a));
    } else {
      WaitAgrees(t, r, ForPrivilege(a));
    }
  }

  // ---------------------------------------------------------------- every step

  lemma ApprovalSound(t: Tables, x: Action)
    requires Sound(t) && Do(t, x).Ok? && (x.NewApproval? || x.RenewApproval? || x.ExpireApprovals?)
    ensures Sound(Do(t, x).value)
  {
    hide RunKept, Agrees, InsertOrFind, Renew, ExpireRows;
    match x
    case NewApproval(c, a, row) => InsertOrFindKept(t, a, row); InsertOrFindAgrees(t, a, row);
    case RenewApproval(c, prior, v, h, a, row) => RenewKept(t, c, prior, v, h, a, row); RenewAgrees(t, c, prior, v, h, a, row);
    case ExpireApprovals(c, rows) => ExpireRowsSound(t, rows);
  }

  lemma RequestSound(t: Tables, x: Action)
    requires Sound(t) && Do(t, x).Ok? && Proper(t, x) && (x.NewRequest? || x.NewRequestAndApproval?)
    ensures Sound(Do(t, x).value)
  {
    hide RunKept, Agrees, InsertOrFind, CreateRequest;
    CreateRequestKept(t, x.c, x.q, x.request, x.w);
    CreateRequestAgrees(t, x.c, x.q, x.request, x.w);
    if x.NewRequestAndApproval? {
      InsertOrFindKept(CreateRequest(t, x.c, x.q, x.request, x.w).value, x.a, x.row);
      InsertOrFindAgrees(CreateRequest(t, x.c, x.q, x.request, x.w).value, x.a, x.row);
    }
  }

  lemma DecideSound(t: Tables, c: Call, d: Decision, ttl: nat)
    requires Sound(t) && Decide(t, c, d, ttl).Ok?
    ensures Sound(Decide(t, c, d, ttl).value)
  {
    hide RunKept, Agrees, DecideChangeSet, ApproveRequest, RejectRequest, Replay;
    AgreesBound(t);
    DecideKept(t, c, d, ttl);
    var row := t.approvals[d.approval];
    if Replays(row, d) {
      ReplayAgrees(t, d);
    } else if row.subject.OfChangeSet? {
      DecideChangeSetAgrees(t, c, d, ttl);
    } else if d.target.Approved? {
      ApproveAgrees(t, c, d, ttl);
    } else {
      RejectAgrees(t, c, d, ttl);
    }
  }

  lemma ReplayAgrees(t: Tables, d: Decision)
    requires Agrees(t) && d.approval in t.approvals && Replay(t, d).Ok?
    ensures Agrees(Replay(t, d).value)
  {
    var row := t.approvals[d.approval];
    if row.decision.None? { Annotated(t, d.approval, row.(decision := Some(d))); }
  }

  /** Backfilling the decision of a decided approval changes no book. */
  lemma Annotated(t: Tables, a: int, row: ApprovalRow)
    requires Agrees(t) && a in t.approvals && row == t.approvals[a].(decision := row.decision)
    ensures Agrees(t.(approvals := t.approvals[a := row]))
  {
    var after := t.approvals[a := row];
    forall b, cs ensures On(after, b, cs) <==> On(t.approvals, b, cs) {}
    forall b, q ensures Of(after, b, q) <==> Of(t.approvals, b, q) {}
    AnnotatedChanges(t.approvals, after, t.changeSets);
    AnnotatedRequests(t, after);
  }

  ghost predicate SameButDecision(was: ApprovalRows, approvals: ApprovalRows) {
    && approvals.Keys == was.Keys
    && forall b | b in was :: approvals[b] == was[b].(decision := approvals[b].decision)
  }

  lemma AnnotatedChanges(was: ApprovalRows, approvals: ApprovalRows, changes: ChangeSetRows)
    requires ChangesAgree(was, changes) && SameButDecision(was, approvals)
    ensures ChangesAgree(approvals, changes)
  {
    forall b, cs ensures On(approvals, b, cs) <==> On(was, b, cs) {}
    forall cs, s | Answered(was, cs, s) ensures Answered(approvals, cs, s) {
      var b :| On(was, b, cs) && was[b].status == s;
      assert On(approvals, b, cs);
    }
  }

  lemma AnnotatedRequests(t: Tables, approvals: ApprovalRows)
    requires RequestsAgree(t.approvals, t.requests, t.nodes, t.tasks) && LedgerAgrees(t.approvals, t.requests, t.grants, t.tasks)
    requires SameButDecision(t.approvals, approvals)
    ensures RequestsAgree(approvals, t.requests, t.nodes, t.tasks) && LedgerAgrees(approvals, t.requests, t.grants, t.tasks)
  {
    forall b, q ensures Of(approvals, b, q) <==> Of(t.approvals, b, q) {}
    forall q | Permitted(t.approvals, q) ensures Permitted(approvals, q) {
      var b :| Of(t.approvals, b, q) && t.approvals[b].status.Approved?;
      assert Of(approvals, b, q);
    }
    forall q | q in t.grants && t.grants[q].consumed.Some? ensures UsedInTime(approvals, q, t.grants[q]) {
      assert UsedInTime(t.approvals, q, t.grants[q]);
      var b :| Of(t.approvals, b, q) && t.approvals[b].status.Approved? && t.grants[q].consumed.value.at < t.approvals[b].expires;
      assert Of(approvals, b, q);
    }
  }

  lemma ChangeSetSound(t: Tables, x: Action)
    requires Sound(t) && Do(t, x).Ok? && Proper(t, x) && (x.CaptureChange? || x.MoveChangeSet? || x.CommitMerge?)
    ensures Sound(Do(t, x).value)
  {
    hide RunKept, Agrees, Capture, Transition, FinalizeMerge;
    match x
    case CaptureChange(c, r, s, target, e, w) => CaptureKept(t, c, r, s, target, e, w); CaptureAgrees(t, c, r, s, target, e, w);
    case MoveChangeSet(c, r, was, next, w) => TransitionKept(t, c, r, was, next, w); TransitionAgrees(t, c, r, was, next, w);
    case CommitMerge(c, r, cs, commit, w) => FinalizeMergeKept(t, c, r, cs, commit, w); FinalizeMergeAgrees(t, c, r, cs, commit, w);
  }

  lemma GrantSound(t: Tables, x: Action)
    requires Sound(t) && Do(t, x).Ok? && (x.FindGrant? || x.ConsumeGrant? || x.CancelRun?)
    ensures Sound(Do(t, x).value)
  {
    hide RunKept, Agrees, CreateGrant, Consume, Cancel;
    match x
    case FindGrant(c, q, grant) => CreateGrantIdle(t, c, q, grant);
    case ConsumeGrant(c, q, r, s, a, w) => ConsumeKept(t, c, q, r, s, a, w); ConsumeAgrees(t, c, q, r, s, a, w);
    case CancelRun(c, approvals, grants, nodes) =>
      CancelKept(t, c, approvals, grants, nodes);
      CancelAgrees(t, c, approvals, grants, nodes);
  }

  /** Every step keeps the invariant, whether it commits or is rolled back. */
  lemma StepSound(t: Tables, x: Action)
    requires Sound(t) && Proper(t, x)
    ensures Sound(After(t, x))
  {
    hide RunKept, Agrees, Sound;
    if Do(t, x).Ok? {
      match x
      case StartRun(c) => StartSound(t, c);
      case ClaimNext(c) => ClaimSound(t, c);
      case CompleteNode(c, r, v, e) => CompleteSound(t, c, r, v, e);
      case NewTask(c, r, base) => CreateTaskSound(t, c, r, base);
      case BeginTask(c, r, base) => StartTaskSound(t, c, r, base);
      case EndTask(c, r, target, e, w) => FinishTaskSound(t, c, r, target, e, w);
      case CaptureChange(_, _, _, _, _, _) => ChangeSetSound(t, x);
      case MoveChangeSet(_, _, _, _, _) => ChangeSetSound(t, x);
      case AwaitApproval(c, r, a) => EnterWaitingSound(t, c, r, a);
      case AwaitPrivilege(c, r, a, w) => PrepareRetrySound(t, c, r, a, w);
      case NewApproval(_, _, _) => ApprovalSound(t, x);
      case RenewApproval(_, _, _, _, _, _) => ApprovalSound(t, x);
      case DecideApproval(c, d, ttl) => DecideSound(t, c, d, ttl);
      case ExpireApprovals(_, _) => ApprovalSound(t, x);
      case NewRequest(_, _, _, _) => RequestSound(t, x);
      case NewRequestAndApproval(_, _, _, _, _, _) => RequestSound(t, x);
      case FindGrant(_, _, _) => GrantSound(t, x);
      case ConsumeGrant(_, _, _, _, _, _) => GrantSound(t, x);
      case StartMerge(_, _, _) => MergeFlagSound(t, x);
      case AbandonMerge(_, _, _) => MergeFlagSound(t, x);
      case CommitMerge(_, _, _, _, _) => ChangeSetSound(t, x);
      case CancelRun(_, _, _, _) => GrantSound(t, x);
      case OrphanRun(c, nodes, only) => OrphanSound(t, c, nodes, only);
      case _ => LeaseSound(t, x);
    }
  }

  lemma CreatedAudited(t: Tables)
    requires Created(t)
    ensures Audited(t)
  {
    var none: seq<Entry> := [];
    var x := Entry(1, t.master.value.token, RunCreated(RunStatus.Pending));
    assert t.log == none + [x];
    TellSnoc(none, x);
    forall r ensures TellNode(t.log, r) == At(NodeNow(t.nodes, r)) { assert TellNode(none, r).At?; }
    forall a ensures TellApproval(t.log, a) == ApprovalNow(t.approvals, a) { assert TellApproval(none, a).Absent?; }
    assert TellRun(none).Absent?;
  }

  lemma CreatedSound(t: Tables)
    requires Created(t)
    ensures Sound(t)
  {
    hide Consistent;
    CreatedAudited(t);
  }

  /** The invariant of every run: it holds after any sequence of steps. */
  lemma {:induction false} RunSound(t: Tables, steps: seq<Action>)
    requires Created(t) && AllProper(t, steps)
    ensures Sound(Trace(t, steps))
  {
    hide Sound, Created, Proper, After;
    if steps == [] {
      CreatedSound(t);
    } else {
      var init, x := steps[..|steps| - 1], steps[|steps| - 1];
      forall i | 0 <= i < |init| ensures Proper(Trace(t, init[..i]), init[i]) {
        assert init[..i] == steps[..i];
        assert Proper(Trace(t, steps[..i]), steps[i]);
      }
      RunSound(t, init);
      assert Proper(Trace(t, steps[..|steps| - 1]), steps[|steps| - 1]);
      StepSound(Trace(t, init), x);
    }
  }
}
