/** Statements about the order of things over a run: what cancellation freezes,
    how fencing tokens order their holders, and the workspace window. */
module Timelines {
  import opened Wrappers
  import opened Records
  import opened Leases
  import opened Scheduling
  import opened Meaning
  import opened WorkflowRuns
  import opened Approvals
  import opened Actions
  import opened Audit
  import opened RunInvariant
  import opened RunInvariantOfApprovals
  import opened Agreement
  import opened AgreementOnWithdrawal
  import opened Invariance
  import opened History

  // ---------------------------------------------------------------- prefixes of a run

  lemma PrefixProper(t: Tables, steps: seq<Action>, k: nat)
    requires AllProper(t, steps) && k <= |steps|
    ensures AllProper(t, steps[..k])
  {
    forall i | 0 <= i < k ensures Proper(Trace(t, steps[..k][..i]), steps[..k][i]) {
      assert steps[..k][..i] == steps[..i];
      assert Proper(Trace(t, steps[..i]), steps[i]);
    }
  }

  lemma PrefixSound(t: Tables, steps: seq<Action>, k: nat)
    requires Created(t) && AllProper(t, steps) && k <= |steps|
    ensures Sound(Trace(t, steps[..k]))
    ensures k < |steps| ==> Proper(Trace(t, steps[..k]), steps[k]) && Trace(t, steps[..k + 1]) == After(Trace(t, steps[..k]), steps[k])
  {
    hide Created, Sound, Proper, After;
    PrefixProper(t, steps, k);
    RunSound(t, steps[..k]);
    if k < |steps| {
      assert steps[..k + 1][..k] == steps[..k];
    }
  }

  // ---------------------------------------------------------------- cancellation

  lemma {:induction false} NothingToExpire(t: Tables, c: Call, rows: seq<int>)
    requires Agrees(t) && t.run.status.Cancelled? && ExpireDue(t, c, rows).Ok?
    ensures ExpireDue(t, c, rows).value == t
  {
    hide Versioned, OnePending, ChangesAgree, RequestsAgree, LedgerAgrees, Woken, ExpireOne;
    assert forall a :: a !in DueApprovals(t, c.now);
    assert rows == [] by { assert forall i | 0 <= i < |rows| :: rows[i] in rows; }
  }

  /** A step on a cancelled run changes neither its status nor its nodes. */
  lemma CancelledStep(t: Tables, x: Action)
    requires Sound(t) && Proper(t, x) && t.run.status.Cancelled?
    ensures Unmoved(t, After(t, x))
  {
    hide Sound, Proper, LeaseStep, BookStep, TaskStep, RunStep, Unmoved;
    CancelledFlag(t);
    if Do(t, x).Err? { assert Unmoved(t, t) by { IdleUnmoved(t); } }
    else if OnLeases(x) { LeasesUnmoved(t, x); }
    else if OnBooks(x) { CancelledBooks(t, x); }
    else if OnTasks(x) { TasksFramed(t, x); }
    else { CancelledRuns(t, x); }
  }

  lemma IdleUnmoved(t: Tables)
    ensures Unmoved(t, t)
  {
  }

  lemma LeasesUnmoved(t: Tables, x: Action)
    requires LeaseStep(t, x).Ok?
    ensures Unmoved(t, LeaseStep(t, x).value)
  {
    hide AcquireMaster, BeatMaster, ReleaseMaster, AcquireLock, BeatLock, ReleaseLock;
  }

  lemma CancelledBooks(t: Tables, x: Action)
    requires Sound(t) && t.run.status.Cancelled? && t.run.cancelRequested && BookStep(t, x).Ok?
    ensures Unmoved(t, BookStep(t, x).value)
  {
    hide RunKept, Agrees, CreateApproval, Renew, CreateRequest, CreateRequestAndApproval, Consume, Cancel, ExpireDue, CreateGrant, Decide;
    match x
    case ExpireApprovals(c, rows) => SoundAgrees(t); NothingToExpire(t, c, rows);
    case FindGrant(c, q, grant) => CreateGrantIdle(t, c, q, grant);
    case CancelRun(c, approvals, grants, nodes) => CancelAgain(t, c, approvals, grants, nodes);
    case DecideApproval(c, d, ttl) => OnlyReplays(t, c, d, ttl);
    case _ =>
  }

  lemma OnlyReplays(t: Tables, c: Call, d: Decision, ttl: nat)
    requires t.run.cancelRequested && Decide(t, c, d, ttl).Ok?
    ensures Unmoved(t, Decide(t, c, d, ttl).value)
  {
    hide ApproveRequest, RejectRequest, DecideChangeSet, Replay;
  }

  lemma CancelledRuns(t: Tables, x: Action)
    requires t.run.status.Cancelled? && t.run.cancelRequested && RunStep(t, x).Ok?
    ensures Unmoved(t, RunStep(t, x).value)
  {
    hide WriteCheck, MayRetry, ResumeIn, Reconciled, BeginMerge, ClearMerge;
  }

  lemma SoundAgrees(t: Tables)
    requires Sound(t)
    ensures Agrees(t)
  {
  }

  lemma CancelledFlag(t: Tables)
    requires Sound(t)
    ensures t.run.cancelRequested <==> t.run.status.Cancelled?
  {
    hide Core, Waits, Agrees;
  }

  lemma CancelAgain(t: Tables, c: Call, approvals: seq<int>, grants: seq<int>, nodes: seq<NodeRun>)
    requires Sound(t) && t.run.status.Cancelled? && Cancel(t, c, approvals, grants, nodes).Ok?
    ensures Unmoved(t, Cancel(t, c, approvals, grants, nodes).value)
  {
    hide RunKept, Agrees, InvalidateRows, RevokeRows;
    CancelledFlag(t);
    WithdrawnQuiet(t, approvals, grants);
  }

  /** Once cancelled, a run stays so to the end of any history: same nodes, no
      pending approval, no live grant, no ChangeSet awaiting or holding approval;
      and none of its own steps moves the HEAD. */
  lemma {:induction false} CancelledForGood(t: Tables, steps: seq<Action>, i: nat, j: nat)
    requires Created(t) && AllProper(t, steps) && i <= j <= |steps|
    requires Trace(t, steps[..i]).run.status.Cancelled?
    ensures var was, now := Trace(t, steps[..i]), Trace(t, steps[..j]);
      && now.run.status.Cancelled? && now.nodes == was.nodes
      && (forall a | a in now.approvals :: !now.approvals[a].status.Pending?)
      && (forall q | q in now.grants :: !Live(now.grants[q]))
      && (forall cs | cs in now.changeSets :: !now.changeSets[cs].PendingApproval? && !now.changeSets[cs].Approved?)
      && ((forall k | i <= k < j :: !steps[k].OtherRunMerges?) ==> now.head == was.head)
    decreases j
  {
    hide Created, AllProper, Trace, RunKept, Versioned, OnePending, ChangesAgree, RequestsAgree, LedgerAgrees, Woken, After, Proper;
    if i < j {
      CancelledForGood(t, steps, i, j - 1);
      PrefixSound(t, steps, j - 1);
      CancelledStep(Trace(t, steps[..j - 1]), steps[j - 1]);
      if !steps[j - 1].OtherRunMerges? { CancelledKeepsHead(Trace(t, steps[..j - 1]), steps[j - 1]); }
    }
    PrefixSound(t, steps, j);
  }

  lemma CancelledKeepsHead(t: Tables, x: Action)
    requires Sound(t) && Proper(t, x) && t.run.status.Cancelled? && !x.OtherRunMerges?
    ensures After(t, x).head == t.head
  {
    hide RunKept, Agrees, Decide, Cancel, Do;
    if After(t, x).head != t.head { HeadMovesByMerge(t, x); }
  }

  /** A request to cancel and a merge being finalized never coexist. */
  lemma CancelOrMerge(t: Tables, steps: seq<Action>)
    requires Created(t) && AllProper(t, steps)
    ensures !(Trace(t, steps).run.cancelRequested && Trace(t, steps).run.mergeFinalizing)
  {
    hide Created, AllProper, Trace, Core, Waits, Agrees;
    RunSound(t, steps);
  }

  // ---------------------------------------------------------------- decisions

  /** No approval that has ended leaves or changes its status again. */
  ghost predicate Settled(was: ApprovalRows, now: ApprovalRows) {
    forall a | a in was && !was[a].status.Pending? ::
      a in now && now[a].status == was[a].status && now[a].version == was[a].version && now[a].subject == was[a].subject
  }

  lemma RunStepApprovals(t: Tables, x: Action)
    requires RunStep(t, x).Ok?
    ensures RunStep(t, x).value.approvals == t.approvals
  {
    hide Start, Claim, Complete, EnterWaiting, PrepareRetry, BeginMerge, ClearMerge, Passes, FinalStatus, Orphan;
  }

  lemma TaskStepApprovals(t: Tables, x: Action)
    requires TaskStep(t, x).Ok?
    ensures TaskStep(t, x).value.approvals == t.approvals
  {
    hide CreateTask, StartTask, FinishTask, IsWrite;
  }

  lemma LeaseStepApprovals(t: Tables, x: Action)
    requires LeaseStep(t, x).Ok?
    ensures LeaseStep(t, x).value.approvals == t.approvals
  {
    hide AcquireMaster, BeatMaster, ReleaseMaster, AcquireLock, BeatLock, ReleaseLock;
  }

  lemma {:induction false} ExpirySettled(t: Tables, rows: seq<int>)
    requires Sound(t) && ExpireRows(t, rows).Ok?
    ensures Settled(t.approvals, ExpireRows(t, rows).value.approvals)
  {
    hide RunKept, Agrees, ExpireOne;
    if rows != [] {
      var init := rows[..|rows| - 1];
      ExpirySettled(t, init);
      ExpireRowsSound(t, init);
      var mid := ExpireRows(t, init).value;
      SoundKept(mid);
      ExpireOneKept(mid, rows[|rows| - 1]);
      assert mid.approvals[rows[|rows| - 1]].status.Pending? by { ExpiresPending(mid, rows[|rows| - 1]); }
    }
  }

  lemma ExpiresPending(t: Tables, a: int)
    requires ExpireOne(t, a).Ok?
    ensures a in t.approvals && t.approvals[a].status.Pending?
  {
    hide RejectPrivilegeIn;
  }

  lemma CancelSettled(t: Tables, c: Call, approvals: seq<int>, grants: seq<int>, nodes: seq<NodeRun>)
    requires Sound(t) && Cancel(t, c, approvals, grants, nodes).Ok?
    ensures Settled(t.approvals, Cancel(t, c, approvals, grants, nodes).value.approvals)
  {
    hide RunKept, Agrees, InvalidateRows, RevokeRows, CancelNodes;
    if !RunDone(t.run.status) || t.run.cancelRequested {
      forall a | a in approvals ensures a in Undecided(t) {}
      InvalidateRowsSound(t, approvals);
      var i := InvalidateRows(t, approvals);
      WithdrawAgrees(i);
      SoundKept(WithdrawChangeSets(i));
      RevokeRowsKept(WithdrawChangeSets(i), grants);
    }
  }

  lemma DecideSettled(t: Tables, c: Call, d: Decision, ttl: nat)
    requires Decide(t, c, d, ttl).Ok?
    ensures Settled(t.approvals, Decide(t, c, d, ttl).value.approvals)
  {
    hide DecideChangeSet, ApproveRequest, RejectRequest;
  }

  lemma InsertSettled(t: Tables, a: int, row: ApprovalRow)
    requires InsertOrFind(t, a, row).Ok?
    ensures Settled(t.approvals, InsertOrFind(t, a, row).value.approvals)
  {
  }

  lemma NewSettled(t: Tables, x: Action)
    requires BookStep(t, x).Ok? && (x.NewApproval? || x.RenewApproval? || x.NewRequest? || x.NewRequestAndApproval? || x.ConsumeGrant?)
    ensures Settled(t.approvals, BookStep(t, x).value.approvals)
  {
    hide RequestCheck, InsertOrFind;
    match x
    case NewApproval(_, a, row) => InsertSettled(t, a, row);
    case NewRequestAndApproval(c, q, request, w, a, row) => InsertSettled(CreateRequest(t, c, q, request, w).value, a, row);
    case _ =>
  }

  lemma BookStepSettled(t: Tables, x: Action)
    requires Sound(t) && BookStep(t, x).Ok?
    ensures Settled(t.approvals, BookStep(t, x).value.approvals)
  {
    hide Sound, Settled, CreateApproval, Renew, CreateRequest, CreateRequestAndApproval, CreateGrant, Consume, Decide, Cancel, ExpireRows;
    match x
    case FindGrant(c, q, grant) => CreateGrantIdle(t, c, q, grant); SettledSame(t.approvals);
    case CancelRun(c, approvals, grants, nodes) => CancelSettled(t, c, approvals, grants, nodes);
    case ExpireApprovals(c, rows) => ExpirySettled(t, rows);
    case DecideApproval(c, d, ttl) => DecideSettled(t, c, d, ttl);
    case _ => NewSettled(t, x);
  }

  lemma SettledSame(approvals: ApprovalRows)
    ensures Settled(approvals, approvals)
  {
  }

  lemma StepSettled(t: Tables, x: Action)
    requires Sound(t)
    ensures Settled(t.approvals, After(t, x).approvals)
  {
    hide Sound, LeaseStep, BookStep, TaskStep, RunStep;
    if Do(t, x).Ok? {
      if OnLeases(x) { LeaseStepApprovals(t, x); }
      else if OnBooks(x) { BookStepSettled(t, x); }
      else if OnTasks(x) { TaskStepApprovals(t, x); }
      else { RunStepApprovals(t, x); }
    }
  }

  /** Whatever became of an approval, decided, expired or invalidated, it stays:
      over any later steps it keeps its status and its version. */
  lemma {:induction false} DecisionLasts(t: Tables, steps: seq<Action>, i: nat, j: nat)
    requires Created(t) && AllProper(t, steps) && i <= j <= |steps|
    ensures Settled(Trace(t, steps[..i]).approvals, Trace(t, steps[..j]).approvals)
    decreases j
  {
    hide Created, AllProper, Trace, Sound, After, Proper;
    if i < j {
      DecisionLasts(t, steps, i, j - 1);
      PrefixSound(t, steps, j - 1);
      StepSettled(Trace(t, steps[..j - 1]), steps[j - 1]);
    }
  }

  // ---------------------------------------------------------------- fencing tokens

  /** The row keeps its owner until a larger token replaces it. */
  predicate LeaseOrder(was: Option<LeaseRow>, next: Option<LeaseRow>) {
    was.Some? ==>
      && next.Some? && next.value.token >= was.value.token
      && (next.value.token == was.value.token ==> next.value.owner == was.value.owner)
  }

  predicate LockOrder(was: Option<LockRow>, next: Option<LockRow>) {
    was.Some? ==>
      && next.Some? && next.value.token >= was.value.token
      && (next.value.token == was.value.token ==> next.value.holder == was.value.holder)
  }

  lemma LeaseOrdered(t: Tables, x: Action)
    ensures LeaseOrder(t.master, After(t, x).master) && LockOrder(t.lock, After(t, x).lock)
  {
    hide LeaseStep, BookStep, TaskStep, RunStep, LeaseOrder, LockOrder;
    StepFramed(t, x);
    SameRows(t.master, t.lock);
    if OnLeases(x) && Do(t, x).Ok? { LeaseRowStep(t, x); }
  }

  lemma LeaseRowStep(t: Tables, x: Action)
    requires LeaseStep(t, x).Ok?
    ensures LeaseOrder(t.master, LeaseStep(t, x).value.master) && LockOrder(t.lock, LeaseStep(t, x).value.lock)
  {
    hide AcquireMaster, BeatMaster, ReleaseMaster, AcquireLock, BeatLock, ReleaseLock, LeaseOrder, LockOrder;
    SameRows(t.master, t.lock);
    match x
    case TakeMaster(owner, span, now) => MasterRows(t.master, owner, Lease(0, 0), span, now);
    case KeepMaster(c, span) => MasterRows(t.master, 0, c.lease, span, c.now);
    case DropMaster(c) => MasterRows(t.master, 0, c.lease, 0, c.now);
    case TakeLock(holder, span, now) => LockRows(t.lock, holder, WorkLease(holder, 0), span, now);
    case KeepLock(w, span, now) => LockRows(t.lock, w.holder, w, span, now);
    case DropLock(w, now) => LockRows(t.lock, w.holder, w, 0, now);
    case _ =>
  }

  lemma SameRows(master: Option<LeaseRow>, lock: Option<LockRow>)
    ensures LeaseOrder(master, master) && LockOrder(lock, lock)
  {
  }

  lemma MasterRows(row: Option<LeaseRow>, owner: int, l: Lease, span: int, now: int)
    ensures var a := AcquireMaster(row, owner, span, now); a.Ok? ==> LeaseOrder(row, Some(a.value))
    ensures var a := BeatMaster(row, l, span, now); a.Ok? ==> LeaseOrder(row, Some(a.value))
    ensures var a := ReleaseMaster(row, l, now); a.Ok? ==> LeaseOrder(row, Some(a.value))
  {
  }

  lemma LockRows(row: Option<LockRow>, holder: Holder, w: WorkLease, span: int, now: int)
    ensures var a := AcquireLock(row, holder, span, now); a.Ok? ==> LockOrder(row, Some(a.value))
    ensures var a := BeatLock(row, w, span, now); a.Ok? ==> LockOrder(row, Some(a.value))
    ensures var a := ReleaseLock(row, w, now); a.Ok? ==> LockOrder(row, Some(a.value))
  {
  }

  /** Tokens never fall, and one token has one owner for ever. */
  lemma {:induction false} TokensOrdered(t: Tables, steps: seq<Action>, i: nat, j: nat)
    requires Created(t) && AllProper(t, steps) && i <= j <= |steps|
    ensures LeaseOrder(Trace(t, steps[..i]).master, Trace(t, steps[..j]).master)
    ensures LockOrder(Trace(t, steps[..i]).lock, Trace(t, steps[..j]).lock)
    decreases j
  {
    hide Created, AllProper, Trace, Sound, After, Proper;
    if i < j {
      TokensOrdered(t, steps, i, j - 1);
      PrefixSound(t, steps, j - 1);
      LeaseOrdered(Trace(t, steps[..j - 1]), steps[j - 1]);
    }
  }

  /** Once a newer token is issued, an older lease never passes again, whatever
      the clock reads: no validity check, no heartbeat, no release. */
  lemma StaleForGood(t: Tables, steps: seq<Action>, i: nat, j: nat, l: Lease, w: WorkLease, span: int, now: int)
    requires Created(t) && AllProper(t, steps) && i <= j <= |steps|
    ensures var was, later := Trace(t, steps[..i]), Trace(t, steps[..j]);
      && (l.token < MasterToken(was) ==>
            !MasterValid(later.master, l, now) && BeatMaster(later.master, l, span, now).Err? && ReleaseMaster(later.master, l, now).Err?)
      && (w.token < LockToken(was) ==>
            !LockValid(later.lock, w, now) && BeatLock(later.lock, w, span, now).Err? && ReleaseLock(later.lock, w, now).Err?)
  {
    hide Created, AllProper, Trace;
    TokensOrdered(t, steps, i, j);
  }

  // ---------------------------------------------------------------- the workspace window

  /** If a write node is accepted as completed, then from the moment its task's
      terminal event was in the log up to that completion the workspace lock
      carried one token, that of the event: nobody took it in between. */
  lemma WorkspaceWindow(t: Tables, steps: seq<Action>, i: nat, m: nat, j: nat, c: Call, r: NodeRun, v: Verdict, hasError: bool)
    requires Created(t) && AllProper(t, steps) && i <= m <= j <= |steps|
    requires IsWrite(Trace(t, steps[..j]).graph, r) && v.status.Completed?
    requires Complete(Trace(t, steps[..j]), c, r, v, hasError).Ok?
    requires var e := LastTaskEvent(Trace(t, steps[..j]).log, r);
      e.Some? && exists p :: 0 <= p < |Trace(t, steps[..i]).log| && Trace(t, steps[..i]).log[p].event == e.value
    ensures var end, between := Trace(t, steps[..j]), Trace(t, steps[..m]);
      && end.tasks[r].status.Succeeded? && end.changeSets[r].Captured?
      && between.lock.Some? && between.lock.value.holder == end.lock.value.holder && between.lock.value.holder.operation == TaskOf(r)
      && Some(LockToken(between)) == LastTaskEvent(end.log, r).value.fence
  {
    hide Created, AllProper, Trace, Waits, Flags, Agrees, Compiled, Rowed, NodesTold, ApprovalsTold, TellRun, Numbered;
    PrefixSound(t, steps, i);
    TokensOrdered(t, steps, i, m);
    TokensOrdered(t, steps, m, j);
    var was := Trace(t, steps[..i]);
    var p :| 0 <= p < |was.log| && was.log[p].event == LastTaskEvent(Trace(t, steps[..j]).log, r).value;
    assert Rightful(was.log[p].event, LockToken(was));
    PrefixSound(t, steps, j);
  }
}
