/** What single steps can do to ChangeSets, to the session HEAD, to leases and
    to a cancelled run. */
module History {
  import opened Wrappers
  import opened Records
  import opened Leases
  import opened Scheduling
  import opened WorkflowRuns
  import opened Approvals
  import opened ChangeSets
  import opened Actions
  import opened RunInvariant
  import opened RunInvariantOfApprovals
  import opened Agreement
  import opened AgreementOnWithdrawal

  // ---------------------------------------------------------------- ChangeSet paths

  /** Every ChangeSet stays, or takes one edge of the table; a new one is born
      captured or abandoned. */
  ghost predicate Walks(was: ChangeSetRows, changes: ChangeSetRows) {
    && (forall cs | cs in was :: cs in changes && (changes[cs] == was[cs] || Allowed(was[cs], changes[cs])))
    && (forall cs | cs in changes && cs !in was :: changes[cs].Captured? || changes[cs].AbandonedPartial?)
  }

  /** Cancellation takes at most the edge to cancelled. */
  ghost predicate Withdraws(was: ChangeSetRows, changes: ChangeSetRows) {
    && changes.Keys == was.Keys
    && forall cs | cs in was :: changes[cs] == was[cs]
         || ((was[cs].PendingApproval? || was[cs].Approved?) && changes[cs].Cancelled?)
  }

  lemma {:induction false} InvalidateWithdraws(t: Tables, rows: seq<int>)
    ensures Withdraws(t.changeSets, InvalidateRows(t, rows).changeSets)
  {
    if rows != [] {
      InvalidateWithdraws(t, rows[..|rows| - 1]);
    }
  }

  lemma CancelWithdraws(t: Tables, c: Call, approvals: seq<int>, grants: seq<int>, nodes: seq<NodeRun>)
    requires Sound(t) && Cancel(t, c, approvals, grants, nodes).Ok?
    ensures Withdraws(t.changeSets, Cancel(t, c, approvals, grants, nodes).value.changeSets)
  {
    hide Core, Waits, Flags, Agrees, InvalidateRows, RevokeRows, CancelNodes, Invalidate;
    if !RunDone(t.run.status) || t.run.cancelRequested {
      InvalidateWithdraws(t, approvals);
      WithdrawnQuiet(t, approvals, grants);
      var i := InvalidateRows(t, approvals);
      InvalidateRowsSound(t, approvals);
      WithdrawAgrees(i);
      SoundKept(WithdrawChangeSets(i));
      RevokeRowsKept(WithdrawChangeSets(i), grants);
      var w := RevokeRows(WithdrawChangeSets(i), grants);
      SoundKept(w);
      if !RunDone(t.run.status) { CancelNodesKept(w, nodes); }
    }
  }

  lemma {:induction false} ExpiryKeepsChanges(t: Tables, rows: seq<int>)
    requires Sound(t) && ExpireRows(t, rows).Ok?
    ensures ExpireRows(t, rows).value.changeSets == t.changeSets
  {
    hide RunKept, Agrees, RejectPrivilegeIn;
    if rows != [] {
      ExpireRowsSound(t, rows[..|rows| - 1]);
      ExpiryKeepsChanges(t, rows[..|rows| - 1]);
      ExpireOneKeepsChanges(ExpireRows(t, rows[..|rows| - 1]).value, rows[|rows| - 1]);
    }
  }

  lemma ExpireOneKeepsChanges(t: Tables, a: int)
    requires Sound(t) && ExpireOne(t, a).Ok?
    ensures ExpireOne(t, a).value.changeSets == t.changeSets
  {
    hide Core, Waits, Flags, Agrees, RejectPrivilegeIn;
    var row := t.approvals[a];
    if row.subject.OfRequest? && Asking(t, row.subject.request) {
      var q := row.subject.request;
      var node := t.requests[q].node;
      var ended := Log(t.(requests := t.requests[q := t.requests[q].(status := RequestStatus.Expired)]),
                       RequestMoved(q, Some(t.requests[q].status), RequestStatus.Expired));
      RequestLogKept(t, ended.requests, RequestMoved(q, Some(t.requests[q].status), RequestStatus.Expired));
      if RejectPrivilegeIn(ended, node).Ok? { RejectPrivilegeKept(ended, node); }
    }
  }

  lemma DecideWalks(t: Tables, c: Call, d: Decision, ttl: nat)
    requires Sound(t) && Decide(t, c, d, ttl).Ok?
    ensures Walks(t.changeSets, Decide(t, c, d, ttl).value.changeSets)
  {
    hide Core, Waits, Flags, Agrees, ApproveRequest, RejectPrivilegeIn, ResumeIn;
    var row := t.approvals[d.approval];
    if !Replays(row, d) {
      match row.subject
      case OfChangeSet(cs) =>
        var next := if d.target.Approved? then ChangeSetStatus.Approved else ChangeSetStatus.Rejected;
        var moved := t.changeSets[cs := next];
        SoundKept(t);
        AgreementOnDecisions.MovedKept(t, moved);
        ResumeKept(t.(changeSets := moved), row.node, d.target.Approved?);
      case OfRequest(q) =>
        SoundKept(t);
        if d.target.Approved? {
          AgreesBound(t);
          ApproveRequestLeaves(t, q, row, c.now + ttl);
        } else {
          SetRequestKept(t, q, RequestStatus.Rejected);
          RejectPrivilegeKept(SetRequest(t, q, RequestStatus.Rejected), row.node);
        }
    }
  }

  /** Steps of the run repository other than merging leave every ChangeSet alone. */
  lemma RunStepWalks(t: Tables, x: Action)
    requires RunStep(t, x).Ok? && !x.CommitMerge?
    ensures RunStep(t, x).value.changeSets == t.changeSets
  {
    hide Start, Claim, Complete, EnterWaiting, PrepareRetry, BeginMerge, ClearMerge, FinalizeMerge, Orphan;
  }

  lemma NewStepWalks(t: Tables, x: Action)
    requires Sound(t) && BookStep(t, x).Ok?
    requires !x.DecideApproval? && !x.ExpireApprovals? && !x.CancelRun?
    ensures Walks(t.changeSets, BookStep(t, x).value.changeSets)
  {
    hide Sound, ActivateIn, CreateGrant, InsertOrFind, RequestCheck;
    match x
    case NewApproval(_, a, row) => InsertWalks(t, a, row);
    case NewRequestAndApproval(c, q, request, w, a, row) => InsertWalks(CreateRequest(t, c, q, request, w).value, a, row);
    case FindGrant(c, q, grant) => CreateGrantIdle(t, c, q, grant);
    case _ =>
  }

  lemma InsertWalks(t: Tables, a: int, row: ApprovalRow)
    requires InsertOrFind(t, a, row).Ok?
    ensures Walks(t.changeSets, InsertOrFind(t, a, row).value.changeSets)
  {
  }

  lemma TaskStepWalks(t: Tables, x: Action)
    requires TaskStep(t, x).Ok?
    ensures Walks(t.changeSets, TaskStep(t, x).value.changeSets)
  {
    hide IsWrite, FenceCheck;
  }

  lemma LeaseStepWalks(t: Tables, x: Action)
    requires LeaseStep(t, x).Ok?
    ensures LeaseStep(t, x).value.changeSets == t.changeSets
  {
    hide AcquireMaster, BeatMaster, ReleaseMaster, AcquireLock, BeatLock, ReleaseLock;
  }

  /** Every ChangeSet history, from all writers, is a path in the table. */
  lemma StepWalks(t: Tables, x: Action)
    requires Sound(t) && Proper(t, x)
    ensures Walks(t.changeSets, After(t, x).changeSets)
  {
    hide Sound, LeaseStep, BookStep, TaskStep, RunStep;
    if Do(t, x).Ok? {
      if OnLeases(x) { LeaseStepWalks(t, x); }
      else if OnBooks(x) { BookWalks(t, x); }
      else if OnTasks(x) { TaskStepWalks(t, x); }
      else if x.CommitMerge? { CommitWalks(t, x); }
      else { RunStepWalks(t, x); }
    }
  }

  lemma CommitWalks(t: Tables, x: Action)
    requires Sound(t) && x.CommitMerge? && RunStep(t, x).Ok?
    ensures Walks(t.changeSets, RunStep(t, x).value.changeSets)
  {
    hide Sound, FinalizeMerge;
    MergeWalks(t, x.c, x.r, x.cs, x.commit, x.w);
  }

  lemma BookWalks(t: Tables, x: Action)
    requires Sound(t) && BookStep(t, x).Ok?
    ensures Walks(t.changeSets, BookStep(t, x).value.changeSets)
  {
    hide Sound, Decide, Cancel, ExpireRows, CreateApproval, Renew, CreateRequest, CreateRequestAndApproval, CreateGrant, Consume;
    match x
    case DecideApproval(c, d, ttl) => DecideWalks(t, c, d, ttl);
    case ExpireApprovals(c, rows) => ExpiryKeepsChanges(t, rows);
    case CancelRun(c, approvals, grants, nodes) => CancelWithdraws(t, c, approvals, grants, nodes);
    case _ => NewStepWalks(t, x);
  }

  lemma MergeWalks(t: Tables, c: Call, r: NodeRun, cs: NodeRun, commit: int, w: WorkLease)
    requires Sound(t) && FinalizeMerge(t, c, r, cs, commit, w).Ok?
    ensures Walks(t.changeSets, FinalizeMerge(t, c, r, cs, commit, w).value.changeSets)
    ensures t.head == t.run.commit && t.run.mergeFinalizing && !t.run.cancelRequested && t.run.status.Running?
    ensures var u := FinalizeMerge(t, c, r, cs, commit, w).value;
      u.head == commit == u.run.commit && !u.run.mergeFinalizing
      && cs in t.changeSets && t.changeSets[cs].Approved? && u.changeSets[cs].Merged?
  {
    hide Core, Waits, Flags, Agrees, Reconciled;
    SoundKept(t);
    FinalizeMergeKept(t, c, r, cs, commit, w);
    MergeClears(t, c, r, cs, commit, w);
  }

  lemma MergeClears(t: Tables, c: Call, r: NodeRun, cs: NodeRun, commit: int, w: WorkLease)
    requires FinalizeMerge(t, c, r, cs, commit, w).Ok?
    ensures !FinalizeMerge(t, c, r, cs, commit, w).value.run.mergeFinalizing
  {
  }

  // ---------------------------------------------------------------- the session HEAD

  /** The HEAD moves only by a merge whose run's commit equalled it, and then
      the two move together; or by another run once this one is over. */
  lemma HeadMovesByMerge(t: Tables, x: Action)
    requires Sound(t) && Proper(t, x) && After(t, x).head != t.head
    ensures x.CommitMerge? || (x.OtherRunMerges? && Inactive(t.run.status))
    ensures x.CommitMerge? ==>
      && t.head == t.run.commit && After(t, x).head == After(t, x).run.commit == x.commit
      && t.run.status.Running? && t.run.mergeFinalizing && !t.run.cancelRequested
      && x.cs in t.changeSets && t.changeSets[x.cs].Approved?
      && x.cs in After(t, x).changeSets && After(t, x).changeSets[x.cs].Merged?
  {
    hide RunKept, Agrees, FinalizeMerge, BookStep, TaskStep;
    StepFramed(t, x);
    if x.CommitMerge? { MergeWalks(t, x.c, x.r, x.cs, x.commit, x.w); }
  }

  // ---------------------------------------------------------------- the compiled graph and the leases

  /** No step touches the compiled graph; only lease steps write lease rows. */
  lemma StepFramed(t: Tables, x: Action)
    ensures After(t, x).graph == t.graph
    ensures !x.CommitMerge? && !x.OtherRunMerges? ==> After(t, x).head == t.head
    ensures !OnLeases(x) ==> After(t, x).master == t.master && After(t, x).lock == t.lock
  {
    hide LeaseStep, BookStep, TaskStep, RunStep;
    if Do(t, x).Ok? {
      if OnLeases(x) { LeasesFramed(t, x); }
      else if OnBooks(x) { BooksFramed(t, x); }
      else if OnTasks(x) { TasksFramed(t, x); }
      else { RunsFramed(t, x); }
    }
  }

  lemma LeasesFramed(t: Tables, x: Action)
    requires LeaseStep(t, x).Ok?
    ensures LeaseStep(t, x).value.graph == t.graph && (x.OtherRunMerges? || LeaseStep(t, x).value.head == t.head)
  {
    hide AcquireMaster, BeatMaster, ReleaseMaster, AcquireLock, BeatLock, ReleaseLock;
  }

  lemma BooksFramed(t: Tables, x: Action)
    requires BookStep(t, x).Ok?
    ensures Framed(t, BookStep(t, x).value)
  {
    hide CreateApproval, Renew, Decide, ExpireDue, CreateRequest, CreateRequestAndApproval, CreateGrant, Consume, Cancel;
  }

  lemma TasksFramed(t: Tables, x: Action)
    requires TaskStep(t, x).Ok?
    ensures Framed(t, TaskStep(t, x).value) && Unmoved(t, TaskStep(t, x).value)
  {
    hide CreateTask, StartTask, FinishTask, Capture, Transition;
  }

  lemma RunsFramed(t: Tables, x: Action)
    requires RunStep(t, x).Ok?
    ensures Framed(t, if x.CommitMerge? then RunStep(t, x).value.(head := t.head) else RunStep(t, x).value)
  {
    hide Start, Claim, Complete, EnterWaiting, PrepareRetry, BeginMerge, ClearMerge, FinalizeMerge, Orphan;
  }
}
