/** ChangeSet life cycle: the transition table, capture, and the fenced
    transition used for guard, test, policy and staleness verdicts. */
module ChangeSets {
  import opened Wrappers
  import opened Records
  import opened Leases
  import opened WorkflowRuns

  /** The transition table every ChangeSet history has to follow. */
  predicate Allowed(was: ChangeSetStatus, next: ChangeSetStatus) {
    match was
    case Captured => next.GuardPassed? || next.GuardRejected? || next.AbandonedPartial? || next.Quarantined? || next.Cancelled?
    case GuardPassed => next.TestPassed? || next.TestFailed? || next.Stale? || next.Cancelled?
    case TestPassed => next.PendingApproval? || next.PolicyRejected? || next.Stale? || next.Cancelled?
    case PendingApproval => next.Approved? || next.Rejected? || next.Stale? || next.Cancelled?
    case Approved => next.Merged? || next.Stale? || next.Cancelled?
    case _ => false
  }

  /** Edges left to the approval, merge and cancellation steps. */
  predicate Reserved(next: ChangeSetStatus) {
    next.PendingApproval? || next.Approved? || next.Rejected? || next.Merged? || next.Cancelled?
  }

  function Capture(t: Tables, c: Call, r: NodeRun, status: ChangeSetStatus, target: TaskStatus, hasError: bool,
      w: WorkLease): (after: Result<Tables>)
    ensures after.Ok? ==> Framed(t, after.value) && Unmoved(t, after.value)
  {
    var valid := !target.Pending? && !target.Running?;
    :- Need(valid, Fault.Invalid);
    :- Need(if target.Succeeded? then status.Captured? && !hasError else status.AbandonedPartial? && hasError, Fault.Invalid);
    :- Need(MasterValid(t.master, c.lease, c.now) && LockValid(t.lock, w, c.now), Fault.LeaseLost);
    :- Need(Bound(w, r), Fault.Integrity);
    :- Need(r in t.tasks && r in t.nodes, Fault.NotFound);
    :- Need(t.tasks[r].status.Running? && t.nodes[r].status.Running? && t.run.status.Running?
            && t.tasks[r].base == t.run.commit, Fault.Integrity);
    :- Need(!t.run.cancelRequested, Fault.Conflict);
    :- Need(IsWrite(t.graph, r), Fault.Integrity);
    :- Need(r !in t.changeSets, Fault.Conflict);
    var captured := Log(t.(changeSets := t.changeSets[r := status]), ChangeSetMoved(r, None, status));
    Ok(MoveTask(captured, r, Some(TaskStatus.Running), t.tasks[r].(status := target), Some(w.token)))
  }

  function Transition(t: Tables, c: Call, r: NodeRun, was: ChangeSetStatus, next: ChangeSetStatus,
      w: Option<WorkLease>): (after: Result<Tables>)
    ensures after.Ok? ==> Framed(t, after.value) && Unmoved(t, after.value)
  {
    var valid := Allowed(was, next);
    :- Need(valid, Fault.Invalid);
    :- Need(MasterValid(t.master, c.lease, c.now), Fault.LeaseLost);
    :- Need(r in t.changeSets, Fault.NotFound);
    :- Need(w.Some? ==> LockValid(t.lock, w.value, c.now), Fault.LeaseLost);
    :- Need(t.changeSets[r] == was, Fault.Conflict);
    Ok(Log(t.(changeSets := t.changeSets[r := next]), ChangeSetMoved(r, Some(was), next)))
  }
}
