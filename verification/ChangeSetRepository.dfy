/** The ChangeSet repository: capture and fenced transitions over the store. */
module ChangeSetRepository {
  import opened Wrappers
  import opened Records
  import opened Leases
  import opened WorkflowRuns
  import opened ChangeSets
  import opened Database
  import opened Effects

  class ChangeSetRepository {
    const store: Store

    constructor (s: Store)
      ensures store == s
    {
      store := s;
    }

    /** Stores a capture and finishes its task, under both leases. */
    method PersistCapture(c: Call, r: NodeRun, status: ChangeSetStatus, target: TaskStatus, hasError: bool, w: WorkLease)
      returns (fault: Option<Fault>)
      modifies store
      ensures Executes(old(store.tables), store.tables, Capture(old(store.tables), c, r, status, target, hasError, w), fault)
      ensures fault.None? ==> Captures(old(store.tables), store.tables, r, status, target)
    {
      hide Captures;
      var t := store.tables;
      if target.Pending? || target.Running? { return Some(Fault.Invalid); }
      if target.Succeeded? {
        if !status.Captured? || hasError { return Some(Fault.Invalid); }
      } else if !status.AbandonedPartial? || !hasError {
        return Some(Fault.Invalid);
      }
      if !MasterValid(t.master, c.lease, c.now) || !LockValid(t.lock, w, c.now) { return Some(Fault.LeaseLost); }
      if !Bound(w, r) { return Some(Fault.Integrity); }
      if r !in t.tasks || r !in t.nodes { return Some(Fault.NotFound); }
      if !t.tasks[r].status.Running? || !t.nodes[r].status.Running? || !t.run.status.Running? || t.tasks[r].base != t.run.commit {
        return Some(Fault.Integrity);
      }
      if t.run.cancelRequested { return Some(Fault.Conflict); }
      if !IsWrite(t.graph, r) { return Some(Fault.Integrity); }
      if r in t.changeSets { return Some(Fault.Conflict); }
      store.tables := store.tables.(changeSets := store.tables.changeSets[r := status]);
      store.Append(ChangeSetMoved(r, None, status));
      FinishTaskIn(r, target, w);
      CaptureEnds(t, c, r, status, target, hasError, w);
      fault := None;
    }

    method FinishTaskIn(r: NodeRun, target: TaskStatus, w: WorkLease)
      requires r in store.tables.tasks && store.tables.tasks[r].status.Running?
      modifies store
      ensures store.tables ==
        MoveTask(old(store.tables), r, Some(TaskStatus.Running), old(store.tables).tasks[r].(status := target), Some(w.token))
    {
      var changed := store.UpdateTask(r, TaskStatus.Running, target);
      assert changed == 1;
      store.Append(TaskMoved(r, Some(TaskStatus.Running), target, Some(w.token)));
    }

    method Transition(c: Call, r: NodeRun, was: ChangeSetStatus, next: ChangeSetStatus, w: Option<WorkLease>) returns (fault: Option<Fault>)
      modifies store
      ensures Executes(old(store.tables), store.tables, ChangeSets.Transition(old(store.tables), c, r, was, next, w), fault)
    {
      if !Allowed(was, next) { return Some(Fault.Invalid); }
      if !MasterValid(store.tables.master, c.lease, c.now) { return Some(Fault.LeaseLost); }
      if r !in store.tables.changeSets { return Some(Fault.NotFound); }
      if w.Some? && !LockValid(store.tables.lock, w.value, c.now) { return Some(Fault.LeaseLost); }
      var changed := store.UpdateChangeSet(r, {was}, next);
      if changed != 1 { return Some(Fault.Conflict); }
      store.Append(ChangeSetMoved(r, Some(was), next));
      fault := None;
    }
  }
}
