/** The lease repositories: one row each, changed in place under fencing checks. */
module LeaseRepository {
  import opened Wrappers
  import opened Records
  import opened Leases
  import opened Actions
  import opened Database

  class MasterLeaseRepository {
    const store: Store

    constructor (s: Store)
      ensures store == s
    {
      store := s;
    }

    method Acquire(owner: int, span: int, now: int) returns (fault: Option<Fault>, lease: Lease)
      modifies store
      ensures Executes(old(store.tables), store.tables, OnMaster(old(store.tables), AcquireMaster(old(store.tables).master, owner, span, now)), fault)
      ensures fault.None? ==> lease.owner == owner
      ensures fault.None? ==> forall l, later :: MasterValid(store.tables.master, l, later) <==> l == lease && later < now + span
      ensures fault.None? ==> var was := old(store.tables).master;
        lease.token == if was.None? then 1 else if was.value.expires > now then was.value.token else was.value.token + 1
      ensures fault == Some(Fault.Invalid) <==> span < 1
      ensures span >= 1 ==>
        (fault == Some(Fault.LeaseUnavailable) <==> exists l :: MasterValid(old(store.tables).master, l, now) && l.owner != owner)
    {
      lease := Lease(owner, 0);
      if span < 1 { return Some(Fault.Invalid), lease; }
      var row := store.tables.master;
      assert row.Some? && row.value.expires > now ==> MasterValid(row, Lease(row.value.owner, row.value.token), now);
      var next: LeaseRow;
      if row.None? {
        next := LeaseRow(owner, 1, now + span);
      } else if row.value.expires > now {
        if row.value.owner != owner { return Some(Fault.LeaseUnavailable), lease; }
        next := row.value.(expires := now + span);
      } else {
        next := LeaseRow(owner, row.value.token + 1, now + span);
      }
      store.tables := store.tables.(master := Some(next));
      return None, Lease(owner, next.token);
    }

    method Heartbeat(l: Lease, span: int, now: int) returns (fault: Option<Fault>)
      modifies store
      ensures Executes(old(store.tables), store.tables, OnMaster(old(store.tables), BeatMaster(old(store.tables).master, l, span, now)), fault)
      ensures fault.None? ==> forall k, later :: MasterValid(store.tables.master, k, later) <==> k == l && later < now + span
      ensures fault == if span < 1 then Some(Fault.Invalid) else if MasterValid(old(store.tables).master, l, now) then None else Some(Fault.LeaseLost)
    {
      if span < 1 { return Some(Fault.Invalid); }
      if !MasterValid(store.tables.master, l, now) { return Some(Fault.LeaseLost); }
      store.tables := store.tables.(master := Some(store.tables.master.value.(expires := now + span)));
      fault := None;
    }

    method Release(l: Lease, now: int) returns (fault: Option<Fault>)
      modifies store
      ensures Executes(old(store.tables), store.tables, OnMaster(old(store.tables), ReleaseMaster(old(store.tables).master, l, now)), fault)
      ensures fault.None? ==> forall k, later :: MasterValid(store.tables.master, k, later) <==> k == l && later < now
      ensures fault == if MasterValid(old(store.tables).master, l, now) then None else Some(Fault.LeaseLost)
    {
      if !MasterValid(store.tables.master, l, now) { return Some(Fault.LeaseLost); }
      store.tables := store.tables.(master := Some(store.tables.master.value.(expires := now)));
      fault := None;
    }
  }

  class WorkspaceLeaseRepository {
    const store: Store

    constructor (s: Store)
      ensures store == s
    {
      store := s;
    }

    method Acquire(holder: Holder, span: int, now: int) returns (fault: Option<Fault>, lease: WorkLease)
      modifies store
      ensures Executes(old(store.tables), store.tables, OnLock(old(store.tables), AcquireLock(old(store.tables).lock, holder, span, now)), fault)
      ensures fault.None? ==> lease.holder == holder
      ensures fault.None? ==> forall w, later :: LockValid(store.tables.lock, w, later) <==> w == lease && later < now + span
      ensures fault.None? ==> var was := old(store.tables).lock;
        lease.token == if was.None? then 1 else if !was.value.released && was.value.expires > now then was.value.token else was.value.token + 1
      ensures fault == Some(Fault.Invalid) <==> span < 1
      ensures span >= 1 ==>
        (fault == Some(Fault.LeaseUnavailable) <==> exists w :: LockValid(old(store.tables).lock, w, now) && w.holder != holder)
    {
      lease := WorkLease(holder, 0);
      if span < 1 { return Some(Fault.Invalid), lease; }
      var row := store.tables.lock;
      assert row.Some? && !row.value.released && row.value.expires > now ==>
        LockValid(row, WorkLease(row.value.holder, row.value.token), now);
      var next: LockRow;
      if row.None? {
        next := LockRow(holder, 1, now + span, false);
      } else if !row.value.released && row.value.expires > now {
        if row.value.holder != holder { return Some(Fault.LeaseUnavailable), lease; }
        next := row.value.(expires := now + span);
      } else {
        next := LockRow(holder, row.value.token + 1, now + span, false);
      }
      store.tables := store.tables.(lock := Some(next));
      return None, WorkLease(holder, next.token);
    }

    method Heartbeat(w: WorkLease, span: int, now: int) returns (fault: Option<Fault>)
      modifies store
      ensures Executes(old(store.tables), store.tables, OnLock(old(store.tables), BeatLock(old(store.tables).lock, w, span, now)), fault)
      ensures fault.None? ==> forall k, later :: LockValid(store.tables.lock, k, later) <==> k == w && later < now + span
      ensures fault == if span < 1 then Some(Fault.Invalid) else if LockValid(old(store.tables).lock, w, now) then None else Some(Fault.LeaseLost)
    {
      if span < 1 { return Some(Fault.Invalid); }
      if !LockValid(store.tables.lock, w, now) { return Some(Fault.LeaseLost); }
      store.tables := store.tables.(lock := Some(store.tables.lock.value.(expires := now + span)));
      fault := None;
    }

    method Release(w: WorkLease, now: int) returns (fault: Option<Fault>)
      modifies store
      ensures Executes(old(store.tables), store.tables, OnLock(old(store.tables), ReleaseLock(old(store.tables).lock, w, now)), fault)
      ensures fault.None? ==> forall k, later :: !LockValid(store.tables.lock, k, later)
      ensures fault == if LockValid(old(store.tables).lock, w, now) then None else Some(Fault.LeaseLost)
    {
      if !LockValid(store.tables.lock, w, now) { return Some(Fault.LeaseLost); }
      store.tables := store.tables.(lock := Some(store.tables.lock.value.(expires := now, released := true)));
      fault := None;
    }

    /** Runs workspace I/O inside the fence and renews before releasing it; an
        operation that raises renews nothing. */
    method RunFenced(w: WorkLease, raised: Option<Fault>, span: int, now: int) returns (fault: Option<Fault>)
      modifies store
      ensures var held := LockValid(old(store.tables).lock, w, now);
        && (!held ==> fault == Some(Fault.LeaseLost) && store.tables == old(store.tables))
        && (held && raised.Some? ==> fault == raised && store.tables == old(store.tables))
        && (held && raised.None? ==>
              Executes(old(store.tables), store.tables, OnLock(old(store.tables), BeatLock(old(store.tables).lock, w, span, now)), fault))
      ensures fault.None? ==> forall k, later :: LockValid(store.tables.lock, k, later) <==> k == w && later < now + span
      ensures fault.None? <==> LockValid(old(store.tables).lock, w, now) && raised.None? && span >= 1
    {
      if !LockValid(store.tables.lock, w, now) { return Some(Fault.LeaseLost); }
      if raised.Some? { return raised; }
      fault := Heartbeat(w, span, now);
    }
  }
}
