/** The Master lease and the workspace lock: rows that carry fencing tokens. */
module Leases {
  import opened Wrappers
  import opened Records

  /** What a holder keeps of the lease it was given. */
  datatype Lease = Lease(owner: int, token: nat)

  datatype WorkLease = WorkLease(holder: Holder, token: nat)

  /** A mutating call: who makes it, and the clock it reads. */
  datatype Call = Call(lease: Lease, now: int)

  // ---------------------------------------------------------------- Master lease

  predicate MasterValid(row: Option<LeaseRow>, l: Lease, now: int) {
    row.Some? && row.value.owner == l.owner && row.value.token == l.token && row.value.expires > now
  }

  function AcquireMaster(row: Option<LeaseRow>, owner: int, ttl: int, now: int): Result<LeaseRow> {
    var valid := ttl >= 1;
    :- Need(valid, Fault.Invalid);
    if row.None? then Ok(LeaseRow(owner, 1, now + ttl))
    else if row.value.expires > now then
      :- Need(row.value.owner == owner, Fault.LeaseUnavailable);
      Ok(row.value.(expires := now + ttl))
    else Ok(LeaseRow(owner, row.value.token + 1, now + ttl))
  }

  function BeatMaster(row: Option<LeaseRow>, l: Lease, ttl: int, now: int): Result<LeaseRow> {
    var valid := ttl >= 1;
    :- Need(valid, Fault.Invalid);
    :- Need(MasterValid(row, l, now), Fault.LeaseLost);
    Ok(row.value.(expires := now + ttl))
  }

  function ReleaseMaster(row: Option<LeaseRow>, l: Lease, now: int): Result<LeaseRow> {
    var valid := MasterValid(row, l, now);
    :- Need(valid, Fault.LeaseLost);
    Ok(row.value.(expires := now))
  }

  // ---------------------------------------------------------------- workspace lock

  predicate LockValid(row: Option<LockRow>, w: WorkLease, now: int) {
    && row.Some? && row.value.holder == w.holder && row.value.token == w.token
    && !row.value.released && row.value.expires > now
  }

  function AcquireLock(row: Option<LockRow>, holder: Holder, ttl: int, now: int): Result<LockRow> {
    var valid := ttl >= 1;
    :- Need(valid, Fault.Invalid);
    if row.None? then Ok(LockRow(holder, 1, now + ttl, false))
    else if !row.value.released && row.value.expires > now then
      :- Need(row.value.holder == holder, Fault.LeaseUnavailable);
      Ok(row.value.(expires := now + ttl))
    else Ok(LockRow(holder, row.value.token + 1, now + ttl, false))
  }

  function BeatLock(row: Option<LockRow>, w: WorkLease, ttl: int, now: int): Result<LockRow> {
    var valid := ttl >= 1;
    :- Need(valid, Fault.Invalid);
    :- Need(LockValid(row, w, now), Fault.LeaseLost);
    Ok(row.value.(expires := now + ttl))
  }

  function ReleaseLock(row: Option<LockRow>, w: WorkLease, now: int): Result<LockRow> {
    var valid := LockValid(row, w, now);
    :- Need(valid, Fault.LeaseLost);
    Ok(row.value.(expires := now, released := true))
  }
}
