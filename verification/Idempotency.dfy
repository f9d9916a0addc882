/** Persistent idempotency keys around a mutation: run once per window, replay
    otherwise. */
module Idempotency {
  import opened Wrappers

  /** Actor scope, operation scope and key. */
  datatype Key = Key(actor: int, operation: int, key: int)

  datatype Response = Response(status: int, body: int)

  datatype Row = Row(hash: int, response: Response, created: int, expires: int)

  type Rows = map<Key, Row>

  /** A call: its mutation answers with a response or raises. */
  datatype Request = Request(key: Key, hash: int, ttl: int, mutation: Option<Response>)

  datatype Answer = Conflicts | Replayed(response: Response) | Ran(response: Response) | Raised | Refused

  // ---------------------------------------------------------------- what the calls do

  predicate Alive(rows: Rows, k: Key, now: int) {
    k in rows && rows[k].expires > now
  }

  function Lookup(rows: Rows, k: Key, hash: int, now: int): Result<Option<Response>> {
    if !Alive(rows, k, now) then Ok(None)
    else if rows[k].hash != hash then Err(Fault.KeyReused)
    else Ok(Some(rows[k].response))
  }

  function Answered(rows: Rows, q: Request, now: int): Answer {
    if q.ttl < 1 then Refused
    else if Alive(rows, q.key, now) then (if rows[q.key].hash != q.hash then Conflicts else Replayed(rows[q.key].response))
    else if q.mutation.None? then Raised
    else Ran(q.mutation.value)
  }

  function Stored(rows: Rows, q: Request, now: int): Rows {
    if Answered(rows, q, now).Ran? then rows[q.key := Row(q.hash, q.mutation.value, now, now + q.ttl)] else rows
  }

  function Purged(rows: Rows, now: int): Rows {
    map k | k in rows && rows[k].expires > now :: rows[k]
  }

  class IdempotencyRepository {
    var rows: Rows

    constructor ()
      ensures rows == map[]
    {
      rows := map[];
    }

    /** One transaction: an expired row is replaced, a live one replayed, and a
        mutation that raises leaves the table as it was. */
    method Execute(q: Request, now: int) returns (answer: Answer)
      modifies this
      ensures answer == Answered(old(rows), q, now) && rows == Stored(old(rows), q, now)
      ensures q.ttl < 1 ==> answer == Refused && rows == old(rows)
      ensures q.ttl >= 1 && q.key in old(rows) && old(rows)[q.key].expires > now ==>
        rows == old(rows) && answer == if old(rows)[q.key].hash == q.hash then Replayed(old(rows)[q.key].response) else Conflicts
      ensures q.ttl >= 1 && !(q.key in old(rows) && old(rows)[q.key].expires > now) ==>
        if q.mutation.None? then answer == Raised && rows == old(rows)
        else answer == Ran(q.mutation.value) && rows == old(rows)[q.key := Row(q.hash, q.mutation.value, now, now + q.ttl)]
    {
      var saved := rows;
      if q.ttl < 1 { return Refused; }
      if q.key in rows && rows[q.key].expires > now {
        return if rows[q.key].hash != q.hash then Conflicts else Replayed(rows[q.key].response);
      }
      if q.key in rows { rows := map k | k in rows && k != q.key :: rows[k]; }
      if q.mutation.None? {
        rows := saved;
        return Raised;
      }
      rows := rows[q.key := Row(q.hash, q.mutation.value, now, now + q.ttl)];
      answer := Ran(q.mutation.value);
    }

    method DeleteExpired(now: int) returns (deleted: nat)
      modifies this
      ensures rows == Purged(old(rows), now)
      ensures forall k :: k in rows <==> k in old(rows) && old(rows)[k].expires > now
      ensures forall k | k in rows :: rows[k] == old(rows)[k]
      ensures deleted == |old(rows)| - |rows|
    {
      var kept := Purged(rows, now);
      assert kept.Keys <= rows.Keys;
      assert |kept.Keys| + |rows.Keys - kept.Keys| == |rows.Keys| by { assert kept.Keys + (rows.Keys - kept.Keys) == rows.Keys; }
      deleted := |rows| - |kept|;
      rows := kept;
    }
  }

  /** `lookup` sees exactly what `execute` would answer without running. */
  lemma LookupAgrees(rows: Rows, q: Request, now: int)
    requires q.ttl >= 1
    ensures Lookup(rows, q.key, q.hash, now) ==
      match Answered(rows, q, now)
      case Conflicts => Err(Fault.KeyReused)
      case Replayed(r) => Ok(Some(r))
      case _ => Ok(None)
  {
  }

  // ---------------------------------------------------------------- histories

  datatype Op = Execute(q: Request, now: int) | Purge(now: int)

  function Next(rows: Rows, op: Op): Rows {
    match op
    case Execute(q, now) => Stored(rows, q, now)
    case Purge(now) => Purged(rows, now)
  }

  function History(rows: Rows, ops: seq<Op>): Rows {
    if ops == [] then rows else Next(History(rows, ops[..|ops| - 1]), ops[|ops| - 1])
  }

  /** The clock never runs backwards. */
  ghost predicate Onward(ops: seq<Op>) {
    forall i, j | 0 <= i < j < |ops| :: ops[i].now <= ops[j].now
  }

  lemma {:induction false} RowLasts(rows: Rows, ops: seq<Op>, i: nat, j: nat)
    requires Onward(ops) && i < j <= |ops| && ops[i].Execute?
    requires Answered(History(rows, ops[..i]), ops[i].q, ops[i].now).Ran?
    requires forall k | i < k < j :: ops[k].now < ops[i].now + ops[i].q.ttl
    ensures var after := History(rows, ops[..j]); var q := ops[i].q;
      q.key in after && after[q.key] == Row(q.hash, q.mutation.value, ops[i].now, ops[i].now + q.ttl)
    decreases j
  {
    assert ops[..j][..j - 1] == ops[..j - 1];
    if j > i + 1 { RowLasts(rows, ops, i, j - 1); }
  }

  /** Under a forward clock a key runs its mutation at most once per window: until
      the first run's row expires every further call replays it, or conflicts. */
  lemma OncePerWindow(rows: Rows, ops: seq<Op>, i: nat, j: nat)
    requires Onward(ops) && i < j < |ops| && ops[i].Execute? && ops[j].Execute?
    requires Answered(History(rows, ops[..i]), ops[i].q, ops[i].now).Ran?
    requires ops[j].q.key == ops[i].q.key && ops[j].q.ttl >= 1 && ops[j].now < ops[i].now + ops[i].q.ttl
    ensures Answered(History(rows, ops[..j]), ops[j].q, ops[j].now) ==
      if ops[j].q.hash == ops[i].q.hash then Replayed(ops[i].q.mutation.value) else Conflicts
  {
    forall k | i < k < j ensures ops[k].now < ops[i].now + ops[i].q.ttl { assert ops[k].now <= ops[j].now; }
    RowLasts(rows, ops, i, j);
  }

  // ---------------------------------------------------------------- deletion is invisible

  ghost predicate SameAlive(a: Rows, b: Rows, now: int) {
    forall k :: (Alive(a, k, now) <==> Alive(b, k, now)) && (Alive(a, k, now) ==> a[k] == b[k])
  }

  lemma {:induction false} SameAnswers(a: Rows, b: Rows, ops: seq<Op>, since: int, now: int)
    requires SameAlive(a, b, since) && Onward(ops) && forall i | 0 <= i < |ops| :: since <= ops[i].now <= now
    requires since <= now
    ensures SameAlive(History(a, ops), History(b, ops), now)
  {
    if ops != [] {
      var init, op := ops[..|ops| - 1], ops[|ops| - 1];
      SameAnswers(a, b, init, since, op.now);
      StepSame(History(a, init), History(b, init), op, now);
    }
  }

  lemma StepSame(a: Rows, b: Rows, op: Op, now: int)
    requires SameAlive(a, b, op.now) && op.now <= now
    ensures SameAlive(Next(a, op), Next(b, op), now)
  {
    if op.Execute? { assert Alive(a, op.q.key, op.now) <==> Alive(b, op.q.key, op.now); }
    forall k
      ensures (Alive(Next(a, op), k, now) <==> Alive(Next(b, op), k, now)) && (Alive(Next(a, op), k, now) ==> Next(a, op)[k] == Next(b, op)[k])
    {
      assert Alive(a, k, op.now) <==> Alive(b, k, op.now);
    }
  }

  /** Under a forward clock no caller can tell whether expired rows were deleted. */
  lemma DeletionInvisible(rows: Rows, at: int, ops: seq<Op>, q: Request, now: int)
    requires Onward(ops) && (forall i | 0 <= i < |ops| :: at <= ops[i].now <= now) && at <= now
    ensures Answered(History(Purged(rows, at), ops), q, now) == Answered(History(rows, ops), q, now)
    ensures Lookup(History(Purged(rows, at), ops), q.key, q.hash, now) == Lookup(History(rows, ops), q.key, q.hash, now)
  {
    forall k ensures (Alive(rows, k, at) <==> Alive(Purged(rows, at), k, at)) && (Alive(rows, k, at) ==> rows[k] == Purged(rows, at)[k]) {}
    SameAnswers(rows, Purged(rows, at), ops, at, now);
    assert Alive(History(rows, ops), q.key, now) <==> Alive(History(Purged(rows, at), ops), q.key, now);
  }

  /** A clock that runs backwards sees the deletion exactly when it falls before
      the expiry of a deleted row. */
  lemma DeletionVisible(rows: Rows, at: int, k: Key, hash: int, now: int)
    ensures Lookup(Purged(rows, at), k, hash, now) != Lookup(rows, k, hash, now) <==>
      k in rows && now < rows[k].expires <= at
  {
  }
}
