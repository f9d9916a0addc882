/** The database: tables that guarded statements change in place, inside
    transactions that commit as a whole or are rolled back as a whole. */
module Database {
  import opened Wrappers
  import opened Records

  /** A transaction either commits what its specification yields, or raises and
      leaves every table as it was. */
  ghost predicate Executes(was: Tables, now: Tables, spec: Result<Tables>, fault: Option<Fault>) {
    match spec
    case Ok(u) => fault.None? && now == u
    case Err(f) => fault == Some(f) && now == was
  }

  class Store {
    var tables: Tables

    constructor (t: Tables)
      ensures tables == t
    {
      tables := t;
    }

    method Rollback(to: Tables)
      modifies this
      ensures tables == to
    {
      tables := to;
    }

    /** Allocates the next sequence number of the run and inserts the event. */
    method Append(e: Event)
      modifies this
      ensures tables == Log(old(tables), e)
    {
      var number := tables.nextSeq;
      tables := tables.(nextSeq := number + 1);
      tables := tables.(log := tables.log + [Entry(number, MasterToken(tables), e)]);
    }

    // -------------------------------------------------------------- guarded updates

    method UpdateNode(r: NodeRun, expected: NodeStatus, row: NodeRow) returns (changed: nat)
      modifies this
      ensures changed == if r in old(tables).nodes && old(tables).nodes[r].status == expected then 1 else 0
      ensures tables == if changed == 1 then old(tables).(nodes := old(tables).nodes[r := row]) else old(tables)
    {
      changed := 0;
      if r in tables.nodes && tables.nodes[r].status == expected {
        tables := tables.(nodes := tables.nodes[r := row]);
        changed := 1;
      }
    }

    method UpdateRun(expected: RunStatus, next: RunStatus, unlessCancelled: bool) returns (changed: nat)
      modifies this
      ensures changed == if old(tables).run.status == expected && !(unlessCancelled && old(tables).run.cancelRequested) then 1 else 0
      ensures tables == if changed == 1 then old(tables).(run := old(tables).run.(status := next)) else old(tables)
    {
      changed := 0;
      if tables.run.status == expected && !(unlessCancelled && tables.run.cancelRequested) {
        tables := tables.(run := tables.run.(status := next));
        changed := 1;
      }
    }

    method UpdateTask(r: NodeRun, expected: TaskStatus, next: TaskStatus) returns (changed: nat)
      modifies this
      ensures changed == if r in old(tables).tasks && old(tables).tasks[r].status == expected then 1 else 0
      ensures tables == if changed == 1
        then old(tables).(tasks := old(tables).tasks[r := old(tables).tasks[r].(status := next)]) else old(tables)
    {
      changed := 0;
      if r in tables.tasks && tables.tasks[r].status == expected {
        tables := tables.(tasks := tables.tasks[r := tables.tasks[r].(status := next)]);
        changed := 1;
      }
    }

    method UpdateChangeSet(cs: NodeRun, expected: set<ChangeSetStatus>, next: ChangeSetStatus) returns (changed: nat)
      modifies this
      ensures changed == if cs in old(tables).changeSets && old(tables).changeSets[cs] in expected then 1 else 0
      ensures tables == if changed == 1 then old(tables).(changeSets := old(tables).changeSets[cs := next]) else old(tables)
    {
      changed := 0;
      if cs in tables.changeSets && tables.changeSets[cs] in expected {
        tables := tables.(changeSets := tables.changeSets[cs := next]);
        changed := 1;
      }
    }

    method UpdateRequest(q: int, expected: set<RequestStatus>, next: RequestStatus) returns (changed: nat)
      modifies this
      ensures changed == if q in old(tables).requests && old(tables).requests[q].status in expected then 1 else 0
      ensures tables == if changed == 1
        then old(tables).(requests := old(tables).requests[q := old(tables).requests[q].(status := next)]) else old(tables)
    {
      changed := 0;
      if q in tables.requests && tables.requests[q].status in expected {
        tables := tables.(requests := tables.requests[q := tables.requests[q].(status := next)]);
        changed := 1;
      }
    }

    /** Updates a pending approval of the expected version. */
    method UpdateApproval(a: int, version: nat, row: ApprovalRow) returns (changed: nat)
      modifies this
      ensures changed == if a in old(tables).approvals && old(tables).approvals[a].status.Pending?
                            && old(tables).approvals[a].version == version then 1 else 0
      ensures tables == if changed == 1 then old(tables).(approvals := old(tables).approvals[a := row]) else old(tables)
    {
      changed := 0;
      if a in tables.approvals && tables.approvals[a].status.Pending? && tables.approvals[a].version == version {
        tables := tables.(approvals := tables.approvals[a := row]);
        changed := 1;
      }
    }

    // -------------------------------------------------------------- a status write with its event

    method ShiftNode(r: NodeRun, was: NodeStatus, row: NodeRow) returns (changed: nat)
      modifies this
      ensures changed == if r in old(tables).nodes && old(tables).nodes[r].status == was then 1 else 0
      ensures tables == if changed == 1 then MoveNode(old(tables), r, was, row) else old(tables)
    {
      changed := UpdateNode(r, was, row);
      if changed == 1 { Append(NodeMoved(r, was, row.status, row.outcome)); }
    }
  }
}
