/** Runs from creation to the states in which the conditions on callers bite. */
module Witnesses {
  import opened Graphs
  import opened Wrappers
  import opened Records
  import opened Leases
  import opened Scheduling
  import opened Meaning
  import opened WorkflowRuns
  import opened Approvals
  import opened ChangeSets
  import opened Actions
  import opened Agreement
  import opened Invariance
  import opened Effects
  import opened Waiting
  import opened Guarantees

  // ---------------------------------------------------------------- reachable tables

  /** What some proper run of some created workflow leads to. */
  ghost predicate Reachable(t: Tables) {
    exists start, steps :: Leads(start, steps, t)
  }

  ghost predicate Leads(start: Tables, steps: seq<Action>, t: Tables) {
    Created(start) && AllProper(start, steps) && Trace(start, steps) == t
  }

  lemma CreatedReachable(t: Tables)
    requires Created(t)
    ensures Reachable(t)
  {
    assert Leads(t, [], t);
  }

  lemma StepReachable(t: Tables, x: Action)
    requires Reachable(t) && Proper(t, x)
    ensures Reachable(After(t, x))
  {
    hide Created, Proper, After;
    var start, steps :| Leads(start, steps, t);
    var more := steps + [x];
    assert more[..|steps|] == steps;
    forall i | 0 <= i < |more| ensures Proper(Trace(start, more[..i]), more[i]) {
      if i < |steps| {
        assert more[..i] == steps[..i];
        assert Proper(Trace(start, steps[..i]), steps[i]);
      }
    }
    assert Leads(start, more, After(t, x));
  }

  lemma ReachableSound(t: Tables)
    requires Reachable(t)
    ensures Sound(t)
  {
    hide Created, AllProper, Trace, Sound;
    var start, steps :| Leads(start, steps, t);
    RunSound(start, steps);
  }

  // ---------------------------------------------------------------- one workflow

  /** An input, an agent, a second agent for when the first is refused, an output. */
  const CHAIN := Graph(
    [Node(1, NodeKind.Input, false), Node(2, NodeKind.AgentTask, true), Node(3, NodeKind.AgentTask, true), Node(4, NodeKind.Output, false)],
    [Edge(1, 2, OnSuccess), Edge(2, 3, OnRejected), Edge(3, 4, OnSuccess)])

  const FIRST := NodeRun(2, 1)
  const SECOND := NodeRun(3, 1)
  const HELD := LeaseRow(7, 1, 100)

  function At(now: int): Call {
    Call(Lease(7, 1), now)
  }

  function Four(a: NodeRow, b: NodeRow, c: NodeRow, d: NodeRow): Rows {
    map[NodeRun(1, 1) := a, NodeRun(2, 1) := b, NodeRun(3, 1) := c, NodeRun(4, 1) := d]
  }

  function Is(s: NodeStatus): NodeRow {
    NodeRow(s, None, None)
  }

  const DONE := NodeRow(NodeStatus.Completed, Some(Outcome.Success), None)

  /** The tables but for the log. */
  function Stage(status: RunStatus, nodes: Rows, tasks: TaskRows, approvals: ApprovalRows, requests: RequestRows, lock: Option<LockRow>): Tables {
    Tables(CHAIN, RunRow(status, false, false, 0), nodes, tasks, map[], approvals, requests, map[], [], 0, 0, Some(HELD), lock)
  }

  ghost predicate Shows(t: Tables, stage: Tables) {
    Reachable(t) && Bare(t) == stage
  }

  lemma ChainCompiled()
    ensures WellFormed(CHAIN) && Ids(CHAIN) == {1, 2, 3, 4} && Acyclic(Ids(CHAIN), Links(CHAIN)) && OutputOf(CHAIN.nodes) == 4
  {
    var n := CHAIN.nodes;
    assert n[0] in n && n[1] in n && n[2] in n && n[3] in n;
    assert OutputOf(n[1..]) == OutputOf(n[2..]) == OutputOf(n[3..]) == 4;
    var order := [1, 2, 3, 4];
    forall p, j | 0 <= j < 4 && (p, order[j]) in Links(CHAIN) ensures p in order[..j] {
      var l: (int, int) := (p, order[j]);
      assert l == (1, 2) || l == (2, 3) || l == (3, 4);
      assert order[p - 1] == p && p - 1 < j && order[..j][p - 1] == p;
    }
    assert IsOrder(Ids(CHAIN), Links(CHAIN), order);
  }

  /** What each node of the chain wants. */
  lemma ChainWants(a: NodeRow, b: NodeRow, c: NodeRow, d: NodeRow)
    ensures var rows := Four(a, b, c, d);
      && Want(CHAIN, rows, 1) == Some(NodeStatus.Ready)
      && Want(CHAIN, rows, 2) == Follow(a, OnSuccess) && Want(CHAIN, rows, 3) == Follow(b, OnRejected)
      && Want(CHAIN, rows, 4) == Follow(c, OnSuccess)
  {
    var n, e, rows := CHAIN.nodes, CHAIN.edges, Four(a, b, c, d);
    assert e[0] in e && e[1] in e && e[2] in e;
    assert FindNode(n, 2) == n[1] && FindNode(n, 3) == n[2] && FindNode(n, 4) == n[3] by {
      assert FindNode(n, 2) == FindNode(n[1..], 2);
      assert FindNode(n, 3) == FindNode(n[1..], 3) == FindNode(n[1..][1..], 3);
      assert FindNode(n, 4) == FindNode(n[1..], 4) == FindNode(n[1..][1..], 4) == FindNode(n[1..][1..][1..], 4);
    }
    assert LatestRow(rows, 1) == a && LatestRow(rows, 2) == b && LatestRow(rows, 3) == c;
    assert Satisfied(CHAIN, rows, 2) <==> Holds(OnSuccess, a) by { if Holds(OnSuccess, a) { assert e[0] in e && Holds(e[0].cond, LatestRow(rows, e[0].source)); } }
    assert Satisfied(CHAIN, rows, 3) <==> Holds(OnRejected, b) by { if Holds(OnRejected, b) { assert e[1] in e && Holds(e[1].cond, LatestRow(rows, e[1].source)); } }
    assert Satisfied(CHAIN, rows, 4) <==> Holds(OnSuccess, c) by { if Holds(OnSuccess, c) { assert e[2] in e && Holds(e[2].cond, LatestRow(rows, e[2].source)); } }
  }

  function Follow(row: NodeRow, c: Condition): Option<NodeStatus> {
    if !NodeDone(row.status) then None else Some(if Holds(c, row) then NodeStatus.Ready else NodeStatus.Skipped)
  }

  lemma ChainCloses(t: Tables, a: NodeRow, b: NodeRow, c: NodeRow, d: NodeRow, nodes: Rows)
    requires t.graph == CHAIN && t.nodes == Four(a, b, c, d) && Closed(CHAIN, t.nodes, nodes)
    ensures Passes(t).nodes == nodes
  {
    hide Closed, Passes, Acyclic;
    ChainCompiled();
    PassesClosed(t);
    ClosedUnique(CHAIN, t.nodes, Passes(t).nodes, nodes);
  }

  predicate Settled(a: NodeRow, b: NodeRow, c: NodeRow, a2: NodeRow, b2: NodeRow, c2: NodeRow) {
    && a2 == (if a.status.Pending? then Is(NodeStatus.Ready) else a)
    && b2 == (if b.status.Pending? && Follow(a2, OnSuccess).Some? then b.(status := Follow(a2, OnSuccess).value) else b)
    && c2 == (if c.status.Pending? && Follow(b2, OnRejected).Some? then c.(status := Follow(b2, OnRejected).value) else c)
    && !NodeDone(c2.status) && (a.status.Pending? ==> a == Is(NodeStatus.Pending))
  }

  /** Reconciling the chain settles its rows from the input on. */
  lemma ChainReconciled(t: Tables, a: NodeRow, b: NodeRow, c: NodeRow, a2: NodeRow, b2: NodeRow, c2: NodeRow)
    requires t.graph == CHAIN && t.nodes == Four(a, b, c, Is(NodeStatus.Pending)) && Settled(a, b, c, a2, b2, c2)
    ensures var u := Reconciled(t); u == t.(nodes := Four(a2, b2, c2, Is(NodeStatus.Pending)), log := u.log, nextSeq := u.nextSeq)
  {
    hide Settled, Passes;
    var d := Is(NodeStatus.Pending);
    ChainSettles(a, b, c, d, a2, b2, c2);
    ChainCloses(t, a, b, c, d, Four(a2, b2, c2, d));
    assert NodeRun(4, 1) in Passes(t).nodes && !NodeDone(Passes(t).nodes[NodeRun(4, 1)].status);
  }

  lemma ChainSettles(a: NodeRow, b: NodeRow, c: NodeRow, d: NodeRow, a2: NodeRow, b2: NodeRow, c2: NodeRow)
    requires Settled(a, b, c, a2, b2, c2) && d == Is(NodeStatus.Pending)
    ensures Closed(CHAIN, Four(a, b, c, d), Four(a2, b2, c2, d))
  {
    hide Want, Holds, Partial, WellFormed, Acyclic;
    ChainWants(a2, b2, c2, d);
    ChainCompiled();
    ChainMoves(a, b, c, d, a2, b2, c2);
  }

  lemma ChainMoves(a: NodeRow, b: NodeRow, c: NodeRow, d: NodeRow, a2: NodeRow, b2: NodeRow, c2: NodeRow)
    requires Settled(a, b, c, a2, b2, c2) && d == Is(NodeStatus.Pending)
    ensures Partial(CHAIN, Four(a, b, c, d), Four(a2, b2, c2, d))
  {
    hide Want, Holds, NodeDone;
    ChainWants(a2, b2, c2, d);
    var was, nodes := Four(a, b, c, d), Four(a2, b2, c2, d);
    assert nodes[NodeRun(1, 1)] == was[NodeRun(1, 1)] || DueIn(CHAIN, was, nodes, NodeRun(1, 1));
    assert nodes[FIRST] == was[FIRST] || DueIn(CHAIN, was, nodes, FIRST);
    assert nodes[SECOND] == was[SECOND] || DueIn(CHAIN, was, nodes, SECOND);
  }

  // ---------------------------------------------------------------- the first steps

  ghost function Bare(t: Tables): Tables {
    t.(log := [], nextSeq := 0)
  }

  lemma Take(t: Tables, x: Action, next: Tables) returns (u: Tables)
    requires Reachable(t) && Proper(t, x) && Do(t, x).Ok? && Bare(Do(t, x).value) == next
    ensures Shows(u, next) && u == After(t, x)
  {
    hide Reachable, Proper, Do;
    StepReachable(t, x);
    u := After(t, x);
  }

  lemma StartChain(t: Tables, a: NodeRow, b: NodeRow, c: NodeRow, a2: NodeRow, b2: NodeRow, c2: NodeRow) returns (u: Tables)
    requires Reachable(t) && t.graph == CHAIN && t.master == Some(HELD) && Settled(a, b, c, a2, b2, c2)
    requires t.nodes == Four(a, b, c, Is(NodeStatus.Pending)) && !t.run.cancelRequested
    requires t.run.status.Pending? || t.run.status.Running?
    ensures Shows(u, Bare(t.(run := t.run.(status := RunStatus.Running), nodes := Four(a2, b2, c2, Is(NodeStatus.Pending)))))
  {
    hide Reachable, TaskStep, BookStep, LeaseStep, Claim, EnterWaiting, PrepareRetry, BeginMerge, ClearMerge, FinalizeMerge, Orphan, Reconciled, Settled, Four;
    var moved := if t.run.status.Pending? then MoveRun(t, RunStatus.Pending, RunStatus.Running) else t;
    ChainReconciled(moved, a, b, c, a2, b2, c2);
    u := Take(t, StartRun(At(0)), Bare(t.(run := t.run.(status := RunStatus.Running), nodes := Four(a2, b2, c2, Is(NodeStatus.Pending)))));
  }

  lemma Started() returns (t: Tables)
    ensures Shows(t, Stage(RunStatus.Running, Four(Is(NodeStatus.Ready), Is(NodeStatus.Pending), Is(NodeStatus.Pending), Is(NodeStatus.Pending)),
                           map[], map[], map[], None))
  {
    hide Reachable, Created, WellFormed, Acyclic, Shows, Ids, Links;
    var p := Is(NodeStatus.Pending);
    var start := NewRun(CHAIN, 0, 0, HELD, None);
    ChainCompiled();
    assert CHAIN.nodes[3] in CHAIN.nodes;
    NewRunCreated(CHAIN, 0, 0, HELD, None);
    CreatedReachable(start);
    assert start.nodes == Four(p, p, p, p);
    t := StartChain(start, p, p, p, Is(NodeStatus.Ready), p, p);
  }

  /** Claiming takes the one node that is ready. */
  lemma ClaimsOnly(t: Tables, n: int)
    requires t.graph == CHAIN && t.run.status.Running? && !t.run.cancelRequested && t.master == Some(HELD)
    requires n in Ids(CHAIN) && NodeRun(n, 2) !in t.nodes && LatestRow(t.nodes, n).status.Ready?
    requires forall m | m in Ids(CHAIN) && m != n :: !LatestRow(t.nodes, m).status.Ready?
    ensures Claim(t, At(0)) == Ok(MoveNode(t, NodeRun(n, 1), NodeStatus.Ready, Row(t.nodes, NodeRun(n, 1)).(status := NodeStatus.Running)))
  {
    hide FirstReady, Acyclic, WellFormed, Order, LatestRow, Links, Ids;
    var order := GraphOrder(CHAIN);
    ChainCompiled();
    OrderCoversIffAcyclic(Ids(CHAIN), Links(CHAIN));
    assert n in (set x | x in order);
    ReadyFound(t.nodes, order, n);
    ClaimsFirst(t.nodes, order);
    var k :| 0 <= k < |order| && FirstReady(t.nodes, order).value == Latest(t.nodes, order[k]) && EarliestReady(t.nodes, order, k);
    assert order[k] in (set x | x in order);
  }

  lemma ClaimChain(t: Tables, n: int, next: Rows) returns (u: Tables)
    requires Reachable(t) && t.graph == CHAIN && t.run.status.Running? && !t.run.cancelRequested && t.master == Some(HELD)
    requires n in {1, 2, 3, 4} && NodeRun(n, 2) !in t.nodes && LatestRow(t.nodes, n).status.Ready?
    requires forall m | m in {1, 2, 3, 4} && m != n :: !LatestRow(t.nodes, m).status.Ready?
    requires next == t.nodes[NodeRun(n, 1) := Row(t.nodes, NodeRun(n, 1)).(status := NodeStatus.Running)]
    ensures Shows(u, Bare(t.(nodes := next)))
  {
    hide Reachable, Claim, TaskStep, BookStep, LeaseStep, Start, EnterWaiting, PrepareRetry, BeginMerge, ClearMerge, FinalizeMerge, Orphan, LatestRow, Acyclic, WellFormed;
    ChainCompiled();
    ClaimsOnly(t, n);
    u := Take(t, ClaimNext(At(0)), Bare(t.(nodes := next)));
  }

  lemma InputDone(t: Tables) returns (u: Tables)
    requires Reachable(t) && t.graph == CHAIN && t.run.status.Running? && !t.run.cancelRequested && t.master == Some(HELD)
    requires NodeRun(1, 1) in t.nodes && t.nodes[NodeRun(1, 1)].status.Running?
    ensures Shows(u, Bare(t.(nodes := t.nodes[NodeRun(1, 1) := DONE])))
  {
    hide Reachable, WriteCheck, TaskStep, BookStep, LeaseStep, Start, Claim, EnterWaiting, PrepareRetry, BeginMerge, ClearMerge, FinalizeMerge, Orphan;
    u := Take(t, CompleteNode(At(0), NodeRun(1, 1), Verdict(NodeStatus.Completed, Some(Outcome.Success)), false),
      Bare(t.(nodes := t.nodes[NodeRun(1, 1) := DONE])));
  }

  lemma TaskBegins(t: Tables, r: NodeRun) returns (u: Tables)
    requires Reachable(t) && t.run == RunRow(RunStatus.Running, false, false, 0) && t.master == Some(HELD)
    requires r in t.nodes && t.nodes[r].status.Running? && r !in t.tasks
    ensures Shows(u, Bare(t.(tasks := t.tasks[r := TaskRow(TaskStatus.Running, 0, None)])))
  {
    hide Reachable, RunStep, BookStep, LeaseStep, Capture, FinishTask, Transition, CreateTask;
    assert t.tasks[r := TaskRow(TaskStatus.Pending, 0, None)][r := TaskRow(TaskStatus.Running, 0, None)]
        == t.tasks[r := TaskRow(TaskStatus.Running, 0, None)];
    u := Take(t, BeginTask(At(0), r, 0), Bare(t.(tasks := t.tasks[r := TaskRow(TaskStatus.Running, 0, None)])));
  }

  lemma LockTaken(t: Tables, r: NodeRun, token: Token) returns (u: Tables)
    requires Reachable(t) && (if t.lock.None? then token == 1 else t.lock.value.released && token == t.lock.value.token + 1)
    ensures Shows(u, Bare(t.(lock := Some(LockRow(Worker(r), token, 50, false)))))
  {
    hide Reachable, TaskStep, RunStep, BookStep;
    u := Take(t, TakeLock(Worker(r), 50, 0), Bare(t.(lock := Some(LockRow(Worker(r), token, 50, false)))));
  }

  function Worker(r: NodeRun): Holder {
    Holder(OwnerKind.AgentTask, TaskOf(r), 1)
  }

  lemma FirstReadied() returns (t: Tables)
    ensures Shows(t, Stage(RunStatus.Running, Four(DONE, Is(NodeStatus.Ready), Is(NodeStatus.Pending), Is(NodeStatus.Pending)),
                           map[], map[], map[], None))
  {
    hide Reachable;
    var p := Is(NodeStatus.Pending);
    t := Started();
    t := ClaimChain(t, 1, Four(Is(NodeStatus.Running), p, p, p));
    t := InputDone(t);
    assert t.nodes == Four(DONE, p, p, p);
    t := StartChain(t, DONE, p, p, DONE, Is(NodeStatus.Ready), p);
  }

  /** The first agent runs, its task holds the workspace. */
  lemma FirstRuns() returns (t: Tables)
    ensures Shows(t, Stage(RunStatus.Running, Four(DONE, Is(NodeStatus.Running), Is(NodeStatus.Pending), Is(NodeStatus.Pending)),
                           map[FIRST := TaskRow(TaskStatus.Running, 0, None)], map[], map[], Some(LockRow(Worker(FIRST), 1, 50, false))))
  {
    hide Reachable;
    t := FirstReadied();
    t := ClaimChain(t, 2, Four(DONE, Is(NodeStatus.Running), Is(NodeStatus.Pending), Is(NodeStatus.Pending)));
    t := TaskBegins(t, FIRST);
    t := LockTaken(t, FIRST, 1);
  }

  function Request(s: RequestStatus): RequestRow {
    RequestRow(FIRST, 9, Risk.L1, s)
  }

  /** An approval that lasts until five. */
  function Asked(s: ApprovalStatus, version: nat): ApprovalRow {
    ApprovalRow(FIRST, OfRequest(1), 8, 8, Risk.L1, s, version, None, None, None, 5)
  }

  /** The first agent has asked for a privilege. */
  lemma FirstAsks() returns (t: Tables)
    ensures Shows(t, Stage(RunStatus.Running, Four(DONE, Is(NodeStatus.Running), Is(NodeStatus.Pending), Is(NodeStatus.Pending)),
                           map[FIRST := TaskRow(TaskStatus.Running, 0, None)], map[1 := Asked(ApprovalStatus.Pending, 1)],
                           map[1 := Request(RequestStatus.WaitingApproval)], Some(LockRow(Worker(FIRST), 1, 50, false))))
  {
    hide Reachable, TaskStep, RunStep, LeaseStep, Decide, ExpireDue, CreateApproval, Renew, CreateGrant, Consume, Cancel;
    t := FirstRuns();
    assert forall b :: !PendingOn(t, OfRequest(1), b);
    t := Take(t, NewRequestAndApproval(At(0), 1, Request(RequestStatus.Pending), WorkLease(Worker(FIRST), 1), 1, Asked(ApprovalStatus.Pending, 1)),
      Bare(t.(approvals := map[1 := Asked(ApprovalStatus.Pending, 1)], requests := map[1 := Request(RequestStatus.WaitingApproval)])));
  }

  // ---------------------------------------------------------------- waits that are lost

  /** The approval runs out while its node still runs. */
  lemma FirstLapses() returns (t: Tables)
    ensures Shows(t, Stage(RunStatus.Running, Four(DONE, Is(NodeStatus.Running), Is(NodeStatus.Pending), Is(NodeStatus.Pending)),
                           map[FIRST := TaskRow(TaskStatus.Running, 0, None)], map[1 := Asked(ApprovalStatus.Expired, 2)],
                           map[1 := Request(RequestStatus.Expired)], Some(LockRow(Worker(FIRST), 1, 50, false))))
  {
    hide Reachable, Four, ExpireRows;
    t := FirstAsks();
    assert Fetched([1], DueApprovals(t, 10)) by { DueOnly(t); }
    FirstExpires(t);
    t := Take(t, ExpireApprovals(At(10), [1]),
      Bare(t.(approvals := map[1 := Asked(ApprovalStatus.Expired, 2)], requests := map[1 := Request(RequestStatus.Expired)])));
  }

  lemma DueOnly(t: Tables)
    requires t.approvals == map[1 := Asked(ApprovalStatus.Pending, 1)]
    ensures Fetched([1], DueApprovals(t, 10))
  {
    assert forall r :: r in [1] <==> r == 1;
  }

  /** A running first attempt may be parked by its task's own lease. */
  lemma Parks(t: Tables, r: NodeRun, token: Token, now: int)
    requires t.run == RunRow(RunStatus.Running, false, false, 0) && t.master == Some(HELD) && now < 50
    requires t.lock == Some(LockRow(Worker(r), token, 50, false)) && r.attempt == 1
    requires r in t.nodes && t.nodes[r].status.Running? && r in t.tasks && t.tasks[r].status.Running?
    requires forall s | s in t.nodes :: s.attempt == 1
    ensures PrepareRetry(t, At(now), r, 1, WorkLease(Worker(r), token)).Ok?
  {
  }

  /** The approval runs out before its node is parked on it: a reachable state in
      which preparing the retry, by a caller that names its own approval, leaves a
      wait that nothing attends. */
  lemma ExpiredBeforeWait() returns (t: Tables, w: WorkLease)
    ensures Reachable(t) && Proper(t, AwaitPrivilege(At(10), FIRST, 1, w)) && PrepareRetry(t, At(10), FIRST, 1, w).Ok?
    ensures var u := PrepareRetry(t, At(10), FIRST, 1, w).value; !Attended(u) && Stranded(u, FIRST)
  {
    hide Reachable, Attended, Stranded, Sound, PrepareRetry;
    t := FirstLapses();
    w := WorkLease(Worker(FIRST), 1);
    ReachableSound(t);
    Parks(t, FIRST, 1, 10);
    LostWakeUp(t, At(10), FIRST, 1, w);
  }

  lemma FirstExpires(t: Tables)
    requires t.approvals == map[1 := Asked(ApprovalStatus.Pending, 1)] && t.requests == map[1 := Request(RequestStatus.WaitingApproval)]
    requires t.run.status.Running?
    ensures ExpireRows(t, [1]).Ok?
    ensures Bare(ExpireRows(t, [1]).value)
      == Bare(t.(approvals := map[1 := Asked(ApprovalStatus.Expired, 2)], requests := map[1 := Request(RequestStatus.Expired)]))
  {
    hide RejectPrivilegeIn, ExpireOne;
    var none: seq<int> := [];
    assert [1][..|[1]| - 1] == none;
    assert ExpireRows(t, none) == Ok(t);
    FirstExpired(t);
  }

  lemma FirstExpired(t: Tables)
    requires t.approvals == map[1 := Asked(ApprovalStatus.Pending, 1)] && t.requests == map[1 := Request(RequestStatus.WaitingApproval)]
    requires t.run.status.Running?
    ensures ExpireOne(t, 1).Ok?
    ensures Bare(ExpireOne(t, 1).value)
      == Bare(t.(approvals := map[1 := Asked(ApprovalStatus.Expired, 2)], requests := map[1 := Request(RequestStatus.Expired)]))
  {
    hide RejectPrivilegeIn;
    assert t.approvals[1 := Asked(ApprovalStatus.Expired, 2)] == map[1 := Asked(ApprovalStatus.Expired, 2)];
    assert t.requests[1 := Request(RequestStatus.Expired)] == map[1 := Request(RequestStatus.Expired)];
  }

  const REFUSAL := Decision(1, 1, 8, ApprovalStatus.Rejected, 4, 6)

  lemma FirstParks(t: Tables) returns (u: Tables)
    requires Shows(t, Stage(RunStatus.Running, Four(DONE, Is(NodeStatus.Running), Is(NodeStatus.Pending), Is(NodeStatus.Pending)),
                           map[FIRST := TaskRow(TaskStatus.Running, 0, None)], map[1 := Asked(ApprovalStatus.Pending, 1)],
                           map[1 := Request(RequestStatus.WaitingApproval)], Some(LockRow(Worker(FIRST), 1, 50, false))))
    ensures Shows(u, Stage(RunStatus.WaitingApproval,
                           Four(DONE, NodeRow(NodeStatus.WaitingApproval, None, Some(ForPrivilege(1))), Is(NodeStatus.Pending), Is(NodeStatus.Pending)),
                           map[FIRST := TaskRow(TaskStatus.PrivilegeRequested, 0, None)], map[1 := Asked(ApprovalStatus.Pending, 1)],
                           map[1 := Request(RequestStatus.WaitingApproval)], Some(LockRow(Worker(FIRST), 1, 50, false))))
  {
    hide Reachable, TaskStep, BookStep, LeaseStep, Start, Claim, EnterWaiting, BeginMerge, ClearMerge, FinalizeMerge, Orphan;
    FourEnds(DONE, Is(NodeStatus.Running), Is(NodeStatus.Pending), Is(NodeStatus.Pending),
      NodeRow(NodeStatus.WaitingApproval, None, Some(ForPrivilege(1))));
    assert MayRetry(t, FIRST);
    u := Take(t, AwaitPrivilege(At(0), FIRST, 1, WorkLease(Worker(FIRST), 1)), Stage(RunStatus.WaitingApproval,
      Four(DONE, NodeRow(NodeStatus.WaitingApproval, None, Some(ForPrivilege(1))), Is(NodeStatus.Pending), Is(NodeStatus.Pending)),
      map[FIRST := TaskRow(TaskStatus.PrivilegeRequested, 0, None)], map[1 := Asked(ApprovalStatus.Pending, 1)],
      map[1 := Request(RequestStatus.WaitingApproval)], Some(LockRow(Worker(FIRST), 1, 50, false))));
  }

  /** The refused attempt ends, and the second agent becomes ready. */
  lemma FirstRefused(t: Tables) returns (u: Tables)
    requires Shows(t, Stage(RunStatus.WaitingApproval,
                           Four(DONE, NodeRow(NodeStatus.WaitingApproval, None, Some(ForPrivilege(1))), Is(NodeStatus.Pending), Is(NodeStatus.Pending)),
                           map[FIRST := TaskRow(TaskStatus.PrivilegeRequested, 0, None)], map[1 := Asked(ApprovalStatus.Pending, 1)],
                           map[1 := Request(RequestStatus.WaitingApproval)], Some(LockRow(Worker(FIRST), 1, 50, false))))
    ensures Shows(u, Stage(RunStatus.Running, Four(DONE, REJECTED, Is(NodeStatus.Ready), Is(NodeStatus.Pending)),
                           map[FIRST := TaskRow(TaskStatus.Failed, 0, None)],
                           map[1 := DecidedRow(Asked(ApprovalStatus.Pending, 1), REFUSAL)],
                           map[1 := Request(RequestStatus.Rejected)], Some(LockRow(Worker(FIRST), 1, 50, false))))
  {
    hide Reachable, Reconciled, RejectPrivilegeIn, RejectRequest, Four, Do, Decide;
    RefusalEnds(t);
    RefusalGoesThrough(t);
    assert Do(t, DecideApproval(At(1), REFUSAL, 60)) == Decide(t, At(1), REFUSAL, 60) by { DoDecides(t); }
    u := Take(t, DecideApproval(At(1), REFUSAL, 60), Stage(RunStatus.Running, Four(DONE, REJECTED, Is(NodeStatus.Ready), Is(NodeStatus.Pending)),
      map[FIRST := TaskRow(TaskStatus.Failed, 0, None)], map[1 := DecidedRow(Asked(ApprovalStatus.Pending, 1), REFUSAL)],
      map[1 := Request(RequestStatus.Rejected)], Some(LockRow(Worker(FIRST), 1, 50, false))));
  }

  lemma DoDecides(t: Tables)
    ensures Do(t, DecideApproval(At(1), REFUSAL, 60)) == Decide(t, At(1), REFUSAL, 60)
  {
    hide Decide;
  }

  lemma FourEnds(a: NodeRow, b: NodeRow, c: NodeRow, d: NodeRow, b2: NodeRow)
    ensures var rows := Four(a, b, c, d); FIRST in rows && rows[FIRST] == b && Next(FIRST) !in rows && rows[FIRST := b2] == Four(a, b2, c, d)
  {
  }

  lemma RefusalRows(t: Tables)
    requires t.graph == CHAIN && t.run == RunRow(RunStatus.WaitingApproval, false, false, 0)
    requires t.nodes == Four(DONE, NodeRow(NodeStatus.WaitingApproval, None, Some(ForPrivilege(1))), Is(NodeStatus.Pending), Is(NodeStatus.Pending))
    requires t.tasks == map[FIRST := TaskRow(TaskStatus.PrivilegeRequested, 0, None)]
    requires t.requests == map[1 := Request(RequestStatus.WaitingApproval)]
    ensures var asked := SetRequest(t, 1, RequestStatus.Rejected);
      && AwaitsPrivilege(asked, FIRST) && Next(FIRST) !in asked.nodes
      && Bare(EndRejected(asked, FIRST)) == Bare(t.(run := t.run.(status := RunStatus.Running),
           nodes := Four(DONE, REJECTED, Is(NodeStatus.Pending), Is(NodeStatus.Pending)),
           tasks := map[FIRST := TaskRow(TaskStatus.Failed, 0, None)], requests := map[1 := Request(RequestStatus.Rejected)]))
  {
    hide Four;
    var p := Is(NodeStatus.Pending);
    FourEnds(DONE, NodeRow(NodeStatus.WaitingApproval, None, Some(ForPrivilege(1))), p, p, REJECTED);
    assert t.tasks[FIRST := TaskRow(TaskStatus.Failed, 0, None)] == map[FIRST := TaskRow(TaskStatus.Failed, 0, None)];
    assert t.requests[1 := Request(RequestStatus.Rejected)] == map[1 := Request(RequestStatus.Rejected)];
  }

  lemma RefusalEnds(t: Tables)
    requires t.graph == CHAIN && t.run == RunRow(RunStatus.WaitingApproval, false, false, 0)
    requires t.nodes == Four(DONE, NodeRow(NodeStatus.WaitingApproval, None, Some(ForPrivilege(1))), Is(NodeStatus.Pending), Is(NodeStatus.Pending))
    requires t.tasks == map[FIRST := TaskRow(TaskStatus.PrivilegeRequested, 0, None)]
    requires t.requests == map[1 := Request(RequestStatus.WaitingApproval)]
    ensures RejectRequest(t, 1, FIRST).Ok?
    ensures Bare(RejectRequest(t, 1, FIRST).value) == Bare(t.(run := t.run.(status := RunStatus.Running),
      nodes := Four(DONE, REJECTED, Is(NodeStatus.Ready), Is(NodeStatus.Pending)),
      tasks := map[FIRST := TaskRow(TaskStatus.Failed, 0, None)], requests := map[1 := Request(RequestStatus.Rejected)]))
  {
    hide Reconciled, EndRejected, Four, Settled;
    var p := Is(NodeStatus.Pending);
    var ended := EndRejected(SetRequest(t, 1, RequestStatus.Rejected), FIRST);
    RefusalRows(t);
    RefusedSettles();
    ChainReconciled(ended, DONE, REJECTED, p, DONE, REJECTED, Is(NodeStatus.Ready));
  }

  lemma RefusedSettles()
    ensures Settled(DONE, REJECTED, Is(NodeStatus.Pending), DONE, REJECTED, Is(NodeStatus.Ready))
  {
  }

  lemma RefusalGoesThrough(t: Tables)
    requires t.approvals == map[1 := Asked(ApprovalStatus.Pending, 1)] && t.master == Some(HELD) && !RunClosed(t.run)
    requires RejectRequest(t, 1, FIRST).Ok?
    ensures Decide(t, At(1), REFUSAL, 60).Ok?
    ensures Bare(Decide(t, At(1), REFUSAL, 60).value)
      == Bare(RejectRequest(t, 1, FIRST).value.(approvals := map[1 := DecidedRow(Asked(ApprovalStatus.Pending, 1), REFUSAL)]))
  {
    hide RejectRequest, ApproveRequest, DecideChangeSet;
  }

  lemma SecondRuns() returns (t: Tables)
    ensures Shows(t, Stage(RunStatus.Running, Four(DONE, REJECTED, Is(NodeStatus.Running), Is(NodeStatus.Pending)),
                           map[FIRST := TaskRow(TaskStatus.Failed, 0, None), SECOND := TaskRow(TaskStatus.Running, 0, None)],
                           map[1 := DecidedRow(Asked(ApprovalStatus.Pending, 1), REFUSAL)],
                           map[1 := Request(RequestStatus.Rejected)], Some(LockRow(Worker(SECOND), 2, 50, false))))
  {
    hide Reachable, DecidedRow;
    t := FirstAsks();
    t := FirstParks(t);
    t := FirstRefused(t);
    t := ClaimChain(t, 3, Four(DONE, REJECTED, Is(NodeStatus.Running), Is(NodeStatus.Pending)));
    t := TaskBegins(t, SECOND);
    t := LockDropped(t, FIRST, 1);
    t := LockTaken(t, SECOND, 2);
  }

  /** The second agent is parked on the refused approval of the first: a wait for
      an approval already decided. */
  lemma DecidedBeforeWait() returns (t: Tables, w: WorkLease)
    ensures Reachable(t) && PrepareRetry(t, At(1), SECOND, 1, w).Ok?
    ensures var u := PrepareRetry(t, At(1), SECOND, 1, w).value; !Woken(u.nodes, u.approvals) && Stranded(u, SECOND)
  {
    hide Reachable, Woken, Stranded, Sound, Attended, PrepareRetry;
    t := SecondRuns();
    w := WorkLease(Worker(SECOND), 2);
    ReachableSound(t);
    Parks(t, SECOND, 2, 1);
    LostWakeUp(t, At(1), SECOND, 1, w);
  }

  lemma LockDropped(t: Tables, r: NodeRun, token: Token) returns (u: Tables)
    requires Reachable(t) && t.lock == Some(LockRow(Worker(r), token, 50, false))
    ensures Shows(u, Bare(t.(lock := Some(LockRow(Worker(r), token, 0, true)))))
  {
    hide Reachable, TaskStep, RunStep, BookStep;
    u := Take(t, DropLock(WorkLease(Worker(r), token), 0), Bare(t.(lock := Some(LockRow(Worker(r), token, 0, true)))));
  }

  // ---------------------------------------------------------------- requests born granted

  /** A request recorded as approved, or as consumed, without a grant. */
  lemma BornGranted(s: RequestStatus) returns (t: Tables, w: WorkLease)
    requires s.Approved? || s.Consumed?
    ensures Reachable(t) && CreateRequest(t, At(0), 1, Request(s), w).Ok?
    ensures var u := CreateRequest(t, At(0), 1, Request(s), w).value; !LedgerAgrees(u.approvals, u.requests, u.grants, u.tasks)
  {
    hide Reachable, LedgerAgrees, Sound;
    t := FirstRuns();
    w := WorkLease(Worker(FIRST), 1);
    ReachableSound(t);
    NewRequestLedger(t, At(0), 1, Request(s), w);
  }
}
