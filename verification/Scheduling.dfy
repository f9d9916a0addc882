/** The run scheduler: what a reconcile pass decides, the loop of passes, and
    the final run status. A pass decides from rows read once at its start. */
module Scheduling {
  import opened Graphs
  import opened Wrappers
  import opened Records

  type Rows = map<NodeRun, NodeRow>

  // ---------------------------------------------------------------- what one pass decides

  /** The compiled node with an id; the first one listed, as ids are unique. */
  function FindNode(nodes: seq<Node>, n: int): Node {
    if nodes == [] then Node(n, NodeKind.If, false)
    else if nodes[0].id == n then nodes[0]
    else FindNode(nodes[1..], n)
  }

  lemma {:induction false} FoundAt(nodes: seq<Node>, i: nat)
    requires i < |nodes| && forall j, k | 0 <= j < k < |nodes| :: nodes[j].id != nodes[k].id
    ensures FindNode(nodes, nodes[i].id) == nodes[i]
  {
    if i > 0 { FoundAt(nodes[1..], i - 1); }
  }

  predicate EdgeSatisfied(c: Condition, status: NodeStatus, outcome: Option<Outcome>) {
    if status.Skipped? || status.Superseded? || outcome.None? then false else
      var o := outcome.value;
      match c
      case OnSuccess => o.Success?
      case OnFailure => o.Failure? || o.Blocked?
      case OnMatched => o.Matched?
      case OnNotMatched => o.NotMatched?
      case OnApproved => o.Approved?
      case OnRejected => o.Rejected?
  }

  /** The outcomes that carry an edge, condition by condition. */
  const CARRYING: set<(Condition, Outcome)> := {
    (OnSuccess, Outcome.Success), (OnFailure, Outcome.Failure), (OnFailure, Outcome.Blocked), (OnMatched, Outcome.Matched),
    (OnNotMatched, Outcome.NotMatched), (OnApproved, Outcome.Approved), (OnRejected, Outcome.Rejected)}

  /** The decision of one edge is membership in that table. */
  lemma EdgeTable(c: Condition, status: NodeStatus, outcome: Option<Outcome>)
    ensures EdgeSatisfied(c, status, outcome) <==>
      !status.Skipped? && !status.Superseded? && outcome.Some? && (c, outcome.value) in CARRYING
  {
  }

  ghost predicate Resolved(g: Graph, nodes: Rows, n: int) {
    forall e | e in g.edges && e.target == n :: NodeDone(LatestRow(nodes, e.source).status)
  }

  ghost predicate Satisfied(g: Graph, nodes: Rows, n: int) {
    exists e :: e in g.edges && e.target == n && Holds(e.cond, LatestRow(nodes, e.source))
  }

  predicate Holds(c: Condition, row: NodeRow) {
    EdgeSatisfied(c, row.status, row.outcome)
  }

  /** The status a pending node is due, if its upstream nodes have settled. */
  ghost function Want(g: Graph, nodes: Rows, n: int): Option<NodeStatus> {
    if FindNode(g.nodes, n).kind.Input? then Some(NodeStatus.Ready)
    else if !Resolved(g, nodes, n) then None
    else Some(if Satisfied(g, nodes, n) then NodeStatus.Ready else NodeStatus.Skipped)
  }

  ghost function Target(g: Graph, nodes: Rows, n: int): Option<NodeStatus> {
    if LatestRow(nodes, n).status.Pending? then Want(g, nodes, n) else None
  }

  /** Every decision a pass takes, from the rows read at its start. */
  ghost function Due(g: Graph, seen: Rows): map<int, NodeStatus> {
    map n | n in Ids(g) && Target(g, seen, n).Some? :: Target(g, seen, n).value
  }

  ghost predicate Moves(g: Graph, nodes: Rows) {
    exists n :: n in GraphOrder(g) && n in Due(g, nodes)
  }

  // ---------------------------------------------------------------- the loop

  /** One pass over `order`, writing the decisions in `due`. */
  function Pass(seen: Rows, due: map<int, NodeStatus>, order: seq<int>, t: Tables): (r: Tables)
    ensures r == t.(nodes := r.nodes, log := r.log, nextSeq := r.nextSeq)
  {
    if order == [] then t else
      var n := order[|order| - 1];
      var before := Pass(seen, due, order[..|order| - 1], t);
      if n !in due then before
      else MoveNode(before, Latest(seen, n), NodeStatus.Pending, LatestRow(seen, n).(status := due[n]))
  }

  ghost function PassOver(t: Tables): Tables {
    Pass(t.nodes, Due(t.graph, t.nodes), GraphOrder(t.graph), t)
  }

  ghost function PendingRows(nodes: Rows): set<NodeRun> {
    set r | r in nodes && nodes[r].status.Pending?
  }

  /** What a pass leaves of the rows it read. */
  predicate Passed(seen: Rows, due: map<int, NodeStatus>, order: seq<int>, nodes: Rows) {
    && nodes.Keys == seen.Keys
    && forall r | r in seen :: nodes[r] ==
         if r == Latest(seen, r.node) && r.node in order && r.node in due
         then seen[r].(status := due[r.node]) else seen[r]
  }

  lemma {:induction false} PassRows(seen: Rows, due: map<int, NodeStatus>, order: seq<int>, t: Tables)
    requires t.nodes == seen && forall n | n in due :: Latest(seen, n) in seen
    ensures Passed(seen, due, order, Pass(seen, due, order, t).nodes)
  {
    if order != [] {
      var n, init := order[|order| - 1], order[..|order| - 1];
      PassRows(seen, due, init, t);
      PassedStep(seen, due, init, n, Pass(seen, due, init, t).nodes);
      assert order == init + [n];
    }
  }

  lemma PassedStep(seen: Rows, due: map<int, NodeStatus>, order: seq<int>, n: int, nodes: Rows)
    requires Passed(seen, due, order, nodes) && (n in due ==> Latest(seen, n) in seen)
    ensures Passed(seen, due, order + [n],
              if n in due then nodes[Latest(seen, n) := LatestRow(seen, n).(status := due[n])] else nodes)
  {
    assert forall m :: m in order + [n] <==> m in order || m == n;
  }

  lemma {:induction false} DueRows(g: Graph, seen: Rows)
    ensures forall n | n in Due(g, seen) ::
      Latest(seen, n) in seen && LatestRow(seen, n).status.Pending? && (Due(g, seen)[n].Ready? || Due(g, seen)[n].Skipped?)
  {
    forall n | n in Due(g, seen)
      ensures Latest(seen, n) in seen && LatestRow(seen, n).status.Pending? && (Due(g, seen)[n].Ready? || Due(g, seen)[n].Skipped?)
    {
      assert Target(g, seen, n).Some?;
    }
  }

  lemma PassShrinks(t: Tables)
    requires Moves(t.graph, t.nodes)
    ensures PendingRows(PassOver(t).nodes) < PendingRows(t.nodes)
  {
    DueRows(t.graph, t.nodes);
    PassMoved(t.nodes, Due(t.graph, t.nodes), GraphOrder(t.graph), t);
  }

  lemma PassMoved(seen: Rows, due: map<int, NodeStatus>, order: seq<int>, t: Tables)
    requires t.nodes == seen
    requires forall n | n in due :: Latest(seen, n) in seen && LatestRow(seen, n).status.Pending? && (due[n].Ready? || due[n].Skipped?)
    requires exists n :: n in order && n in due
    ensures PendingRows(Pass(seen, due, order, t).nodes) < PendingRows(seen)
  {
    PassRows(seen, due, order, t);
    var n :| n in order && n in due;
    assert Latest(seen, n) in PendingRows(seen);
  }

  ghost function Passes(t: Tables): (r: Tables)
    ensures r == t.(nodes := r.nodes, log := r.log, nextSeq := r.nextSeq)
    ensures !Moves(r.graph, r.nodes)
    decreases PendingRows(t.nodes)
  {
    if !Moves(t.graph, t.nodes) then t else
      PassShrinks(t);
      Passes(PassOver(t))
  }

  predicate AllDone(nodes: Rows) {
    forall r | r in nodes :: NodeDone(nodes[r].status)
  }

  /** The run status once every node run is terminal. The output row is the
      first fetched, which is the first attempt. */
  function FinalStatus(g: Graph, nodes: Rows): (s: RunStatus)
    ensures s.Completed? || s.Blocked? || s.Failed?
  {
    var out := Row(nodes, NodeRun(OutputOf(g.nodes), 1));
    if out.status.Completed? && out.outcome.Some? && (out.outcome.value.Success? || out.outcome.value.Rejected?)
    then RunStatus.Completed
    else if exists r :: r in nodes && nodes[r].status.BlockedByGuard? then RunStatus.Blocked
    else RunStatus.Failed
  }

  /** The first output node listed; a compiled graph has exactly one. */
  function OutputOf(nodes: seq<Node>): int {
    if nodes == [] then 0
    else if nodes[0].kind.Output? then nodes[0].id
    else OutputOf(nodes[1..])
  }

  function Finish(t: Tables): Tables {
    if AllDone(t.nodes) then MoveRun(t, RunStatus.Running, FinalStatus(t.graph, t.nodes)) else t
  }

  ghost function Reconciled(t: Tables): Tables {
    Finish(Passes(t))
  }

  // ---------------------------------------------------------------- the loop as one equation

  /** Each row is as it was, or was pending and has what the rows now want. */
  ghost predicate Partial(g: Graph, was: Rows, nodes: Rows) {
    && nodes.Keys == was.Keys
    && forall r | r in was :: nodes[r] == was[r] || DueIn(g, was, nodes, r)
  }

  ghost predicate DueIn(g: Graph, was: Rows, nodes: Rows, r: NodeRun)
    requires r in was && r in nodes
  {
    && r == Latest(was, r.node) && was[r].status.Pending?
    && Want(g, nodes, r.node).Some?
    && nodes[r] == was[r].(status := Want(g, nodes, r.node).value)
  }

  /** Nothing is left to decide: pending rows are exactly those not yet due. */
  ghost predicate Closed(g: Graph, was: Rows, nodes: Rows) {
    && Partial(g, was, nodes)
    && forall n | n in Ids(g) :: LatestRow(nodes, n).status.Pending? ==> Want(g, nodes, n).None?
  }

  lemma {:induction false} WantStable(g: Graph, a: Rows, b: Rows, n: int)
    requires a.Keys == b.Keys
    requires forall r | r in a :: NodeDone(a[r].status) ==> a[r] == b[r]
    ensures Want(g, a, n).Some? ==> Want(g, b, n) == Want(g, a, n)
  {
    if Resolved(g, a, n) {
      forall e | e in g.edges && e.target == n ensures LatestRow(b, e.source) == LatestRow(a, e.source) {}
      assert Satisfied(g, a, n) <==> Satisfied(g, b, n);
    }
  }

  lemma {:induction false} PassKeepsPartial(was: Rows, t: Tables)
    requires Partial(t.graph, was, t.nodes)
    ensures Partial(t.graph, was, PassOver(t).nodes)
  {
    var due := Due(t.graph, t.nodes);
    var after := PassOver(t).nodes;
    DueRows(t.graph, t.nodes);
    PassRows(t.nodes, due, GraphOrder(t.graph), t);
    forall r | r in was ensures after[r] == was[r] || DueIn(t.graph, was, after, r) {
      WantStable(t.graph, t.nodes, after, r.node);
      if r.node in due { assert Target(t.graph, t.nodes, r.node).Some?; }
    }
  }

  lemma {:induction false} PassesPartial(was: Rows, t: Tables)
    requires Partial(t.graph, was, t.nodes)
    ensures Partial(t.graph, was, Passes(t).nodes)
    decreases PendingRows(t.nodes)
  {
    if Moves(t.graph, t.nodes) {
      PassKeepsPartial(was, t);
      PassShrinks(t);
      PassesPartial(was, PassOver(t));
    }
  }

  lemma QuietTargets(g: Graph, nodes: Rows)
    requires Acyclic(Ids(g), Links(g)) && !Moves(g, nodes)
    ensures forall n | n in Ids(g) :: Target(g, nodes, n).None?
  {
    OrderCoversIffAcyclic(Ids(g), Links(g));
    forall n | n in Ids(g) ensures Target(g, nodes, n).None? {
      assert n in (set x | x in GraphOrder(g));
      assert n !in Due(g, nodes);
    }
  }

  lemma PassesClosed(t: Tables)
    requires Acyclic(Ids(t.graph), Links(t.graph))
    ensures Closed(t.graph, t.nodes, Passes(t).nodes)
  {
    PassesPartial(t.nodes, t);
    QuietTargets(t.graph, Passes(t).nodes);
    forall n | n in Ids(t.graph) && LatestRow(Passes(t).nodes, n).status.Pending?
      ensures Want(t.graph, Passes(t).nodes, n).None?
    {
      assert Target(t.graph, Passes(t).nodes, n).None?;
    }
  }

  lemma {:induction false} ClosedAgree(g: Graph, was: Rows, a: Rows, b: Rows, order: seq<int>, k: nat)
    requires WellFormed(g) && IsOrder(Ids(g), Links(g), order) && k < |order|
    requires Closed(g, was, a) && Closed(g, was, b)
    ensures LatestRow(a, order[k]) == LatestRow(b, order[k])
    decreases k
  {
    var n := order[k];
    assert n in (set x | x in order);
    forall e | e in g.edges && e.target == n ensures LatestRow(a, e.source) == LatestRow(b, e.source) {
      assert (e.source, n) in Links(g);
      assert e.source in order[..k];
      var j :| 0 <= j < k && order[j] == e.source;
      ClosedAgree(g, was, a, b, order, j);
    }
    assert Satisfied(g, a, n) <==> Satisfied(g, b, n);
    assert Want(g, a, n) == Want(g, b, n);
  }

  /** The equation has one solution: what the loop computes does not depend on
      how its decisions are spread over passes. */
  lemma ClosedUnique(g: Graph, was: Rows, a: Rows, b: Rows)
    requires WellFormed(g) && Acyclic(Ids(g), Links(g))
    requires forall r | r in was :: r.node in Ids(g)
    requires Closed(g, was, a) && Closed(g, was, b)
    ensures a == b
  {
    OrderCoversIffAcyclic(Ids(g), Links(g));
    var order := GraphOrder(g);
    forall r | r in was ensures a[r] == b[r] {
      assert r.node in (set x | x in order);
      var k :| 0 <= k < |order| && order[k] == r.node;
      ClosedAgree(g, was, a, b, order, k);
    }
  }

  // ---------------------------------------------------------------- the fresh sweep

  /** One topological sweep that always looks at the freshest rows. */
  ghost function Sweep(g: Graph, order: seq<int>, was: Rows): Rows {
    if order == [] then was else
      var n := order[|order| - 1];
      var nodes := Sweep(g, order[..|order| - 1], was);
      match Target(g, nodes, n)
      case None => nodes
      case Some(s) => nodes[Latest(nodes, n) := LatestRow(nodes, n).(status := s)]
  }

  ghost predicate Swept(g: Graph, order: seq<int>, was: Rows, nodes: Rows) {
    && nodes.Keys == was.Keys
    && (forall r | r in was && !(r == Latest(was, r.node) && r.node in order) :: nodes[r] == was[r])
    && (forall n | n in order && Latest(was, n) in was :: SettledIn(g, was, nodes, n))
  }

  ghost predicate SettledIn(g: Graph, was: Rows, nodes: Rows, n: int) {
    var r := Latest(was, n);
    && r in was && r in nodes
    && nodes[r] == if was[r].status.Pending? && Want(g, nodes, n).Some?
                   then was[r].(status := Want(g, nodes, n).value) else was[r]
  }

  lemma {:induction false} WantLocal(g: Graph, a: Rows, b: Rows, n: int)
    requires forall e | e in g.edges && e.target == n :: LatestRow(a, e.source) == LatestRow(b, e.source)
    ensures Want(g, a, n) == Want(g, b, n)
  {
    assert Resolved(g, a, n) <==> Resolved(g, b, n);
    assert Satisfied(g, a, n) <==> Satisfied(g, b, n);
  }

  lemma {:induction false} SweepSettles(g: Graph, whole: seq<int>, k: nat, was: Rows)
    requires k <= |whole| && Distinct(whole) && Forward(Links(g), whole)
    ensures Swept(g, whole[..k], was, Sweep(g, whole[..k], was))
    decreases k
  {
    if k > 0 {
      var n, init := whole[k - 1], whole[..k - 1];
      assert whole[..k][..k - 1] == init && whole[..k] == init + [n];
      var a, b := Sweep(g, init, was), Sweep(g, whole[..k], was);
      SweepSettles(g, whole, k - 1, was);
      assert n !in init;
      forall m | m in whole[..k] ensures Want(g, b, m) == Want(g, a, m) {
        SweepWant(g, whole, k, was, m);
      }
    }
  }

  lemma {:induction false} SweepWant(g: Graph, whole: seq<int>, k: nat, was: Rows, m: int)
    requires 0 < k <= |whole| && Distinct(whole) && Forward(Links(g), whole) && m in whole[..k]
    ensures Want(g, Sweep(g, whole[..k], was), m) == Want(g, Sweep(g, whole[..k - 1], was), m)
  {
    var n, init := whole[k - 1], whole[..k - 1];
    assert whole[..k][..k - 1] == init;
    var i :| 0 <= i < k && whole[i] == m;
    var a, b := Sweep(g, init, was), Sweep(g, whole[..k], was);
    forall e | e in g.edges && e.target == m ensures LatestRow(a, e.source) == LatestRow(b, e.source) {
      assert (e.source, whole[i]) in Links(g);
      assert e.source in whole[..i];
      assert e.source != n;
    }
    WantLocal(g, a, b, m);
  }

  lemma SweepClosed(g: Graph, order: seq<int>, was: Rows)
    requires IsOrder(Ids(g), Links(g), order)
    ensures Closed(g, was, Sweep(g, order, was))
  {
    SweepSettles(g, order, |order|, was);
    assert order[..|order|] == order;
    var b := Sweep(g, order, was);
    forall n | n in Ids(g) ensures n in order { assert n in (set x | x in order); }
    forall r | r in was ensures b[r] == was[r] || DueIn(g, was, b, r) {
      if r == Latest(was, r.node) && r.node in order { assert SettledIn(g, was, b, r.node); }
    }
    forall n | n in Ids(g) && LatestRow(b, n).status.Pending? ensures Want(g, b, n).None? {
      assert SettledIn(g, was, b, n);
    }
  }

  /** The stale-row loop of passes computes the rows of one fresh sweep. */
  lemma LoopEqualsSweep(t: Tables)
    requires WellFormed(t.graph) && Acyclic(Ids(t.graph), Links(t.graph))
    requires forall r | r in t.nodes :: r.node in Ids(t.graph)
    ensures Passes(t).nodes == Sweep(t.graph, GraphOrder(t.graph), t.nodes)
  {
    OrderCoversIffAcyclic(Ids(t.graph), Links(t.graph));
    SweepClosed(t.graph, GraphOrder(t.graph), t.nodes);
    PassesClosed(t);
    ClosedUnique(t.graph, t.nodes, Passes(t).nodes, Sweep(t.graph, GraphOrder(t.graph), t.nodes));
  }

  // ---------------------------------------------------------------- progress

  lemma {:induction false} SettledBelow(g: Graph, nodes: Rows, order: seq<int>, k: nat)
    requires WellFormed(g) && IsOrder(Ids(g), Links(g), order) && k < |order|
    requires forall n | n in Ids(g) :: Target(g, nodes, n).None?
    requires forall n | n in Ids(g) :: LatestRow(nodes, n).status.Pending? || NodeDone(LatestRow(nodes, n).status)
    ensures NodeDone(LatestRow(nodes, order[k]).status)
    decreases k
  {
    var n := order[k];
    assert n in (set x | x in order);
    forall e | e in g.edges && e.target == n ensures NodeDone(LatestRow(nodes, e.source).status) {
      assert (e.source, n) in Links(g);
      assert e.source in order[..k];
      var j :| 0 <= j < k && order[j] == e.source;
      SettledBelow(g, nodes, order, j);
    }
    assert Resolved(g, nodes, n);
    assert n in Ids(g) && Target(g, nodes, n).None?;
  }

  /** No deadlock: rows a pass would not change, none of them under way, are
      all terminal. */
  lemma NothingStuck(g: Graph, nodes: Rows)
    requires WellFormed(g) && Acyclic(Ids(g), Links(g))
    requires !Moves(g, nodes)
    requires forall n | n in Ids(g) :: LatestRow(nodes, n).status.Pending? || NodeDone(LatestRow(nodes, n).status)
    ensures forall n | n in Ids(g) :: NodeDone(LatestRow(nodes, n).status)
  {
    OrderCoversIffAcyclic(Ids(g), Links(g));
    QuietTargets(g, nodes);
    var order := GraphOrder(g);
    forall n | n in Ids(g) ensures NodeDone(LatestRow(nodes, n).status) {
      assert n in (set x | x in order);
      var k :| 0 <= k < |order| && order[k] == n;
      SettledBelow(g, nodes, order, k);
    }
  }
}
