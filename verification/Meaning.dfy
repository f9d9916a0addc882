/** What a compiled graph means: a direct recursive evaluation, given one answer
    per node, and rows that are on their way to it. */
module Meaning {
  import opened Graphs
  import opened Wrappers
  import opened Records
  import opened Scheduling

  datatype Verdict = Verdict(status: NodeStatus, outcome: Option<Outcome>)

  type Verdicts = map<int, Verdict>

  /** Terminal statuses with the outcomes a handler may report with them. */
  predicate Legal(v: Verdict) {
    && v.outcome.Some?
    && (v.status.Completed? ==>
          v.outcome.value.Success? || v.outcome.value.Matched? || v.outcome.value.NotMatched?
          || v.outcome.value.Approved? || v.outcome.value.Rejected?)
    && (v.status.Failed? ==> v.outcome.value.Failure?)
    && (v.status.BlockedByGuard? ==> v.outcome.value.Blocked?)
    && (v.status.Completed? || v.status.Failed? || v.status.BlockedByGuard?)
  }

  ghost predicate Answers(g: Graph, answers: Verdicts) {
    forall n | n in Ids(g) :: n in answers && Legal(answers[n])
  }

  // ---------------------------------------------------------------- evaluation

  ghost predicate Runs(g: Graph, m: Verdicts, n: int) {
    || FindNode(g.nodes, n).kind.Input?
    || exists e :: e in g.edges && e.target == n && e.source in m && Activates(e.cond, m[e.source])
  }

  /** A verdict that carries an edge: an outcome the edge's condition names, of a
      node that was neither skipped nor superseded. */
  predicate Activates(c: Condition, v: Verdict) {
    v.outcome.Some? && (c, v.outcome.value) in CARRYING && !v.status.Skipped? && !v.status.Superseded?
  }

  /** Every node runs and gives its answer, or is skipped. */
  ghost predicate IsMeaning(g: Graph, answers: Verdicts, m: Verdicts)
    requires Answers(g, answers)
  {
    && m.Keys == Ids(g)
    && forall n | n in Ids(g) :: m[n] == Expected(g, answers, m, n)
  }

  ghost function Expected(g: Graph, answers: Verdicts, m: Verdicts, n: int): Verdict
    requires Answers(g, answers) && n in Ids(g)
  {
    if Runs(g, m, n) then answers[n] else Verdict(NodeStatus.Skipped, None)
  }

  ghost function Evaluate(g: Graph, answers: Verdicts, order: seq<int>): (m: Verdicts)
    requires Answers(g, answers) && forall n | n in order :: n in Ids(g)
    ensures m.Keys == (set n | n in order)
  {
    if order == [] then map[] else
      var n, init := order[|order| - 1], order[..|order| - 1];
      assert order == init + [n];
      var m := Evaluate(g, answers, init);
      m[n := Expected(g, answers, m, n)]
  }

  lemma {:induction false} RunsLocal(g: Graph, a: Verdicts, b: Verdicts, n: int)
    requires forall e | e in g.edges && e.target == n ::
      (e.source in a <==> e.source in b) && (e.source in a ==> a[e.source] == b[e.source])
    ensures Runs(g, a, n) <==> Runs(g, b, n)
  {
  }

  lemma {:induction false} EvaluateSettles(g: Graph, answers: Verdicts, order: seq<int>, k: nat)
    requires Answers(g, answers) && WellFormed(g) && k <= |order|
    requires Distinct(order) && Forward(Links(g), order) && forall n | n in order :: n in Ids(g)
    ensures forall n | n in order[..k] ::
      Evaluate(g, answers, order[..k])[n] == Expected(g, answers, Evaluate(g, answers, order[..k]), n)
    decreases k
  {
    if k > 0 {
      var init := order[..k - 1];
      assert order[..k][..k - 1] == init && order[..k] == init + [order[k - 1]];
      EvaluateSettles(g, answers, order, k - 1);
      var a, b := Evaluate(g, answers, init), Evaluate(g, answers, order[..k]);
      forall n | n in order[..k] ensures Runs(g, a, n) <==> Runs(g, b, n) {
        var i :| 0 <= i < k && order[i] == n;
        forall e | e in g.edges && e.target == n
          ensures (e.source in a <==> e.source in b) && (e.source in a ==> a[e.source] == b[e.source])
        {
          assert (e.source, order[i]) in Links(g);
          assert e.source in order[..i];
          assert e.source in init;
          assert e.source != order[k - 1];
        }
        RunsLocal(g, a, b, n);
      }
    }
  }

  lemma MeaningExists(g: Graph, answers: Verdicts)
    requires Answers(g, answers) && WellFormed(g) && Acyclic(Ids(g), Links(g))
    ensures forall n :: n in GraphOrder(g) <==> n in Ids(g)
    ensures IsMeaning(g, answers, Evaluate(g, answers, GraphOrder(g)))
  {
    var order := GraphOrder(g);
    OrderCoversIffAcyclic(Ids(g), Links(g));
    forall n ensures n in order <==> n in Ids(g) { assert n in order <==> n in (set x | x in order); }
    EvaluateSettles(g, answers, order, |order|);
    assert order[..|order|] == order;
  }

  lemma {:induction false} MeaningAgrees(g: Graph, answers: Verdicts, a: Verdicts, b: Verdicts, order: seq<int>, k: nat)
    requires Answers(g, answers) && WellFormed(g) && IsOrder(Ids(g), Links(g), order) && k < |order|
    requires IsMeaning(g, answers, a) && IsMeaning(g, answers, b)
    ensures order[k] in a && order[k] in b && a[order[k]] == b[order[k]]
    decreases k
  {
    var n := order[k];
    assert n in (set x | x in order);
    forall e | e in g.edges && e.target == n ensures e.source in a && e.source in b && a[e.source] == b[e.source] {
      assert (e.source, n) in Links(g);
      assert e.source in order[..k];
      var j :| 0 <= j < k && order[j] == e.source;
      MeaningAgrees(g, answers, a, b, order, j);
    }
    RunsLocal(g, a, b, n);
  }

  lemma MeaningUnique(g: Graph, answers: Verdicts, a: Verdicts, b: Verdicts)
    requires Answers(g, answers) && WellFormed(g) && Acyclic(Ids(g), Links(g))
    requires IsMeaning(g, answers, a) && IsMeaning(g, answers, b)
    ensures a == b
  {
    OrderCoversIffAcyclic(Ids(g), Links(g));
    var order := GraphOrder(g);
    forall n | n in Ids(g) ensures a[n] == b[n] {
      assert n in (set x | x in order);
      var k :| 0 <= k < |order| && order[k] == n;
      MeaningAgrees(g, answers, a, b, order, k);
    }
  }

  // ---------------------------------------------------------------- rows on their way

  ghost predicate Busy(s: NodeStatus) {
    s.Ready? || s.Running? || s.WaitingApproval?
  }

  ghost predicate OnCourse(g: Graph, m: Verdicts, n: int, row: NodeRow) {
    && n in m
    && (NodeDone(row.status) ==> m[n] == Verdict(row.status, row.outcome))
    && (Busy(row.status) ==> Runs(g, m, n))
    && (row.status.Pending? ==> row.outcome.None?)
  }

  /** One attempt per node, and none has strayed from the meaning. */
  ghost predicate Follows(g: Graph, m: Verdicts, nodes: Rows) {
    && (forall n | n in Ids(g) :: NodeRun(n, 1) in nodes && OnCourse(g, m, n, nodes[NodeRun(n, 1)]))
    && (forall r | r in nodes :: r.node in Ids(g) && r.attempt == 1)
  }

  /** Settling the pending rows keeps every row on course. */
  lemma {:induction false} SettlingFollows(g: Graph, answers: Verdicts, m: Verdicts, was: Rows, nodes: Rows)
    requires WellFormed(g) && Acyclic(Ids(g), Links(g)) && Answers(g, answers) && IsMeaning(g, answers, m)
    requires Follows(g, m, was) && Partial(g, was, nodes)
    ensures Follows(g, m, nodes)
  {
    OrderCoversIffAcyclic(Ids(g), Links(g));
    var order := GraphOrder(g);
    forall n | n in Ids(g) ensures OnCourse(g, m, n, nodes[NodeRun(n, 1)]) {
      assert n in (set x | x in order);
      var k :| 0 <= k < |order| && order[k] == n;
      SettlesOnCourse(g, answers, m, was, nodes, order, k);
    }
  }

  lemma {:induction false} SettlesOnCourse(g: Graph, answers: Verdicts, m: Verdicts, was: Rows, nodes: Rows,
      order: seq<int>, k: nat)
    requires WellFormed(g) && Answers(g, answers) && IsMeaning(g, answers, m)
    requires IsOrder(Ids(g), Links(g), order) && k < |order|
    requires Follows(g, m, was) && Partial(g, was, nodes)
    ensures order[k] in Ids(g) && OnCourse(g, m, order[k], nodes[NodeRun(order[k], 1)])
    decreases k
  {
    var n := order[k];
    assert n in (set x | x in order);
    var r := NodeRun(n, 1);
    assert NodeRun(n, 2) !in was;
    if nodes[r] != was[r] {
      assert DueIn(g, was, nodes, r);
      forall e | e in g.edges && e.target == n
        ensures e.source in m && OnCourse(g, m, e.source, LatestRow(nodes, e.source))
      {
        assert (e.source, n) in Links(g);
        assert e.source in order[..k];
        var j :| 0 <= j < k && order[j] == e.source;
        SettlesOnCourse(g, answers, m, was, nodes, order, j);
        assert NodeRun(e.source, 2) !in was;
      }
      WantAgrees(g, m, nodes, n);
    }
  }

  lemma WantAgrees(g: Graph, m: Verdicts, nodes: Rows, n: int)
    requires Want(g, nodes, n).Some?
    requires forall e | e in g.edges && e.target == n ::
      e.source in m && OnCourse(g, m, e.source, LatestRow(nodes, e.source))
    ensures Want(g, nodes, n).value.Ready? <==> Runs(g, m, n)
    ensures Want(g, nodes, n).value.Skipped? <==> !Runs(g, m, n)
  {
    if !FindNode(g.nodes, n).kind.Input? {
      forall e | e in g.edges && e.target == n
        ensures Holds(e.cond, LatestRow(nodes, e.source)) == Activates(e.cond, m[e.source])
      {
        assert NodeDone(LatestRow(nodes, e.source).status);
        EdgeTable(e.cond, LatestRow(nodes, e.source).status, LatestRow(nodes, e.source).outcome);
      }
    }
  }

  // ---------------------------------------------------------------- the run's final status

  ghost function StatusOf(g: Graph, m: Verdicts): RunStatus
    requires OutputOf(g.nodes) in m
  {
    var out := m[OutputOf(g.nodes)];
    if out.status.Completed? && out.outcome.Some? && (out.outcome.value.Success? || out.outcome.value.Rejected?)
    then RunStatus.Completed
    else if exists n :: n in m && m[n].status.BlockedByGuard? then RunStatus.Blocked
    else RunStatus.Failed
  }

  /** Once all rows are terminal they are the meaning, and so is the run status. */
  lemma DoneIsMeaning(g: Graph, answers: Verdicts, m: Verdicts, nodes: Rows)
    requires WellFormed(g) && Answers(g, answers) && IsMeaning(g, answers, m) && OutputOf(g.nodes) in Ids(g)
    requires Follows(g, m, nodes) && AllDone(nodes)
    ensures forall n | n in Ids(g) :: Verdict(nodes[NodeRun(n, 1)].status, nodes[NodeRun(n, 1)].outcome) == m[n]
    ensures FinalStatus(g, nodes) == StatusOf(g, m)
  {
    forall n | n in Ids(g) ensures Verdict(nodes[NodeRun(n, 1)].status, nodes[NodeRun(n, 1)].outcome) == m[n] {
      assert NodeDone(nodes[NodeRun(n, 1)].status);
    }
    if r :| r in nodes && nodes[r].status.BlockedByGuard? { assert m[r.node].status.BlockedByGuard?; }
    if n :| n in m && m[n].status.BlockedByGuard? { assert nodes[NodeRun(n, 1)].status.BlockedByGuard?; }
  }
}
