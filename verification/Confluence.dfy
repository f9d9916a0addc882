/** Whatever order nodes finish in, a run computes the meaning of its graph:
    fixed answers give one final state. */
module Confluence {
  import opened Graphs
  import opened Wrappers
  import opened Records
  import opened Leases
  import opened Scheduling
  import opened Meaning
  import opened WorkflowRuns
  import opened Approvals
  import opened Actions
  import opened Audit
  import opened RunInvariant
  import opened RunInvariantOfApprovals
  import opened Agreement
  import opened AgreementOnWithdrawal
  import opened Invariance
  import opened History
  import opened Timelines

  // ---------------------------------------------------------------- how steps move rows

  /** Rows that were under way move on among themselves or end. */
  ghost predicate Handled(was: Rows, mid: Rows) {
    && mid.Keys == was.Keys
    && forall r | r in was :: mid[r] == was[r] || (Busy(was[r].status) && (Busy(mid[r].status) || NodeDone(mid[r].status)))
  }

  /** A step handles rows under way, then settles pending ones. */
  ghost predicate Advances(g: Graph, was: Rows, nodes: Rows) {
    exists mid :: Handled(was, mid) && Partial(g, mid, nodes)
  }

  /** The nodes that ended gave their fixed answers. */
  ghost predicate Obeys(answers: Verdicts, was: Rows, nodes: Rows) {
    forall r | r in was && r in nodes && Busy(was[r].status) && NodeDone(nodes[r].status) ::
      r.node in answers && answers[r.node] == Verdict(nodes[r].status, nodes[r].outcome)
  }

  lemma AdvancingFollows(g: Graph, answers: Verdicts, m: Verdicts, was: Rows, nodes: Rows)
    requires WellFormed(g) && Acyclic(Ids(g), Links(g)) && Answers(g, answers) && IsMeaning(g, answers, m)
    requires Follows(g, m, was) && Advances(g, was, nodes) && Obeys(answers, was, nodes)
    requires forall r | r in nodes :: Plain(nodes[r])
    ensures Follows(g, m, nodes)
  {
    hide Acyclic, WellFormed, Legal, Want;
    var mid: Rows :| Handled(was, mid) && Partial(g, mid, nodes);
    forall n: int | n in Ids(g) ensures OnCourse(g, m, n, mid[NodeRun(n, 1)]) {
      var r := NodeRun(n, 1);
      assert OnCourse(g, m, n, was[r]);
      if mid[r] != was[r] && NodeDone(mid[r].status) {
        assert nodes[r] == mid[r];
        assert answers[n] == Verdict(nodes[r].status, nodes[r].outcome);
      }
    }
    SettlingFollows(g, answers, m, mid, nodes);
  }

  lemma SameAdvances(g: Graph, was: Rows, nodes: Rows)
    requires Handled(was, nodes)
    ensures Advances(g, was, nodes)
  {
    assert Partial(g, nodes, nodes);
  }

  lemma ReconciledAdvances(t: Tables, was: Rows)
    requires Handled(was, t.nodes)
    ensures Advances(t.graph, was, Reconciled(t).nodes)
  {
    PassesPartial(t.nodes, t);
  }

  lemma ResumeAdvances(t: Tables, r: NodeRun, approved: bool)
    requires ResumeIn(t, r, approved).Ok?
    ensures Advances(t.graph, t.nodes, ResumeIn(t, r, approved).value.nodes)
  {
    hide Advances, Reconciled;
    if t.run.status.WaitingApproval? {
      if approved { SameAdvances(t.graph, t.nodes, Wake(t, r, NodeRow(NodeStatus.Ready, None, None)).nodes); }
      else { ReconciledAdvances(Wake(t, r, REJECTED), t.nodes); }
    } else if approved {
      SameAdvances(t.graph, t.nodes, t.nodes);
    } else {
      ReconciledAdvances(MoveNode(t, r, NodeStatus.Running, REJECTED), t.nodes);
    }
  }

  lemma RejectAdvances(t: Tables, r: NodeRun)
    requires RunKept(t) && RejectPrivilegeIn(t, r).Ok?
    ensures Advances(t.graph, t.nodes, RejectPrivilegeIn(t, r).value.nodes)
  {
    hide Advances, Reconciled, Core, Waits, Flags;
    NoRetryBeside(t, r);
    var failed := MoveTask(t, r, Some(TaskStatus.PrivilegeRequested), t.tasks[r].(status := TaskStatus.Failed), None);
    ReconciledAdvances(Wake(failed, r, REJECTED), t.nodes);
  }

  /** The decision that creates a second attempt. */
  predicate Retries(t: Tables, d: Decision) {
    && d.approval in t.approvals && t.approvals[d.approval].subject.OfRequest? && t.approvals[d.approval].status.Pending?
    && d.target.Approved?
  }

  lemma DecideAdvances(t: Tables, c: Call, d: Decision, ttl: nat)
    requires Sound(t) && Decide(t, c, d, ttl).Ok? && !Retries(t, d)
    ensures Advances(t.graph, t.nodes, Decide(t, c, d, ttl).value.nodes)
  {
    hide Advances, RunKept, Agrees, ApproveRequest, RejectPrivilegeIn, ResumeIn;
    var row := t.approvals[d.approval];
    SoundKept(t);
    if Replays(row, d) {
      SameAdvances(t.graph, t.nodes, t.nodes);
    } else {
      match row.subject
      case OfChangeSet(cs) =>
        var next := if d.target.Approved? then ChangeSetStatus.Approved else ChangeSetStatus.Rejected;
        ResumeAdvances(t.(changeSets := t.changeSets[cs := next]), row.node, d.target.Approved?);
      case OfRequest(q) =>
        SetRequestKept(t, q, RequestStatus.Rejected);
        RejectAdvances(SetRequest(t, q, RequestStatus.Rejected), row.node);
    }
  }

  lemma StartAdvances(t: Tables, c: Call)
    requires Start(t, c).Ok?
    ensures Advances(t.graph, t.nodes, Start(t, c).value.nodes)
  {
    hide Advances, Reconciled;
    if t.run.status.Pending? { ReconciledAdvances(MoveRun(t, RunStatus.Pending, RunStatus.Running), t.nodes); }
    else if t.run.status.Running? { ReconciledAdvances(t, t.nodes); }
    else { SameAdvances(t.graph, t.nodes, t.nodes); }
  }

  lemma ClaimAdvances(t: Tables, c: Call)
    requires Claim(t, c).Ok?
    ensures Advances(t.graph, t.nodes, Claim(t, c).value.nodes)
  {
    hide Advances, FirstReady;
    FirstReadyIs(t.nodes, GraphOrder(t.graph));
    SameAdvances(t.graph, t.nodes, Claim(t, c).value.nodes);
  }

  lemma EnterAdvances(t: Tables, c: Call, r: NodeRun, a: int)
    requires EnterWaiting(t, c, r, a).Ok?
    ensures Advances(t.graph, t.nodes, EnterWaiting(t, c, r, a).value.nodes)
  {
    hide Advances, ResumeIn;
    if a in t.approvals && Decided(t.approvals[a].status) { ResumeAdvances(t, r, t.approvals[a].status.Approved?); }
    else { SameAdvances(t.graph, t.nodes, Wait(t, r, ForGate(a)).nodes); }
  }

  lemma MergeAdvances(t: Tables, c: Call, r: NodeRun, cs: NodeRun, commit: int, w: WorkLease)
    requires FinalizeMerge(t, c, r, cs, commit, w).Ok?
    ensures Advances(t.graph, t.nodes, FinalizeMerge(t, c, r, cs, commit, w).value.nodes)
  {
    hide Advances, Reconciled;
    var merged := t.(head := commit, run := t.run.(commit := commit, mergeFinalizing := false),
                     changeSets := t.changeSets[cs := ChangeSetStatus.Merged]);
    ReconciledAdvances(MoveNode(merged, r, NodeStatus.Running, NodeRow(NodeStatus.Completed, Some(Outcome.Success), None)), t.nodes);
  }

  lemma CompleteAdvances(t: Tables, c: Call, r: NodeRun, v: Verdict, hasError: bool)
    requires Complete(t, c, r, v, hasError).Ok?
    ensures Advances(t.graph, t.nodes, Complete(t, c, r, v, hasError).value.nodes)
  {
    hide Advances, WriteCheck;
    SameAdvances(t.graph, t.nodes, Complete(t, c, r, v, hasError).value.nodes);
  }

  lemma PrepareAdvances(t: Tables, c: Call, r: NodeRun, a: int, w: WorkLease)
    requires PrepareRetry(t, c, r, a, w).Ok?
    ensures Advances(t.graph, t.nodes, PrepareRetry(t, c, r, a, w).value.nodes)
  {
    hide Advances, MayRetry;
    SameAdvances(t.graph, t.nodes, PrepareRetry(t, c, r, a, w).value.nodes);
  }

  // ---------------------------------------------------------------- undisturbed runs

  /** No cancellation, no orphaning, no retry, no expiry that ends a node, and
      every node that ends gives its fixed answer. */
  ghost predicate Undisturbed(answers: Verdicts, t: Tables, x: Action) {
    && !x.CancelRun? && !x.OrphanRun? && !(x.DecideApproval? && Retries(t, x.d))
    && (x.ExpireApprovals? ==> After(t, x).nodes == t.nodes)
    && Obeys(answers, t.nodes, After(t, x).nodes)
  }

  lemma StepAdvances(answers: Verdicts, t: Tables, x: Action)
    requires Sound(t) && Undisturbed(answers, t, x)
    ensures Advances(t.graph, t.nodes, After(t, x).nodes)
  {
    hide Sound, Advances, Obeys, LeaseStep, BookStep, TaskStep, RunStep, Retries;
    if Do(t, x).Err? { SameAdvances(t.graph, t.nodes, t.nodes); }
    else if OnLeases(x) { LeasesUnmoved(t, x); SameAdvances(t.graph, t.nodes, t.nodes); }
    else if OnBooks(x) { BookStepAdvances(t, x); }
    else if OnTasks(x) { TasksFramed(t, x); SameAdvances(t.graph, t.nodes, t.nodes); }
    else { RunStepAdvances(t, x); }
  }

  lemma BookStepAdvances(t: Tables, x: Action)
    requires Sound(t) && BookStep(t, x).Ok? && !x.CancelRun? && !(x.DecideApproval? && Retries(t, x.d))
    requires x.ExpireApprovals? ==> BookStep(t, x).value.nodes == t.nodes
    ensures Advances(t.graph, t.nodes, BookStep(t, x).value.nodes)
  {
    hide Sound, Advances, Retries, CreateApproval, Renew, CreateRequest, CreateRequestAndApproval, Consume, ExpireDue, CreateGrant, Decide;
    match x
    case DecideApproval(c, d, ttl) => DecideAdvances(t, c, d, ttl);
    case FindGrant(c, q, grant) => CreateGrantIdle(t, c, q, grant); SameAdvances(t.graph, t.nodes, t.nodes);
    case _ => SameAdvances(t.graph, t.nodes, t.nodes);
  }

  lemma RunStepAdvances(t: Tables, x: Action)
    requires RunStep(t, x).Ok? && !x.OrphanRun?
    ensures Advances(t.graph, t.nodes, RunStep(t, x).value.nodes)
  {
    hide Advances, Start, Claim, EnterWaiting, FinalizeMerge, Complete, PrepareRetry, BeginMerge, ClearMerge;
    match x
    case StartRun(c) => StartAdvances(t, c);
    case ClaimNext(c) => ClaimAdvances(t, c);
    case AwaitApproval(c, r, a) => EnterAdvances(t, c, r, a);
    case CommitMerge(c, r, cs, commit, w) => MergeAdvances(t, c, r, cs, commit, w);
    case CompleteNode(c, r, v, e) => CompleteAdvances(t, c, r, v, e);
    case AwaitPrivilege(c, r, a, w) => PrepareAdvances(t, c, r, a, w);
    case _ => SameAdvances(t.graph, t.nodes, t.nodes);
  }

  ghost predicate AllUndisturbed(answers: Verdicts, t: Tables, steps: seq<Action>) {
    forall i | 0 <= i < |steps| :: Undisturbed(answers, Trace(t, steps[..i]), steps[i])
  }

  /** At every moment of an undisturbed run the rows follow the meaning. */
  lemma {:induction false} RunFollows(t: Tables, steps: seq<Action>, k: nat, answers: Verdicts, m: Verdicts)
    requires Created(t) && AllProper(t, steps) && AllUndisturbed(answers, t, steps) && k <= |steps|
    requires Answers(t.graph, answers) && IsMeaning(t.graph, answers, m)
    ensures Trace(t, steps[..k]).graph == t.graph && Follows(t.graph, m, Trace(t, steps[..k]).nodes)
    decreases k
  {
    hide Trace, AllProper, AllUndisturbed, Agrees, Consistent, Rowed, Waits, Flags, Undisturbed, Proper, After, IsMeaning, Answers, Acyclic, WellFormed, Advances, Obeys, Follows, Plain, Created;
    AtUndisturbed(answers, t, steps, k);
    if k == 0 {
      assert steps[..0] == [];
      StartFollows(t, answers, m);
    } else {
      RunFollows(t, steps, k - 1, answers, m);
      PrefixSound(t, steps, k - 1);
      PrefixSound(t, steps, k);
      var was := Trace(t, steps[..k - 1]);
      StepAdvances(answers, was, steps[k - 1]);
      StepFramed(was, steps[k - 1]);
      UndisturbedObeys(answers, was, steps[k - 1]);
      AdvancingFollows(t.graph, answers, m, was.nodes, Trace(t, steps[..k]).nodes);
    }
  }

  lemma AtUndisturbed(answers: Verdicts, t: Tables, steps: seq<Action>, k: nat)
    requires AllUndisturbed(answers, t, steps) && k <= |steps|
    ensures k > 0 ==> Undisturbed(answers, Trace(t, steps[..k - 1]), steps[k - 1])
  {
    hide Undisturbed, Trace;
  }

  lemma UndisturbedObeys(answers: Verdicts, t: Tables, x: Action)
    requires Undisturbed(answers, t, x)
    ensures Obeys(answers, t.nodes, After(t, x).nodes)
  {
  }

  lemma StartFollows(t: Tables, answers: Verdicts, m: Verdicts)
    requires Created(t) && Answers(t.graph, answers) && IsMeaning(t.graph, answers, m)
    ensures Trace(t, []) == t && Follows(t.graph, m, t.nodes)
  {
    hide Acyclic, Legal;
  }

  ghost function FinalRows(g: Graph, m: Verdicts): Rows
    requires m.Keys == Ids(g)
  {
    map n | n in Ids(g) :: NodeRun(n, 1) := NodeRow(m[n].status, m[n].outcome, None)
  }

  lemma RowsAreMeaning(g: Graph, answers: Verdicts, m: Verdicts, nodes: Rows)
    requires Answers(g, answers) && IsMeaning(g, answers, m) && Follows(g, m, nodes) && AllDone(nodes)
    requires forall r | r in nodes :: Plain(nodes[r])
    ensures nodes == FinalRows(g, m)
  {
    hide Answers, Expected, Runs;
    forall r | r in nodes ensures r in FinalRows(g, m) && nodes[r] == FinalRows(g, m)[r] {
      assert r == NodeRun(r.node, 1) && OnCourse(g, m, r.node, nodes[r]);
      assert NodeDone(nodes[r].status) && Plain(nodes[r]);
    }
  }

  /** A finished undisturbed run has given every node its evaluated status and
      outcome, and has the status the evaluation implies. */
  lemma FinishedIsMeaning(t: Tables, steps: seq<Action>, answers: Verdicts)
    requires Created(t) && AllProper(t, steps) && AllUndisturbed(answers, t, steps) && Answers(t.graph, answers)
    requires Judged(Trace(t, steps).run.status)
    ensures forall n :: n in GraphOrder(t.graph) <==> n in Ids(t.graph)
    ensures var u, m := Trace(t, steps), Evaluate(t.graph, answers, GraphOrder(t.graph));
      IsMeaning(t.graph, answers, m) && u.nodes == FinalRows(t.graph, m) && u.run.status == StatusOf(t.graph, m)
  {
    hide Trace, AllProper, AllUndisturbed, Agrees, Consistent, Waits, Rowed, FinalStatus, StatusOf, Evaluate, Acyclic, Legal,
      FinalRows, Follows, Expected;
    MeaningExists(t.graph, answers);
    var m := Evaluate(t.graph, answers, GraphOrder(t.graph));
    assert steps[..|steps|] == steps;
    RunFollows(t, steps, |steps|, answers, m);
    RunSound(t, steps);
    DoneIsMeaning(t.graph, answers, m, Trace(t, steps).nodes);
    RowsAreMeaning(t.graph, answers, m, Trace(t, steps).nodes);
  }

  /** Two finished undisturbed runs of one graph with the same answers agree on
      every node and on the run, however their steps interleaved. */
  lemma Confluent(t: Tables, a: seq<Action>, b: seq<Action>, answers: Verdicts)
    requires Created(t) && Answers(t.graph, answers)
    requires AllProper(t, a) && AllUndisturbed(answers, t, a) && Judged(Trace(t, a).run.status)
    requires AllProper(t, b) && AllUndisturbed(answers, t, b) && Judged(Trace(t, b).run.status)
    ensures Trace(t, a).nodes == Trace(t, b).nodes && Trace(t, a).run.status == Trace(t, b).run.status
  {
    hide Created, Trace, AllProper, AllUndisturbed, Evaluate, Answers;
    FinishedIsMeaning(t, a, answers);
    FinishedIsMeaning(t, b, answers);
  }
}
