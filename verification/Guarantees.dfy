/** What the invariant means for a run: the statements the repositories promise,
    over every sequence of steps. */
module Guarantees {
  import opened Graphs
  import opened Wrappers
  import opened Records
  import opened Leases
  import opened Scheduling
  import opened Meaning
  import opened WorkflowRuns
  import opened Approvals
  import opened Actions
  import opened Audit
  import opened RunInvariant
  import opened RunInvariantOfApprovals
  import opened Agreement
  import opened AgreementOnWithdrawal
  import opened Invariance
  import opened Timelines
  import opened Effects
  import opened Waiting

  // ---------------------------------------------------------------- audit trail

  /** After any run, replaying the log gives every node run's status and outcome,
      the run's status, and every approval's status and version; numbers are
      1..n and Master tokens never fall. */
  lemma LogReplays(t: Tables, steps: seq<Action>)
    requires Created(t) && AllProper(t, steps)
    ensures var u := Trace(t, steps);
      && (forall r | r in u.nodes :: TellNode(u.log, r) == At(NodeState(u.nodes[r].status, u.nodes[r].outcome)))
      && TellRun(u.log) == At(u.run.status)
      && (forall a | a in u.approvals :: TellApproval(u.log, a) == At(ApprovalState(u.approvals[a].status, u.approvals[a].version)))
      && (forall i | 0 <= i < |u.log| :: u.log[i].number == i + 1) && u.nextSeq == |u.log| + 1
      && (forall i, j | 0 <= i < j < |u.log| :: u.log[i].token <= u.log[j].token)
  {
    hide Created, AllProper, Trace, Waits, Flags, Agrees, Compiled, Rowed, TellNode, TellRun, TellApproval, Lawful;
    RunSound(t, steps);
  }

  // ---------------------------------------------------------------- how often a node changes

  function CountMoves(log: seq<Entry>, r: NodeRun): nat {
    if log == [] then 0
    else CountMoves(log[..|log| - 1], r) + if log[|log| - 1].event.NodeMoved? && log[|log| - 1].event.nodeRun == r then 1 else 0
  }

  function Rank(s: NodeStatus): nat {
    if s.Pending? then 0 else if s.Ready? then 1 else if s.Running? || s.WaitingApproval? then 2 else 3
  }

  ghost predicate NeverWaits(log: seq<Entry>, r: NodeRun) {
    forall i | 0 <= i < |log| && log[i].event.NodeMoved? && log[i].event.nodeRun == r :: !log[i].event.nodeIs.WaitingApproval?
  }

  lemma {:induction false} MovesBounded(log: seq<Entry>, r: NodeRun, token: nat)
    requires Lawful(log, token) && NeverWaits(log, r) && TellNode(log, r).At?
    ensures CountMoves(log, r) <= Rank(TellNode(log, r).state.status) && !TellNode(log, r).state.status.WaitingApproval?
  {
    if log != [] {
      var init := log[..|log| - 1];
      assert forall i | 0 <= i < |init| :: init[i] == log[i];
      if TellNode(init, r).At? { MovesBounded(init, r, token); }
      assert Rightful(log[|log| - 1].event, token);
    }
  }

  /** A node run that never waits for an approval changes status at most thrice. */
  lemma ThreeMoves(t: Tables, steps: seq<Action>, r: NodeRun)
    requires Created(t) && AllProper(t, steps) && NeverWaits(Trace(t, steps).log, r)
    ensures CountMoves(Trace(t, steps).log, r) <= 3
  {
    hide Created, AllProper, Trace, Waits, Flags, Agrees, Compiled, Rowed, Numbered, TellRun, TellApproval;
    RunSound(t, steps);
    var u := Trace(t, steps);
    assert TellNode(u.log, r) == At(NodeNow(u.nodes, r));
    MovesBounded(u.log, r, LockToken(u));
  }

  // ---------------------------------------------------------------- no deadlock

  /** Reconciling never leaves a run stuck: either some node's latest attempt can
      still move by itself, or every node run is terminal and the run is over. */
  lemma NoDeadlock(t: Tables, c: Call)
    requires Sound(t) && Start(t, c).Ok? && (t.run.status.Pending? || t.run.status.Running?)
    ensures var u := Start(t, c).value;
      if u.run.status.Running? then exists n :: n in Ids(u.graph) && UnderWay(LatestRow(u.nodes, n).status)
      else AllDone(u.nodes) && u.run.status == FinalStatus(u.graph, u.nodes)
  {
    hide Consistent, Agrees, Acyclic, Rowed;
    if t.run.status.Pending? {
      RunCore(t, RunStatus.Pending, RunStatus.Running);
      Unstuck(MoveRun(t, RunStatus.Pending, RunStatus.Running));
    } else {
      Unstuck(t);
    }
  }

  predicate UnderWay(s: NodeStatus) {
    s.Ready? || s.Running?
  }

  lemma LatestSuffices(g: Graph, nodes: Rows, tasks: map<NodeRun, TaskRow>)
    requires Rowed(g, nodes, tasks) && forall n | n in Ids(g) :: NodeDone(LatestRow(nodes, n).status)
    ensures AllDone(nodes)
  {
    forall r | r in nodes ensures NodeDone(nodes[r].status) {
      assert r.node in Ids(g) && NodeDone(LatestRow(nodes, r.node).status);
    }
  }

  lemma Unstuck(t: Tables)
    requires Core(t) && NoneWaits(t.nodes)
    ensures AllDone(Passes(t).nodes) || exists n :: n in Ids(t.graph) && UnderWay(LatestRow(Passes(t).nodes, n).status)
  {
    hide Consistent, Acyclic, Passes, Settles, Rowed;
    PassesRows(t);
    var u := Passes(t);
    if !exists n :: n in Ids(t.graph) && UnderWay(LatestRow(u.nodes, n).status) {
      forall n | n in Ids(t.graph) ensures LatestRow(u.nodes, n).status.Pending? || NodeDone(LatestRow(u.nodes, n).status) {
        assert !UnderWay(LatestRow(u.nodes, n).status);
      }
      NothingStuck(t.graph, u.nodes);
      LatestSuffices(t.graph, u.nodes, t.tasks);
    }
  }

  /** What is under way can be driven on: a ready node makes claiming succeed and
      start one, a running node that is not a write node can be completed, and a
      running write node exactly in its window. */
  lemma CanProceed(t: Tables, c: Call, n: int, v: Verdict)
    requires Sound(t) && t.run.status.Running? && MasterValid(t.master, c.lease, c.now) && Legal(v)
    requires n in Ids(t.graph) && UnderWay(LatestRow(t.nodes, n).status)
    ensures LatestRow(t.nodes, n).status.Ready? ==>
      Claim(t, c).Ok? && exists r :: r in t.nodes && t.nodes[r].status.Ready? && r in Claim(t, c).value.nodes
                                && Claim(t, c).value.nodes[r].status.Running?
    ensures LatestRow(t.nodes, n).status.Running? && !IsWrite(t.graph, Latest(t.nodes, n)) ==>
      Complete(t, c, Latest(t.nodes, n), v, true).Ok?
      && Complete(t, c, Latest(t.nodes, n), v, true).value.nodes == t.nodes[Latest(t.nodes, n) := NodeRow(v.status, v.outcome, None)]
    ensures LatestRow(t.nodes, n).status.Running? && IsWrite(t.graph, Latest(t.nodes, n)) ==>
      (Complete(t, c, Latest(t.nodes, n), v, true).Ok? <==> WriteWindow(t, Latest(t.nodes, n), v.status.Completed?))
    ensures Complete(t, c, Latest(t.nodes, n), v, true).Ok? ==>
      Recorded(t, Complete(t, c, Latest(t.nodes, n), v, true).value, Latest(t.nodes, n), v)
  {
    hide Core, Waits, Agrees, IsWrite, Legal;
    if Complete(t, c, Latest(t.nodes, n), v, true).Ok? { CompletionRecorded(t, c, Latest(t.nodes, n), v, true); }
    if LatestRow(t.nodes, n).status.Ready? {
      InOrder(t, n);
      FirstReadyIs(t.nodes, GraphOrder(t.graph));
      ReadyFound(t.nodes, GraphOrder(t.graph), n);
      var r := FirstReady(t.nodes, GraphOrder(t.graph)).value;
      assert r in Claim(t, c).value.nodes && Claim(t, c).value.nodes[r].status.Running?;
    }
  }

  lemma InOrder(t: Tables, n: int)
    requires Sound(t) && n in Ids(t.graph)
    ensures n in GraphOrder(t.graph)
  {
    hide Consistent, Rowed, Waits, Flags, Agrees;
    OrderCoversIffAcyclic(Ids(t.graph), Links(t.graph));
    assert n in (set x | x in GraphOrder(t.graph));
  }

  lemma {:induction false} ReadyFound(nodes: Rows, order: seq<int>, n: int)
    requires n in order && LatestRow(nodes, n).status.Ready?
    ensures FirstReady(nodes, order).Some?
  {
    if !LatestRow(nodes, order[0]).status.Ready? { ReadyFound(nodes, order[1..], n); }
  }

  // ---------------------------------------------------------------- attempts

  /** One attempt, or a superseded first and a second that is past pending. */
  lemma RetryShape(t: Tables, steps: seq<Action>, n: int)
    requires Created(t) && AllProper(t, steps) && n in Ids(Trace(t, steps).graph)
    ensures var nodes := Trace(t, steps).nodes;
      && NodeRun(n, 1) in nodes && (forall k: nat | k < 1 || k > 2 :: NodeRun(n, k) !in nodes)
      && (NodeRun(n, 2) in nodes <==> nodes[NodeRun(n, 1)].status.Superseded?)
      && (NodeRun(n, 2) in nodes ==> !nodes[NodeRun(n, 2)].status.Pending?)
  {
    hide Created, AllProper, Trace, Waits, Flags, Agrees, Compiled, Consistent;
    RunSound(t, steps);
  }

  // ---------------------------------------------------------------- waiting

  /** A waiting run has one waiting node, others none unless orphaned, and no
      node waits for an approval already decided. If callers look at the approval
      before they park a node on it, every wait for a privilege is on a pending
      approval of a request that asks. */
  lemma WaitingAgrees(t: Tables, steps: seq<Action>)
    requires Created(t) && AllProper(t, steps)
    ensures var u := Trace(t, steps); Waits(u.run, u.nodes) && Woken(u.nodes, u.approvals)
    ensures AllAttentive(t, steps) ==> Attended(Trace(t, steps))
  {
    hide Created, AllProper, AllAttentive, Attended, Trace, Core, Flags, Waits, Woken, Versioned, OnePending, ChangesAgree, RequestsAgree,
      LedgerAgrees, Quiet;
    RunSound(t, steps);
    if AllAttentive(t, steps) { RunAttended(t, steps); }
  }

  predicate OwnPending(t: Tables, r: NodeRun, a: int) {
    && a in t.approvals && t.approvals[a].status.Pending?
    && t.approvals[a].subject.OfRequest? && t.approvals[a].node == r
  }

  /** Preparing a retry does not look at the approval it names, so the wait is
      attended exactly when that is a pending approval of the node's own request;
      if the node has no pending approval at all, nothing but cancelling or
      orphaning the run, or asking anew, ends the wait. */
  lemma LostWakeUp(t: Tables, c: Call, r: NodeRun, a: int, w: WorkLease)
    requires Sound(t) && PrepareRetry(t, c, r, a, w).Ok?
    ensures var u := PrepareRetry(t, c, r, a, w).value;
      && (Attended(u) <==> OwnPending(t, r, a))
      && (Stranded(u, r) <==> forall b | b in t.approvals && t.approvals[b].status.Pending? :: t.approvals[b].node != r)
      && (Woken(u.nodes, u.approvals) <==> !(a in t.approvals && Decided(t.approvals[a].status)))
  {
    hide Core, Flags, Versioned, OnePending, ChangesAgree, RequestsAgree, LedgerAgrees, Quiet;
    var u := PrepareRetry(t, c, r, a, w).value;
    assert u.nodes[r].waitsFor == Some(ForPrivilege(a));
    SoundKept(t);
    RunningNoWait(t);
    if OwnPending(t, r, a) { SoundAgrees(t); StillAsks(t, a); }
  }

  // ---------------------------------------------------------------- decisions

  /** At most one approval of a ChangeSet is ever decided, at whatever moments of
      the run one looks; a merged ChangeSet has exactly one approved approval, not an L4 one; version one means pending. */
  lemma SingleDecision(t: Tables, steps: seq<Action>)
    requires Created(t) && AllProper(t, steps)
    ensures var u := Trace(t, steps);
      && (forall a, b, cs | On(u.approvals, a, cs) && On(u.approvals, b, cs)
            && Decided(u.approvals[a].status) && Decided(u.approvals[b].status) :: a == b)
      && (forall cs | cs in u.changeSets && u.changeSets[cs].Merged? :: exists a :: SoleApproval(u, a, cs))
      && (forall a | a in u.approvals :: u.approvals[a].version == 1 <==> u.approvals[a].status.Pending?)
    ensures forall i, a, b, cs | 0 <= i <= |steps| && DecidedOn(Trace(t, steps[..i]), a, cs) && DecidedOn(Trace(t, steps), b, cs) :: a == b
  {
    hide Created, AllProper, Trace, RunKept, Woken, RequestsAgree, LedgerAgrees, Quiet, Settled;
    RunSound(t, steps);
    var u := Trace(t, steps);
    forall i, a, b, cs | 0 <= i <= |steps| && DecidedOn(Trace(t, steps[..i]), a, cs) && DecidedOn(u, b, cs) ensures a == b {
      DecisionLasts(t, steps, i, |steps|);
      assert steps[..|steps|] == steps;
      StaysDecided(Trace(t, steps[..i]), u, a, cs);
    }
    forall cs | cs in u.changeSets && u.changeSets[cs].Merged? ensures exists a :: SoleApproval(u, a, cs) {
      assert Answered(u.approvals, cs, ApprovalStatus.Approved);
      var a :| On(u.approvals, a, cs) && u.approvals[a].status.Approved?;
      assert SoleApproval(u, a, cs);
    }
  }

  predicate DecidedOn(t: Tables, a: int, cs: NodeRun) {
    On(t.approvals, a, cs) && Decided(t.approvals[a].status)
  }

  lemma StaysDecided(t: Tables, u: Tables, a: int, cs: NodeRun)
    requires Settled(t.approvals, u.approvals) && DecidedOn(t, a, cs)
    ensures DecidedOn(u, a, cs) && u.approvals[a].status == t.approvals[a].status
  {
  }

  ghost predicate SoleApproval(t: Tables, a: int, cs: NodeRun) {
    && On(t.approvals, a, cs) && t.approvals[a].status.Approved? && !t.approvals[a].risk.L4?
    && forall b | On(t.approvals, b, cs) && t.approvals[b].status.Approved? :: b == a
  }

  /** Repeating a decision with the same request, whoever is Master by then,
      succeeds and changes nothing. */
  lemma DecideTwice(t: Tables, c: Call, d: Decision, ttl: nat, again: Call, ttlAgain: nat)
    requires Sound(t) && Decide(t, c, d, ttl).Ok?
    requires MasterValid(t.master, again.lease, again.now)
    ensures Decide(Decide(t, c, d, ttl).value, again, d, ttlAgain) == Ok(Decide(t, c, d, ttl).value)
  {
    hide Core, Waits, Flags, Agrees, ApproveRequest, RejectPrivilegeIn, ResumeIn;
    var row := t.approvals[d.approval];
    var u := Decide(t, c, d, ttl).value;
    DecideLeavesMaster(t, c, d, ttl);
    assert Replays(u.approvals[d.approval], d);
  }

  lemma DecideLeavesMaster(t: Tables, c: Call, d: Decision, ttl: nat)
    requires Sound(t) && Decide(t, c, d, ttl).Ok?
    ensures var u := Decide(t, c, d, ttl).value;
      u.master == t.master && d.approval in u.approvals
      && u.approvals[d.approval].decision == Some(d) && u.approvals[d.approval].status == d.target
      && u.approvals[d.approval].key == Some(d.key)
  {
    hide Core, Waits, Flags, Agrees, ApproveRequest, RejectPrivilegeIn, ResumeIn;
    SoundKept(t);
    var row := t.approvals[d.approval];
    if !Replays(row, d) {
      match row.subject
      case OfChangeSet(cs) =>
        var next := if d.target.Approved? then ChangeSetStatus.Approved else ChangeSetStatus.Rejected;
        AgreementOnDecisions.MovedKept(t, t.changeSets[cs := next]);
        ResumeKept(t.(changeSets := t.changeSets[cs := next]), row.node, d.target.Approved?);
      case OfRequest(q) =>
        if d.target.Approved? {
          AgreesBound(t);
          ApproveRequestLeaves(t, q, row, c.now + ttl);
        } else {
          SetRequestKept(t, q, RequestStatus.Rejected);
          RejectPrivilegeKept(SetRequest(t, q, RequestStatus.Rejected), row.node);
        }
    }
  }

  // ---------------------------------------------------------------- grants

  /** Requests, grants and task pointers tell one story after any run. */
  lemma GrantLedger(t: Tables, steps: seq<Action>)
    requires Created(t) && AllProper(t, steps)
    ensures var u := Trace(t, steps);
      && (forall q | q in u.requests :: u.requests[q].status.Approved? <==> q in u.grants && Live(u.grants[q]))
      && (forall q | q in u.requests :: u.requests[q].status.Consumed? <==> q in u.grants && u.grants[q].consumed.Some?)
      && (forall r, q | r in u.tasks :: u.tasks[r].grant == Some(q) <==> q in u.grants && Live(u.grants[q]) && u.grants[q].target == r)
      && (forall q | q in u.grants :: !(u.grants[q].consumed.Some? && u.grants[q].revoked))
      && (forall q | q in u.grants && u.grants[q].consumed.Some? ::
            q in u.requests && u.grants[q].target == Next(u.requests[q].node) && UsedInTime(u.approvals, q, u.grants[q]))
  {
    hide Created, AllProper, Trace, RunKept, Versioned, OnePending, ChangesAgree, Woken, RequestsAgree, Quiet, UsedInTime;
    RunSound(t, steps);
    var u := Trace(t, steps);
    forall r, q | r in u.tasks ensures u.tasks[r].grant == Some(q) <==> q in u.grants && Live(u.grants[q]) && u.grants[q].target == r {
      assert u.tasks[r].grant == Some(q) ==> Backs(u.grants, q, r);
    }
  }

  /** A grant is used by the second attempt's task, under that task's valid
      workspace token, before grant and approval expire, and only once. */
  lemma UsedOnce(t: Tables, c: Call, q: int, r: NodeRun, subject: int, a: int, w: Option<WorkLease>)
    requires Sound(t) && Consume(t, c, q, r, subject, a, w).Ok?
    ensures q in t.requests && r == Next(t.requests[q].node) && r in t.nodes && t.nodes[r].status.Running? && t.run.status.Running?
    ensures w.Some? && LockValid(t.lock, w.value, c.now) && w.value.holder.operation == TaskOf(r)
    ensures q in t.grants && c.now < t.grants[q].expires && a in t.approvals && c.now < t.approvals[a].expires
    ensures var u := Consume(t, c, q, r, subject, a, w).value;
      q in u.grants && u.grants[q].consumed == Some(Use(c.now, LockToken(t)))
      && forall d: Call, v: Option<WorkLease>, b :: !Consume(u, d, q, r, subject, b, v).Ok?
  {
    hide RunKept, Versioned, OnePending, ChangesAgree, Woken, RequestsAgree, Quiet, UsedInTime;
  }

  /** A new request keeps the ledger exactly when it is not born granted. */
  lemma NewRequestLedger(t: Tables, c: Call, q: int, row: RequestRow, w: WorkLease)
    requires Sound(t) && CreateRequest(t, c, q, row, w).Ok? && q !in t.requests
    ensures var u := CreateRequest(t, c, q, row, w).value;
      LedgerAgrees(u.approvals, u.requests, u.grants, u.tasks) <==> !row.status.Approved? && !row.status.Consumed?
  {
    hide RunKept, Versioned, OnePending, ChangesAgree, Woken, RequestsAgree, Quiet, UsedInTime;
    var u := CreateRequest(t, c, q, row, w).value;
    assert q in u.requests && q !in u.grants && u.requests[q] == row;
  }
}
