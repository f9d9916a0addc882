/** Agreement between approvals, ChangeSets, privilege requests, grants and the
    nodes that wait for them. */
module Agreement {
  import opened Wrappers
  import opened Records
  import opened Scheduling
  import opened WorkflowRuns
  import opened Approvals
  import opened RunInvariant

  type ApprovalRows = map<int, ApprovalRow>
  type ChangeSetRows = map<NodeRun, ChangeSetStatus>
  type RequestRows = map<int, RequestRow>
  type GrantRows = map<int, GrantRow>
  type TaskRows = map<NodeRun, TaskRow>

  // ---------------------------------------------------------------- approvals

  /** Pending exactly at version one; L4 is never approved. */
  ghost predicate Versioned(approvals: ApprovalRows) {
    forall a | a in approvals ::
      && 1 <= approvals[a].version <= 2 && (approvals[a].version == 1 <==> approvals[a].status.Pending?)
      && !approvals[a].risk.L4?
  }

  predicate On(approvals: ApprovalRows, a: int, cs: NodeRun) {
    a in approvals && approvals[a].subject == OfChangeSet(cs)
  }

  predicate Of(approvals: ApprovalRows, a: int, q: int) {
    a in approvals && approvals[a].subject == OfRequest(q)
  }

  ghost predicate OnePending(approvals: ApprovalRows) {
    forall a, b | a in approvals && b in approvals && approvals[a].status.Pending? && approvals[b].status.Pending?
      && approvals[a].subject == approvals[b].subject :: a == b
  }

  // ---------------------------------------------------------------- ChangeSets

  predicate Fits(s: ApprovalStatus, cs: ChangeSetStatus) {
    match s
    case Pending => cs.PendingApproval? || cs.Stale? || cs.Cancelled?
    case Approved => cs.Approved? || cs.Merged? || cs.Stale? || cs.Cancelled?
    case Rejected => cs.Rejected?
    case _ => true
  }

  ghost predicate Answered(approvals: ApprovalRows, cs: NodeRun, s: ApprovalStatus) {
    exists a :: On(approvals, a, cs) && approvals[a].status == s
  }

  /** A ChangeSet is decided at most once, and its status shows how. */
  ghost predicate ChangesAgree(approvals: ApprovalRows, changes: ChangeSetRows) {
    && (forall a, cs | On(approvals, a, cs) :: cs in changes && Fits(approvals[a].status, changes[cs]))
    && (forall a, b, cs | On(approvals, a, cs) && On(approvals, b, cs)
          && Decided(approvals[a].status) && Decided(approvals[b].status) :: a == b)
    && (forall cs | cs in changes && (changes[cs].Approved? || changes[cs].Merged?) :: Answered(approvals, cs, ApprovalStatus.Approved))
    && (forall cs | cs in changes && changes[cs].Rejected? :: Answered(approvals, cs, ApprovalStatus.Rejected))
  }

  // ---------------------------------------------------------------- privilege requests

  predicate FitsRequest(s: ApprovalStatus, q: RequestStatus) {
    match s
    case Pending => q.WaitingApproval?
    case Approved => q.Approved? || q.Consumed? || q.Denied?
    case Rejected => q.Rejected?
    case _ => !q.Pending? && !q.WaitingApproval?
  }

  predicate Past(s: ApprovalStatus, node: NodeStatus) {
    (s.Approved? ==> node.Superseded?) && (s.Rejected? ==> NodeDone(node))
  }

  ghost predicate Permitted(approvals: ApprovalRows, q: int) {
    exists a :: Of(approvals, a, q) && approvals[a].status.Approved?
  }

  /** A request has one approval at most, decided only once its node is past. */
  ghost predicate RequestsAgree(approvals: ApprovalRows, requests: RequestRows, nodes: Rows, tasks: TaskRows) {
    && (forall q | q in requests :: requests[q].node in nodes && requests[q].node in tasks)
    && (forall a, q | Of(approvals, a, q) ::
          && q in requests && approvals[a].node == requests[q].node && requests[q].node in nodes
          && FitsRequest(approvals[a].status, requests[q].status)
          && Past(approvals[a].status, nodes[requests[q].node].status))
    && (forall a, b, q | Of(approvals, a, q) && Of(approvals, b, q) :: a == b)
    && (forall q | q in requests && requests[q].status.Approved? :: Permitted(approvals, q))
  }

  // ---------------------------------------------------------------- the grant ledger

  ghost predicate UsedInTime(approvals: ApprovalRows, q: int, g: GrantRow)
    requires g.consumed.Some?
  {
    && g.consumed.value.at < g.expires
    && exists a :: Of(approvals, a, q) && approvals[a].status.Approved? && g.consumed.value.at < approvals[a].expires
  }

  ghost predicate LedgerAgrees(approvals: ApprovalRows, requests: RequestRows, grants: GrantRows, tasks: TaskRows) {
    && (forall q | q in grants :: q in requests && grants[q].target == Next(requests[q].node) && grants[q].target in tasks)
    && (forall q | q in grants :: !(grants[q].consumed.Some? && grants[q].revoked))
    && (forall q | q in grants && grants[q].revoked :: requests[q].status.Denied?)
    && (forall q | q in requests :: requests[q].status.Approved? <==> q in grants && Live(grants[q]))
    && (forall q | q in requests :: requests[q].status.Consumed? <==> q in grants && grants[q].consumed.Some?)
    && (forall q | q in grants && Live(grants[q]) :: tasks[grants[q].target].grant == Some(q))
    && (forall r | r in tasks && tasks[r].grant.Some? :: Backs(grants, tasks[r].grant.value, r))
    && (forall q | q in grants && grants[q].consumed.Some? :: UsedInTime(approvals, q, grants[q]))
  }

  predicate Backs(grants: GrantRows, q: int, r: NodeRun) {
    q in grants && Live(grants[q]) && grants[q].target == r
  }

  // ---------------------------------------------------------------- waiting and cancellation

  /** No node waits for an approval that has been decided. */
  ghost predicate Woken(nodes: Rows, approvals: ApprovalRows) {
    forall r | r in nodes && nodes[r].waitsFor.Some? && nodes[r].waitsFor.value.approval in approvals ::
      !Decided(approvals[nodes[r].waitsFor.value.approval].status)
  }

  /** What a cancelled run has left: nothing that could still be approved, used
      or merged. */
  ghost predicate Quiet(run: RunRow, approvals: ApprovalRows, grants: GrantRows, changes: ChangeSetRows) {
    run.status.Cancelled? ==>
      && (forall a | a in approvals :: !approvals[a].status.Pending?)
      && (forall q | q in grants :: !Live(grants[q]))
      && (forall cs | cs in changes :: !changes[cs].PendingApproval? && !changes[cs].Approved?)
  }

  ghost predicate Agrees(t: Tables) {
    && Versioned(t.approvals) && OnePending(t.approvals)
    && ChangesAgree(t.approvals, t.changeSets)
    && RequestsAgree(t.approvals, t.requests, t.nodes, t.tasks)
    && LedgerAgrees(t.approvals, t.requests, t.grants, t.tasks)
    && Woken(t.nodes, t.approvals)
    && Quiet(t.run, t.approvals, t.grants, t.changeSets)
  }

  ghost predicate Sound(t: Tables) {
    RunKept(t) && Agrees(t)
  }

  lemma AgreesBound(t: Tables)
    requires Agrees(t)
    ensures GrantsBound(t)
  {
    hide Versioned, OnePending, ChangesAgree, RequestsAgree, Woken, Quiet, UsedInTime;
  }

  // ---------------------------------------------------------------- steps outside the books

  /** Tasks may appear and change status; grant pointers stay. */
  ghost predicate SamePointers(was: TaskRows, tasks: TaskRows) {
    && (forall r | r in was :: r in tasks && tasks[r].grant == was[r].grant)
    && (forall r | r in tasks && r !in was :: tasks[r].grant.None?)
  }

  /** Node rows gain no wait, and terminal rows stay. */
  ghost predicate Onward(was: Rows, nodes: Rows) {
    && (forall r | r in was :: r in nodes && (NodeDone(was[r].status) ==> nodes[r] == was[r]))
    && (forall r | r in nodes && nodes[r].waitsFor.Some? :: r in was && nodes[r].waitsFor == was[r].waitsFor)
  }

  lemma RequestsForward(approvals: ApprovalRows, requests: RequestRows, was: Rows, nodes: Rows, tasksWere: TaskRows, tasks: TaskRows)
    requires RequestsAgree(approvals, requests, was, tasksWere) && Onward(was, nodes)
    requires forall r | r in tasksWere :: r in tasks
    ensures RequestsAgree(approvals, requests, nodes, tasks)
  {
  }

  lemma LedgerForward(approvals: ApprovalRows, requests: RequestRows, grants: GrantRows, was: TaskRows, tasks: TaskRows)
    requires LedgerAgrees(approvals, requests, grants, was) && SamePointers(was, tasks)
    ensures LedgerAgrees(approvals, requests, grants, tasks)
  {
  }

  /** Any step that leaves the books alone keeps them. */
  lemma Untouched(t: Tables, u: Tables)
    requires Agrees(t) && Onward(t.nodes, u.nodes) && SamePointers(t.tasks, u.tasks)
    requires u.approvals == t.approvals && u.requests == t.requests && u.grants == t.grants && u.changeSets == t.changeSets
    requires u.run.status.Cancelled? ==> t.run.status.Cancelled?
    ensures Agrees(u)
  {
    hide Versioned, OnePending, ChangesAgree, RequestsAgree, LedgerAgrees;
    RequestsForward(t.approvals, t.requests, t.nodes, u.nodes, t.tasks, u.tasks);
    LedgerForward(t.approvals, t.requests, t.grants, t.tasks, u.tasks);
  }
}
