/** A capture whose commit may or may not have happened: what the durable rows
    allow to be concluded. */
module Capture {
  import opened Wrappers
  import opened Records

  datatype Artifact = Artifact(id: int, owner: int, digest: int, size: nat, createdAt: int)

  datatype ChangeRow = ChangeRow(id: int, manifest: int, status: ChangeSetStatus, createdAt: int, updatedAt: int)

  datatype TaskState = TaskState(node: int, status: TaskStatus, finishedAt: Option<int>)

  datatype NodeState = NodeState(running: bool, changeSet: Option<int>, ended: bool)

  datatype Payload =
    | ChangePayload(masterToken: nat, workToken: Option<nat>, node: int, task: int, changeSet: int,
        changeWas: Option<ChangeSetStatus>, changeIs: ChangeSetStatus, reason: Option<int>)
    | TaskPayload(masterToken: nat, workToken: Option<nat>, node: int, task: int,
        taskWas: Option<TaskStatus>, taskIs: TaskStatus, error: Option<int>)
    | OtherPayload(content: int)

  datatype EventRow = EventRow(number: nat, actor: Option<int>, payload: Payload, at: int)

  datatype SecurityRow = SecurityRow(task: int, changeSet: int, status: ChangeSetStatus, reason: Option<int>,
    masterToken: nat, workToken: nat, at: int)

  /** The rows a capture writes, and those beside them. Artifact rows are keyed by
      id, ChangeSets by their task. */
  datatype Durable = Durable(artifacts: map<int, Artifact>, changes: map<int, ChangeRow>, tasks: map<int, TaskState>,
    nodes: map<int, NodeState>, runRunning: bool, cancelRequested: bool, nextSeq: nat, events: seq<EventRow>, security: seq<SecurityRow>)

  /** One capture attempt. Its timestamp is its own. */
  datatype Attempt = Attempt(task: int, node: int, changeSet: int, manifest: int, status: ChangeSetStatus, target: TaskStatus,
    error: Option<int>, reason: Option<int>, stamp: int, master: int, masterToken: nat, workToken: nat,
    staged: seq<Artifact>, published: set<int>)

  // ---------------------------------------------------------------- the write set

  function ChangeEvent(a: Attempt): Payload {
    ChangePayload(a.masterToken, Some(a.workToken), a.node, a.task, a.changeSet, None, a.status, a.reason)
  }

  function TaskEvent(a: Attempt): Payload {
    TaskPayload(a.masterToken, Some(a.workToken), a.node, a.task, Some(TaskStatus.Running), a.target, a.error)
  }

  function SecurityEvent(a: Attempt): SecurityRow {
    SecurityRow(a.task, a.changeSet, a.status, a.reason, a.masterToken, a.workToken, a.stamp)
  }

  /** Rows of staged artifacts; one already there under its id is reused. */
  function WithArtifacts(rows: map<int, Artifact>, staged: seq<Artifact>): map<int, Artifact> {
    if staged == [] then rows else
      var before := WithArtifacts(rows, staged[..|staged| - 1]);
      var x := staged[|staged| - 1];
      if x.id in before then before else before[x.id := x]
  }

  /** What may be captured: a running task of a running node and run, with no
      ChangeSet yet. */
  predicate Admits(d: Durable, a: Attempt) {
    && a.task in d.tasks && d.tasks[a.task] == TaskState(a.node, TaskStatus.Running, None)
    && a.node in d.nodes && d.nodes[a.node] == NodeState(true, None, false)
    && d.runRunning && !d.cancelRequested && a.task !in d.changes && Over(a.target)
  }

  /** What every writer keeps: events are numbered; a ChangeSet's creation and a
      security row are only there with the ChangeSet; a task that was reported to
      have left running has left it. */
  ghost predicate WellKept(d: Durable) {
    && d.nextSeq == |d.events| + 1
    && (forall i | 0 <= i < |d.events| :: d.events[i].number == i + 1)
    && (forall i | 0 <= i < |d.events| :: Borne(d, d.events[i].payload))
    && (forall i | 0 <= i < |d.security| :: d.security[i].task in d.changes)
  }

  predicate Over(s: TaskStatus) {
    !s.Pending? && !s.Running?
  }

  predicate Borne(d: Durable, p: Payload) {
    && (p.ChangePayload? && p.changeWas.None? ==> p.task in d.changes)
    && (p.TaskPayload? && p.taskWas == Some(TaskStatus.Running) ==> p.task in d.tasks && Over(d.tasks[p.task].status))
  }

  /** The transaction's effect, as a whole. */
  function Commit(d: Durable, a: Attempt): Durable
    requires a.task in d.tasks && a.node in d.nodes
  {
    d.(artifacts := WithArtifacts(d.artifacts, a.staged),
       changes := d.changes[a.task := ChangeRow(a.changeSet, a.manifest, a.status, a.stamp, a.stamp)],
       nodes := d.nodes[a.node := d.nodes[a.node].(changeSet := Some(a.changeSet))],
       tasks := d.tasks[a.task := d.tasks[a.task].(status := a.target, finishedAt := Some(a.stamp))],
       events := d.events + [EventRow(d.nextSeq, None, ChangeEvent(a), a.stamp), EventRow(d.nextSeq + 1, Some(a.master), TaskEvent(a), a.stamp)],
       nextSeq := d.nextSeq + 2,
       security := if a.status.AbandonedPartial? then d.security + [SecurityEvent(a)] else d.security)
  }

  // ---------------------------------------------------------------- what reconciliation reads

  /** The query for the ChangeSet's creation event. */
  predicate Asks(a: Attempt, e: EventRow) {
    e.payload.ChangePayload? && e.payload.task == a.task && e.payload.changeSet == a.changeSet && e.payload.changeWas.None?
  }

  /** The query for the task's terminal event. */
  predicate Ends(a: Attempt, e: EventRow) {
    e.payload.TaskPayload? && e.payload.task == a.task && e.payload.taskWas == Some(TaskStatus.Running) && e.payload.taskIs == a.target
  }

  predicate Flags(a: Attempt, s: SecurityRow) {
    s.task == a.task && s.changeSet == a.changeSet
  }

  function Where<T>(rows: seq<T>, p: T -> bool): seq<T> {
    if rows == [] then []
    else Where(rows[..|rows| - 1], p) + if p(rows[|rows| - 1]) then [rows[|rows| - 1]] else []
  }

  predicate ArtifactsMatch(d: Durable, a: Attempt) {
    forall x | x in a.staged :: x.id in d.artifacts && d.artifacts[x.id] == x
  }

  predicate EventsMatch(d: Durable, a: Attempt) {
    var change, task := Where(d.events, e => Asks(a, e)), Where(d.events, e => Ends(a, e));
    && d.nextSeq == (if d.events == [] then 1 else d.events[|d.events| - 1].number + 1)
    && d.runRunning && !d.cancelRequested
    && |change| == 1 && |task| == 1
    && change[0].payload == ChangeEvent(a) && change[0].actor == None && change[0].at == a.stamp
    && task[0].payload == TaskEvent(a) && task[0].actor == Some(a.master) && task[0].at == a.stamp
    && task[0].number == change[0].number + 1 && d.nextSeq == task[0].number + 1
  }

  predicate SecurityMatches(d: Durable, a: Attempt) {
    var rows := Where(d.security, s => Flags(a, s));
    if a.status.AbandonedPartial? then rows == [SecurityEvent(a)] else rows == []
  }

  predicate RowsMatch(d: Durable, a: Attempt) {
    && a.task in d.changes && d.changes[a.task] == ChangeRow(a.changeSet, a.manifest, a.status, a.stamp, a.stamp)
    && a.task in d.tasks && d.tasks[a.task] == TaskState(a.node, a.target, Some(a.stamp))
    && a.node in d.nodes && d.nodes[a.node] == NodeState(true, Some(a.changeSet), false)
  }

  predicate Untouched(d: Durable, a: Attempt) {
    && (forall x | x in a.staged && x.id in a.published :: x.id !in d.artifacts)
    && a.task !in d.changes
    && a.task in d.tasks && d.tasks[a.task] == TaskState(a.node, TaskStatus.Running, None)
    && a.node in d.nodes && d.nodes[a.node] == NodeState(true, None, false)
    && Where(d.events, e => Asks(a, e)) == [] && Where(d.events, e => Ends(a, e)) == []
    && Where(d.security, s => Flags(a, s)) == []
  }

  datatype Verdict = Committed | RolledBack | ReconciliationRequired

  predicate Whole(d: Durable, a: Attempt) {
    ArtifactsMatch(d, a) && RowsMatch(d, a) && EventsMatch(d, a) && SecurityMatches(d, a)
  }

  /** Reads everything in one transaction, then concludes. `verified[i]` tells
      whether the file of the i-th staged artifact passes verification. */
  method ReconcileCaptureCommit(d: Durable, a: Attempt, verified: seq<bool>) returns (v: Verdict)
    requires |verified| == |a.staged|
    ensures v == Committed <==> Whole(d, a) && forall i | 0 <= i < |verified| :: verified[i]
    ensures v == RolledBack <==> !Whole(d, a) && Untouched(d, a)
  {
    var artifacts := true;
    for i := 0 to |a.staged|
      invariant artifacts <==> forall j | 0 <= j < i :: a.staged[j].id in d.artifacts && d.artifacts[a.staged[j].id] == a.staged[j]
    {
      var x := a.staged[i];
      if x.id !in d.artifacts || d.artifacts[x.id] != x { artifacts := false; }
    }
    assert artifacts <==> ArtifactsMatch(d, a);
    if artifacts && RowsMatch(d, a) && EventsMatch(d, a) && SecurityMatches(d, a) {
      for i := 0 to |verified|
        invariant forall j | 0 <= j < i :: verified[j]
      {
        if !verified[i] { return ReconciliationRequired; }
      }
      return Committed;
    }
    v := if Untouched(d, a) then RolledBack else ReconciliationRequired;
  }

  // ---------------------------------------------------------------- what the answers mean

  /** The rows hold, piece by piece, what the commit of this attempt from `d` would
      have written, each event and security row once. */
  ghost predicate Holds(d: Durable, e: Durable, a: Attempt)
    requires a.task in d.tasks && a.node in d.nodes
  {
    var c := Commit(d, a);
    && (forall x | x in a.staged :: x.id in e.artifacts && e.artifacts[x.id] == x)
    && a.task in e.changes && e.changes[a.task] == c.changes[a.task]
    && a.task in e.tasks && e.tasks[a.task] == c.tasks[a.task]
    && a.node in e.nodes && e.nodes[a.node] == c.nodes[a.node]
    && e.runRunning && !e.cancelRequested
    && (exists i :: 0 <= i && i + 2 == |e.events| && Lasts(e, a, i))
    && Where(e.security, s => Flags(a, s)) == if a.status.AbandonedPartial? then [SecurityEvent(a)] else []
  }

  /** The two events stand last, numbered on, and no other answers the queries. */
  ghost predicate Lasts(e: Durable, a: Attempt, i: nat)
    requires i + 2 == |e.events|
  {
    && e.events[i] == EventRow(e.events[i].number, None, ChangeEvent(a), a.stamp)
    && e.events[i + 1] == EventRow(e.events[i].number + 1, Some(a.master), TaskEvent(a), a.stamp)
    && e.nextSeq == e.events[i].number + 2
    && forall j | 0 <= j < i :: !Creates(a, e.events[j].payload) && !Finishes(a, e.events[j].payload)
  }

  // ---------------------------------------------------------------- the other writers

  /** What anybody else may do to these rows between an attempt and the question
      how it ended. */
  datatype Other =
    | Recapture(b: Attempt)
    | StartTask(task: int, node: int, event: Payload, actor: int, at: int)
    | FinishTask(task: int, target: TaskStatus, event: Payload, actor: int, at: int)
    | MoveChangeSet(task: int, next: ChangeSetStatus, event: Payload, at: int, flag: Option<SecurityRow>)
    | WithdrawChangeSet(task: int, at: int)
    | EndNode(node: int)
    | MoveRun(running: bool)
    | CancelRun(stopped: set<int>, at: int)
    | Tell(content: int, teller: Option<int>, at: int)
    | KeepArtifact(x: Artifact)
    | DropArtifact(id: int)

  /** The step fits its rows; one that does not is refused and changes nothing. */
  predicate Fits(d: Durable, x: Other) {
    match x
    case Recapture(b) => Admits(d, b)
    case StartTask(task, node, event, _, _) =>
      && (task in d.tasks ==> d.tasks[task].status.Pending? && d.tasks[task].node == node)
      && event.TaskPayload? && event.task == task && event.taskWas != Some(TaskStatus.Running)
    case FinishTask(task, target, event, _, _) =>
      && task in d.tasks && d.tasks[task].status.Running? && Over(target)
      && event.TaskPayload? && event.task == task && event.taskWas == Some(TaskStatus.Running) && event.taskIs == target
    case MoveChangeSet(task, next, event, _, flag) =>
      && task in d.changes
      && event.ChangePayload? && event.task == task && event.changeWas == Some(d.changes[task].status) && event.changeIs == next
      && (flag.Some? ==> flag.value.task == task)
    case WithdrawChangeSet(task, _) => task in d.changes
    case EndNode(node) => node in d.nodes
    case _ => true
  }

  function Append(d: Durable, actor: Option<int>, p: Payload, at: int): Durable {
    d.(events := d.events + [EventRow(d.nextSeq, actor, p, at)], nextSeq := d.nextSeq + 1)
  }

  function Take(d: Durable, x: Other): Durable
    requires Fits(d, x)
  {
    match x
    case Recapture(b) => Commit(d, b)
    case StartTask(task, node, event, actor, at) =>
      Append(d.(tasks := d.tasks[task := TaskState(node, TaskStatus.Running, None)]), Some(actor), event, at)
    case FinishTask(task, target, event, actor, at) =>
      Append(d.(tasks := d.tasks[task := d.tasks[task].(status := target, finishedAt := Some(at))]), Some(actor), event, at)
    case MoveChangeSet(task, next, event, at, flag) =>
      var moved := Append(d.(changes := d.changes[task := d.changes[task].(status := next, updatedAt := at)]), None, event, at);
      if flag.Some? then moved.(security := d.security + [flag.value]) else moved
    case WithdrawChangeSet(task, at) => d.(changes := d.changes[task := d.changes[task].(status := ChangeSetStatus.Cancelled, updatedAt := at)])
    case EndNode(node) => d.(nodes := d.nodes[node := d.nodes[node].(running := false, ended := true)])
    case MoveRun(running) => d.(runRunning := running)
    case CancelRun(stopped, at) =>
      d.(runRunning := false, cancelRequested := true, tasks := map k | k in d.tasks :: Stopped(d.tasks[k], k in stopped, at))
    case Tell(content, teller, at) => Append(d, teller, OtherPayload(content), at)
    case KeepArtifact(x) => d.(artifacts := d.artifacts[x.id := x])
    case DropArtifact(id) => d.(artifacts := d.artifacts - {id})
  }

  function Stopped(s: TaskState, stop: bool, at: int): TaskState {
    if stop && (s.status.Pending? || s.status.Running? || s.status.PrivilegeRequested?)
    then s.(status := TaskStatus.Cancelled, finishedAt := Some(at)) else s
  }

  function Step(d: Durable, x: Other): Durable {
    if Fits(d, x) then Take(d, x) else d
  }

  /** The rows after a run of other writers' steps, newest step last. */
  function Run(d: Durable, steps: seq<Other>): Durable {
    if steps == [] then d else Step(Run(d, steps[..|steps| - 1]), steps[|steps| - 1])
  }

  /** Timestamps of capture attempts are unique. */
  predicate OthersThan(a: Attempt, steps: seq<Other>) {
    forall x | x in steps && x.Recapture? :: x.b.stamp != a.stamp
  }

  lemma CommitKept(d: Durable, a: Attempt)
    requires WellKept(d) && Admits(d, a)
    ensures WellKept(Commit(d, a))
  {
    var e := Commit(d, a);
    forall i | 0 <= i < |e.events| ensures e.events[i].number == i + 1 && Borne(e, e.events[i].payload) {
      if i < |d.events| { assert e.events[i] == d.events[i] && Borne(d, d.events[i].payload); }
    }
  }

  lemma AppendKept(d: Durable, actor: Option<int>, p: Payload, at: int)
    requires WellKept(d) && Borne(d, p)
    ensures WellKept(Append(d, actor, p, at))
  {
    var e := Append(d, actor, p, at);
    forall i | 0 <= i < |e.events| ensures e.events[i].number == i + 1 && Borne(e, e.events[i].payload) {
      if i < |d.events| { assert e.events[i] == d.events[i] && Borne(d, d.events[i].payload); }
    }
  }

  /** Rows may change as long as ChangeSets stay and no ended task runs again. */
  lemma RowsKept(d: Durable, e: Durable)
    requires WellKept(d) && e.events == d.events && e.nextSeq == d.nextSeq && e.security == d.security
    requires d.changes.Keys == e.changes.Keys
    requires forall k | k in d.tasks && Over(d.tasks[k].status) :: k in e.tasks && Over(e.tasks[k].status)
    ensures WellKept(e)
  {
  }

  lemma StepKept(d: Durable, x: Other)
    requires WellKept(d)
    ensures WellKept(Step(d, x))
  {
    hide WellKept;
    if Fits(d, x) {
      match x
      case Recapture(b) => CommitKept(d, b);
      case StartTask(task, node, event, actor, at) =>
        var e := d.(tasks := d.tasks[task := TaskState(node, TaskStatus.Running, None)]);
        RowsKept(d, e);
        AppendKept(e, Some(actor), event, at);
      case FinishTask(task, target, event, actor, at) =>
        var e := d.(tasks := d.tasks[task := d.tasks[task].(status := target, finishedAt := Some(at))]);
        RowsKept(d, e);
        AppendKept(e, Some(actor), event, at);
      case MoveChangeSet(task, next, event, at, flag) =>
        var e := d.(changes := d.changes[task := d.changes[task].(status := next, updatedAt := at)]);
        RowsKept(d, e);
        AppendKept(e, None, event, at);
        if flag.Some? { FlagKept(Append(e, None, event, at), flag.value); }
      case Tell(content, teller, at) => AppendKept(d, teller, OtherPayload(content), at);
      case _ => RowsKept(d, Step(d, x));
    }
  }

  lemma FlagKept(d: Durable, s: SecurityRow)
    requires WellKept(d) && s.task in d.changes
    ensures WellKept(d.(security := d.security + [s]))
  {
  }

  lemma {:induction false} RunKept(d: Durable, steps: seq<Other>)
    requires WellKept(d)
    ensures WellKept(Run(d, steps))
  {
    hide WellKept, Step;
    if steps != [] {
      RunKept(d, steps[..|steps| - 1]);
      StepKept(Run(d, steps[..|steps| - 1]), steps[|steps| - 1]);
    }
  }

  /** This attempt's creation event, which carries its timestamp. */
  predicate Signed(a: Attempt, e: EventRow) {
    e.at == a.stamp && e.payload == ChangeEvent(a)
  }

  /** The log only grows, and by no event of this attempt. */
  lemma StepAppends(d: Durable, x: Other, a: Attempt)
    requires x.Recapture? ==> x.b.stamp != a.stamp
    ensures d.events <= Step(d, x).events
    ensures forall i | |d.events| <= i < |Step(d, x).events| :: !Signed(a, Step(d, x).events[i])
  {
  }

  lemma {:induction false} RunAppends(d: Durable, steps: seq<Other>, a: Attempt)
    requires OthersThan(a, steps)
    ensures d.events <= Run(d, steps).events
    ensures forall i | |d.events| <= i < |Run(d, steps).events| :: !Signed(a, Run(d, steps).events[i])
  {
    hide Step, Signed;
    if steps != [] {
      var init, x := steps[..|steps| - 1], steps[|steps| - 1];
      assert forall y | y in init :: y in steps;
      RunAppends(d, init, a);
      StepAppends(Run(d, init), x, a);
      var was, now := Run(d, init).events, Run(d, steps).events;
      forall i | |d.events| <= i < |now| ensures !Signed(a, now[i]) { if i < |was| { assert now[i] == was[i]; } }
    }
  }

  // ---------------------------------------------------------------- soundness

  /** A task that may be captured has left no trace of a capture. */
  lemma Untold(d: Durable, a: Attempt)
    requires WellKept(d) && Admits(d, a)
    ensures forall i | 0 <= i < |d.events| :: !Asks(a, d.events[i]) && !Ends(a, d.events[i])
    ensures forall i | 0 <= i < |d.security| :: !Flags(a, d.security[i])
  {
    forall i | 0 <= i < |d.events| ensures !Asks(a, d.events[i]) && !Ends(a, d.events[i]) { assert Borne(d, d.events[i].payload); }
  }

  lemma {:induction false} WhereIn<T>(rows: seq<T>, p: T -> bool, x: T)
    ensures x in Where(rows, p) <==> x in rows && p(x)
  {
    if rows != [] {
      WhereIn(rows[..|rows| - 1], p, x);
      assert rows == rows[..|rows| - 1] + [rows[|rows| - 1]];
    }
  }

  lemma UnsignedNotWhole(e: Durable, a: Attempt)
    requires forall i | 0 <= i < |e.events| :: !Signed(a, e.events[i])
    ensures !Whole(e, a)
  {
    var change := Where(e.events, x => Asks(a, x));
    forall x | x in change ensures x in e.events { WhereIn(e.events, x => Asks(a, x), x); }
    if |change| == 1 { assert change[0] in change; }
  }

  /** Without a commit of this attempt, no run of other writers' steps, other
      captures of the same task among them, makes it look committed. */
  lemma CommittedIsSound(d: Durable, later: seq<Other>, a: Attempt)
    requires WellKept(d) && Admits(d, a) && OthersThan(a, later)
    ensures !Whole(Run(d, later), a)
  {
    hide Whole, WellKept, Admits;
    var e := Run(d, later);
    Untold(d, a);
    RunAppends(d, later, a);
    forall i | 0 <= i < |e.events| ensures !Signed(a, e.events[i]) {
      if i < |d.events| { assert e.events[i] == d.events[i] && !Asks(a, d.events[i]); }
    }
    UnsignedNotWhole(e, a);
  }

  /** After a commit no run of other writers' steps makes it look rolled back. */
  lemma RolledBackIsSound(d: Durable, later: seq<Other>, a: Attempt)
    requires Admits(d, a) && OthersThan(a, later)
    ensures !Untouched(Run(Commit(d, a), later), a)
  {
    var e := Run(Commit(d, a), later);
    RunAppends(Commit(d, a), later, a);
    var x := EventRow(d.nextSeq, None, ChangeEvent(a), a.stamp);
    assert Commit(d, a).events[|d.events|] == x;
    assert e.events[|d.events|] == x;
    WhereIn(e.events, y => Asks(a, y), x);
  }

  /** A capture whose commit raised: whether it took effect or not, and whatever
      others did before the question is asked, a definite answer is the truth. */
  method AnswerLater(d: Durable, a: Attempt, took: bool, later: seq<Other>, verified: seq<bool>) returns (v: Verdict)
    requires WellKept(d) && Admits(d, a) && OthersThan(a, later) && |verified| == |a.staged|
    ensures v == Committed ==> took
    ensures v == RolledBack ==> !took
  {
    hide WellKept, Run, Commit, Whole, Untouched;
    v := ReconcileCaptureCommit(Run(if took then Commit(d, a) else d, later), a, verified);
    if took { RolledBackIsSound(d, later, a); } else { CommittedIsSound(d, later, a); }
  }

  lemma {:induction false} WhereNone<T(!new)>(rows: seq<T>, p: T -> bool)
    requires forall i | 0 <= i < |rows| :: !p(rows[i])
    ensures Where(rows, p) == []
  {
    if rows != [] { WhereNone(rows[..|rows| - 1], p); }
  }

  lemma WhereSnoc<T>(rows: seq<T>, p: T -> bool, x: T)
    ensures Where(rows + [x], p) == Where(rows, p) + if p(x) then [x] else []
  {
    assert (rows + [x])[..|rows|] == rows;
  }

  /** Asked at once, the answer is exact: after a rollback "rolled back"; after a
      commit everything but the artifacts matches, and they do exactly when none
      was reused with another creation time. */
  lemma PromptAnswers(d: Durable, a: Attempt)
    requires WellKept(d) && Admits(d, a) && (forall x | x in a.staged && x.id in a.published :: x.id !in d.artifacts)
    ensures Untouched(d, a) && !Whole(d, a)
    ensures !Untouched(Commit(d, a), a)
    ensures Whole(Commit(d, a), a) <==> ArtifactsMatch(Commit(d, a), a)
  {
    hide WellKept, Asks, Ends, EventsMatch, ChangeEvent, TaskEvent;
    Untold(d, a);
    WhereNone(d.events, e => Asks(a, e));
    WhereNone(d.events, e => Ends(a, e));
    WhereNone(d.security, s => Flags(a, s));
    RolledBackIsSound(d, [], a);
    CommitEvents(d, a);
    if a.status.AbandonedPartial? { WhereSnoc(d.security, s => Flags(a, s), SecurityEvent(a)); }
  }

  lemma CommitEvents(d: Durable, a: Attempt)
    requires WellKept(d) && Admits(d, a)
    ensures EventsMatch(Commit(d, a), a)
  {
    Untold(d, a);
    var x, y := EventRow(d.nextSeq, None, ChangeEvent(a), a.stamp), EventRow(d.nextSeq + 1, Some(a.master), TaskEvent(a), a.stamp);
    assert Commit(d, a).events == (d.events + [x]) + [y];
    WhereNone(d.events, e => Asks(a, e));
    WhereNone(d.events, e => Ends(a, e));
    WhereSnoc(d.events, e => Asks(a, e), x);
    WhereSnoc(d.events + [x], e => Asks(a, e), y);
    WhereSnoc(d.events, e => Ends(a, e), x);
    WhereSnoc(d.events + [x], e => Ends(a, e), y);
  }

  // ---------------------------------------------------------------- whole and untouched

  lemma {:induction false} WhereTwice<T>(rows: seq<T>, p: T -> bool, i: nat, j: nat)
    requires i < j < |rows| && p(rows[i]) && p(rows[j])
    ensures |Where(rows, p)| >= 2
  {
    var init := rows[..|rows| - 1];
    if j < |init| {
      WhereTwice(init, p, i, j);
    } else {
      WhereIn(init, p, init[i]);
    }
  }

  /** "Committed" reads exactly the write set, and all of it. */
  lemma WholeMeans(d: Durable, e: Durable, a: Attempt)
    requires Admits(d, a) && WellKept(e)
    ensures Whole(e, a) <==> Holds(d, e, a)
  {
    hide WellKept, Asks, Ends, Where;
    if EventsMatch(e, a) { MatchedLast(e, a); }
    if e.runRunning && !e.cancelRequested {
      if i :| 0 <= i && i + 2 == |e.events| && Lasts(e, a, i) { LastMatched(e, a, i); }
    }
  }

  lemma MatchedLast(e: Durable, a: Attempt)
    requires WellKept(e) && EventsMatch(e, a)
    ensures exists i :: 0 <= i && i + 2 == |e.events| && Lasts(e, a, i)
  {
    var change, task := Where(e.events, x => Asks(a, x))[0], Where(e.events, x => Ends(a, x))[0];
    WhereIn(e.events, x => Asks(a, x), change);
    WhereIn(e.events, x => Ends(a, x), task);
    var i :| 0 <= i < |e.events| && e.events[i] == change;
    var k :| 0 <= k < |e.events| && e.events[k] == task;
    assert k == i + 1 && |e.events| == i + 2;
    forall j | 0 <= j < i ensures !Asks(a, e.events[j]) && !Ends(a, e.events[j]) {
      if Asks(a, e.events[j]) { WhereTwice(e.events, x => Asks(a, x), j, i); }
      if Ends(a, e.events[j]) { WhereTwice(e.events, x => Ends(a, x), j, k); }
    }
    assert Lasts(e, a, i);
  }

  lemma LastMatched(e: Durable, a: Attempt, i: nat)
    requires WellKept(e) && i + 2 == |e.events| && Lasts(e, a, i) && e.runRunning && !e.cancelRequested
    ensures EventsMatch(e, a)
  {
    var before, x, y := e.events[..i], e.events[i], e.events[i + 1];
    assert e.events == (before + [x]) + [y];
    WhereNone(before, v => Asks(a, v));
    WhereNone(before, v => Ends(a, v));
    WhereSnoc(before, v => Asks(a, v), x);
    WhereSnoc(before + [x], v => Asks(a, v), y);
    WhereSnoc(before, v => Ends(a, v), x);
    WhereSnoc(before + [x], v => Ends(a, v), y);
  }

  lemma {:induction false} WhereEmpty<T(!new)>(rows: seq<T>, p: T -> bool)
    ensures Where(rows, p) == [] <==> forall i | 0 <= i < |rows| :: !p(rows[i])
  {
    if forall i | 0 <= i < |rows| :: !p(rows[i]) {
      WhereNone(rows, p);
    } else {
      var i :| 0 <= i < |rows| && p(rows[i]);
      WhereIn(rows, p, rows[i]);
    }
  }

  /** "Rolled back" reads the rows as the attempt found them, and none of what it
      would have written. */
  lemma UntouchedMeans(d: Durable, e: Durable, a: Attempt)
    requires Admits(d, a)
    ensures Untouched(e, a) <==>
      && (forall x | x in a.staged && x.id in a.published :: x.id !in e.artifacts)
      && a.task !in e.changes
      && a.task in e.tasks && e.tasks[a.task] == d.tasks[a.task] && a.node in e.nodes && e.nodes[a.node] == d.nodes[a.node]
      && (forall i | 0 <= i < |e.events| :: !Creates(a, e.events[i].payload) && !Finishes(a, e.events[i].payload))
      && (forall i | 0 <= i < |e.security| :: !(e.security[i].task == a.task && e.security[i].changeSet == a.changeSet))
  {
    WhereEmpty(e.events, x => Asks(a, x));
    WhereEmpty(e.events, x => Ends(a, x));
    WhereEmpty(e.security, x => Flags(a, x));
  }

  predicate Creates(a: Attempt, p: Payload) {
    p.ChangePayload? && p.task == a.task && p.changeSet == a.changeSet && p.changeWas == None
  }

  predicate Finishes(a: Attempt, p: Payload) {
    p.TaskPayload? && p.task == a.task && p.taskWas == Some(TaskStatus.Running) && p.taskIs == a.target
  }
}
