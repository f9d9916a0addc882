/** The event repository: sequence allocation, and paging that replays a growing
    log without gaps. */
module EventLog {
  import opened Wrappers

  datatype Row = Row(id: nat, session: int, workflow: Option<int>, run: Option<int>, number: Option<nat>, payload: int)

  datatype RunKey = RunKey(session: int, workflow: int)

  /** An event somebody wants to append. */
  datatype NewEvent = NewEvent(session: int, workflow: Option<int>, run: Option<int>, payload: int)

  /** The two listings: a run's events by number, a session's by id. */
  datatype Listing = RunEvents(run: int) | SessionEvents(session: int)

  // ---------------------------------------------------------------- allocation

  function OfRun(rows: seq<Row>, run: int): seq<Row> {
    if rows == [] then []
    else OfRun(rows[..|rows| - 1], run) + if rows[|rows| - 1].run == Some(run) then [rows[|rows| - 1]] else []
  }

  /** Numbers 1, 2, 3, ... in order. */
  ghost predicate Gapless(rows: seq<Row>) {
    forall i | 0 <= i < |rows| :: rows[i].number == Some(i + 1)
  }

  ghost predicate IdsRise(rows: seq<Row>) {
    forall i, j | 0 <= i < j < |rows| :: rows[i].id < rows[j].id
  }

  /** A log as the repository keeps it: ids rise, and every run's events are
      numbered without gaps. */
  ghost predicate Kept(rows: seq<Row>, runs: set<int>) {
    && IdsRise(rows) && (forall r | r in runs :: Gapless(OfRun(rows, r)))
    && forall i | 0 <= i < |rows| :: (rows[i].run.Some? ==> rows[i].run.value in runs) && (rows[i].run.Some? <==> rows[i].number.Some?)
  }

  lemma OfRunSnoc(rows: seq<Row>, row: Row, run: int)
    ensures OfRun(rows + [row], run) == OfRun(rows, run) + if row.run == Some(run) then [row] else []
  {
    assert (rows + [row])[..|rows|] == rows;
  }

  // ---------------------------------------------------------------- paging

  /** A row as a listing sees it: the cursor key it is ordered by. */
  datatype Listed = Listed(key: int, row: Row)

  ghost predicate KeysRise(rows: seq<Listed>) {
    forall i, j | 0 <= i < j < |rows| :: rows[i].key < rows[j].key
  }

  /** The rows past a cursor, in order. */
  function Past(rows: seq<Listed>, cursor: int): seq<Listed> {
    if rows == [] then []
    else Past(rows[..|rows| - 1], cursor) + if rows[|rows| - 1].key > cursor then [rows[|rows| - 1]] else []
  }

  /** The first rows past the cursor, no more than the limit; fewer only if there
      are no more. */
  function Page(rows: seq<Listed>, cursor: int, limit: nat): (page: seq<Listed>)
    ensures page <= Past(rows, cursor) && |page| <= limit
    ensures |page| < limit ==> page == Past(rows, cursor)
  {
    var past := Past(rows, cursor);
    if |past| <= limit then past else past[..limit]
  }

  /** The rows past a cursor are those after the first `k`. */
  ghost predicate SplitsAt(rows: seq<Listed>, cursor: int, k: nat) {
    k <= |rows| && (forall i | 0 <= i < k :: rows[i].key <= cursor) && (forall i | k <= i < |rows| :: rows[i].key > cursor)
  }

  lemma {:induction false} SplitExists(rows: seq<Listed>, cursor: int) returns (k: nat)
    requires KeysRise(rows)
    ensures SplitsAt(rows, cursor, k)
  {
    if rows == [] {
      k := 0;
    } else {
      var init := rows[..|rows| - 1];
      k := SplitExists(init, cursor);
      assert forall i | 0 <= i < |init| :: init[i] == rows[i] && rows[i].key < rows[|rows| - 1].key;
      if rows[|rows| - 1].key <= cursor { k := |rows|; }
    }
  }

  lemma {:induction false} SplitIsPast(rows: seq<Listed>, cursor: int, k: nat)
    requires SplitsAt(rows, cursor, k)
    ensures Past(rows, cursor) == rows[k..]
  {
    if k == |rows| {
      NonePast(rows, cursor);
    } else {
      var init := rows[..|rows| - 1];
      SplitIsPast(init, cursor, k);
      assert rows[k..] == init[k..] + [rows[|rows| - 1]];
    }
  }

  lemma {:induction false} NonePast(rows: seq<Listed>, cursor: int)
    requires forall i | 0 <= i < |rows| :: rows[i].key <= cursor
    ensures Past(rows, cursor) == []
  {
    if rows != [] { NonePast(rows[..|rows| - 1], cursor); }
  }

  /** With rising keys, the rows past a cursor are a suffix. */
  lemma PastIsSuffix(rows: seq<Listed>, cursor: int) returns (k: nat)
    requires KeysRise(rows)
    ensures SplitsAt(rows, cursor, k) && Past(rows, cursor) == rows[k..]
  {
    k := SplitExists(rows, cursor);
    SplitIsPast(rows, cursor, k);
  }

  /** After a page, the rest is what lies past its last row. */
  lemma PageThenRest(rows: seq<Listed>, cursor: int, limit: nat)
    requires KeysRise(rows) && 0 < limit <= |Past(rows, cursor)|
    ensures Past(rows, cursor) == Past(rows, cursor)[..limit] + Past(rows, Past(rows, cursor)[limit - 1].key)
    ensures Past(rows, cursor)[limit - 1].key > cursor && Past(rows, cursor)[limit - 1] in rows
  {
    var k := PastIsSuffix(rows, cursor);
    var last := rows[k..][limit - 1];
    assert last == rows[k + limit - 1];
    var j := PastIsSuffix(rows, last.key);
    assert j == k + limit by {
      assert rows[k + limit - 1].key <= last.key;
      if k + limit < |rows| { assert rows[k + limit - 1].key < rows[k + limit].key; }
    }
    assert rows[k..] == rows[k..][..limit] + rows[k + limit..];
  }

  /** Rows appended later only extend what lies past a cursor. */
  lemma {:induction false} PastGrows(rows: seq<Listed>, more: seq<Listed>, cursor: int)
    ensures Past(rows + more, cursor) == Past(rows, cursor) + Past(more, cursor)
  {
    if more == [] {
      assert rows + more == rows;
    } else {
      var init := more[..|more| - 1];
      PastGrows(rows, init, cursor);
      assert (rows + more)[..|rows + more| - 1] == rows + init;
    }
  }

  /** A full page, then the log grows: nothing is lost or repeated. */
  lemma PageStep(view: seq<Listed>, grown: seq<Listed>, after: int, cursor: int, size: nat, result: seq<Listed>)
    requires KeysRise(grown) && view <= grown && after <= cursor && 0 < size <= |Past(view, cursor)|
    requires Past(view, after) == result + Past(view, cursor)
    ensures var page := Past(view, cursor)[..size]; var c := page[size - 1].key;
      && c > cursor && Past(grown, after) == (result + page) + Past(grown, c)
      && Past(view, after) <= Past(grown, after)
      && (grown == view ==> |Past(grown, c)| < |Past(view, cursor)|)
  {
    hide Past, KeysRise;
    var page := Past(view, cursor)[..size];
    var c := page[size - 1].key;
    var more := grown[|view|..];
    assert KeysRise(view) by { PrefixRises(view, grown); }
    assert grown == view + more;
    PageThenRest(view, cursor, size);
    PastGrows(view, more, after);
    PastGrows(view, more, c);
    PastSame(view, more, after, c);
    assert Past(grown, after) == (result + (page + Past(view, c))) + more;
  }

  lemma PrefixRises(view: seq<Listed>, grown: seq<Listed>)
    requires KeysRise(grown) && view <= grown
    ensures KeysRise(view)
  {
  }

  /** Rows that arrive after a page was read lie past both cursors. */
  lemma PastSame(view: seq<Listed>, more: seq<Listed>, after: int, cursor: int)
    requires KeysRise(view + more) && after <= cursor && exists r :: r in view && r.key == cursor
    ensures Past(more, after) == Past(more, cursor) == more
  {
    var r :| r in view && r.key == cursor;
    var i :| 0 <= i < |view| && view[i] == r;
    forall j | 0 <= j < |more| ensures more[j].key > cursor {
      assert (view + more)[i].key < (view + more)[|view| + j].key;
    }
    AllPast(more, cursor);
    AllPast(more, after);
  }

  lemma {:induction false} AllPast(rows: seq<Listed>, cursor: int)
    requires forall j | 0 <= j < |rows| :: rows[j].key > cursor
    ensures Past(rows, cursor) == rows
  {
    if rows != [] { AllPast(rows[..|rows| - 1], cursor); }
  }

  // ---------------------------------------------------------------- the two listings

  predicate Belongs(l: Listing, row: Row) {
    match l
    case RunEvents(run) => row.run == Some(run)
    case SessionEvents(session) => row.session == session
  }

  function Key(l: Listing, row: Row): int {
    if l.SessionEvents? then row.id else if row.number.Some? then row.number.value else 0
  }

  /** The rows of a listing in log order, which is its order. */
  function Listings(l: Listing, rows: seq<Row>): seq<Listed> {
    if rows == [] then []
    else
      var row := rows[|rows| - 1];
      Listings(l, rows[..|rows| - 1]) + if Belongs(l, row) then [Listed(Key(l, row), row)] else []
  }

  lemma {:induction false} ListingsGrow(l: Listing, rows: seq<Row>, more: seq<Row>)
    ensures Listings(l, rows + more) == Listings(l, rows) + Listings(l, more)
  {
    if more == [] {
      assert rows + more == rows;
    } else {
      ListingsGrow(l, rows, more[..|more| - 1]);
      assert (rows + more)[..|rows + more| - 1] == rows + more[..|more| - 1];
    }
  }

  /** A listing's rows are those of its run or session, each under its number or
      its id, and no other. */
  lemma {:induction false} ListingRows(l: Listing, rows: seq<Row>)
    ensures forall x | x in Listings(l, rows) :: x.row in rows
    ensures l.RunEvents? ==> forall x | x in Listings(l, rows) ::
      x.row.run == Some(l.run) && (x.row.number.Some? ==> x.key == x.row.number.value)
    ensures l.SessionEvents? ==> forall x | x in Listings(l, rows) :: x.row.session == l.session && x.key == x.row.id
    ensures forall i | 0 <= i < |rows| ::
      (if l.RunEvents? then rows[i].run == Some(l.run) else rows[i].session == l.session) ==> exists x :: x in Listings(l, rows) && x.row == rows[i]
  {
    if rows != [] {
      var init, last := rows[..|rows| - 1], rows[|rows| - 1];
      ListingRows(l, init);
      forall i | 0 <= i < |rows| && (if l.RunEvents? then rows[i].run == Some(l.run) else rows[i].session == l.session)
        ensures exists x :: x in Listings(l, rows) && x.row == rows[i]
      {
        if i < |init| {
          assert init[i] == rows[i];
          var x :| x in Listings(l, init) && x.row == init[i];
          assert x in Listings(l, rows);
        } else {
          assert Listed(Key(l, last), last) in Listings(l, rows);
        }
      }
    }
  }

  lemma {:induction false} RunListing(rows: seq<Row>, run: int)
    ensures |Listings(RunEvents(run), rows)| == |OfRun(rows, run)|
    ensures forall i | 0 <= i < |OfRun(rows, run)| ::
      Listings(RunEvents(run), rows)[i] == Listed(Key(RunEvents(run), OfRun(rows, run)[i]), OfRun(rows, run)[i])
  {
    if rows != [] { RunListing(rows[..|rows| - 1], run); }
  }

  lemma {:induction false} SessionListing(rows: seq<Row>, session: int)
    requires IdsRise(rows)
    ensures KeysRise(Listings(SessionEvents(session), rows))
    ensures forall x | x in Listings(SessionEvents(session), rows) :: exists i :: 0 <= i < |rows| && x.key == rows[i].id
  {
    if rows != [] {
      var init := rows[..|rows| - 1];
      assert forall i | 0 <= i < |init| :: init[i] == rows[i];
      SessionListing(init, session);
      var was := Listings(SessionEvents(session), init);
      forall x | x in was ensures x.key < rows[|rows| - 1].id && exists i :: 0 <= i < |rows| && x.key == rows[i].id {
        var i :| 0 <= i < |init| && x.key == init[i].id;
        assert rows[i].id < rows[|rows| - 1].id;
      }
    }
  }

  lemma {:induction false} NoRunNoRows(rows: seq<Row>, run: int)
    requires forall i | 0 <= i < |rows| :: rows[i].run != Some(run)
    ensures OfRun(rows, run) == []
  {
    if rows != [] { NoRunNoRows(rows[..|rows| - 1], run); }
  }

  /** In a log as the repository keeps it, both listings have rising keys. */
  lemma ListingsRise(l: Listing, rows: seq<Row>, runs: set<int>)
    requires Kept(rows, runs)
    ensures KeysRise(Listings(l, rows))
  {
    match l
    case RunEvents(run) =>
      RunListing(rows, run);
      if run !in runs { NoRunNoRows(rows, run); }
    case SessionEvents(session) => SessionListing(rows, session);
  }

  // ---------------------------------------------------------------- the repository

  class EventRepository {
    var rows: seq<Row>
    var next: map<int, nat>
    var lastId: nat
    const sessions: set<int>
    const workflows: map<int, int>
    const runs: map<int, RunKey>

    ghost predicate Valid()
      reads this
    {
      && next.Keys == runs.Keys
      && Kept(rows, runs.Keys)
      && (forall r | r in runs :: next[r] == |OfRun(rows, r)| + 1)
      && (forall i | 0 <= i < |rows| :: rows[i].id <= lastId)
    }

    constructor (sessions: set<int>, workflows: map<int, int>, runs: map<int, RunKey>)
      ensures Valid() && rows == []
      ensures this.sessions == sessions && this.workflows == workflows && this.runs == runs
    {
      this.sessions, this.workflows, this.runs := sessions, workflows, runs;
      rows, lastId := [], 0;
      next := map r | r in runs :: 1;
      new;
      assert forall r :: OfRun(rows, r) == [];
    }

    /** The run is the workflow's, and the workflow the session's. */
    predicate Traced(session: int, workflow: Option<int>, run: int) {
      && workflow.Some? && workflow.value in workflows && workflows[workflow.value] == session
      && run in runs && runs[run] == RunKey(session, workflow.value)
    }

    /** A row of the lineage is not there, all before it being right. */
    predicate Missing(session: int, workflow: Option<int>, run: Option<int>) {
      || session !in sessions
      || (run.Some? && workflow.Some?
          && (workflow.value !in workflows || (workflows[workflow.value] == session && run.value !in runs)))
    }

    /** Which fault, if any, the lineage of an event raises. */
    function Lineage(session: int, workflow: Option<int>, run: Option<int>): (fault: Option<Fault>)
      ensures fault.None? <==> (session in sessions && (run.None? || Traced(session, workflow, run.value)))
      ensures fault == Some(Fault.NotFound) <==> ((run.Some? ==> workflow.Some?) && Missing(session, workflow, run))
      ensures fault.Some? ==> fault.value.NotFound? || fault.value.Invalid?
    {
      if run.Some? && workflow.None? then Some(Fault.Invalid)
      else if session !in sessions then Some(Fault.NotFound)
      else if run.None? then None
      else if workflow.value !in workflows then Some(Fault.NotFound)
      else if workflows[workflow.value] != session then Some(Fault.Invalid)
      else if run.value !in runs then Some(Fault.NotFound)
      else if runs[run.value] != RunKey(session, workflow.value) then Some(Fault.Invalid)
      else None
    }

    /** Appends an event; a run event takes the run's next number. */
    method AppendIn(session: int, workflow: Option<int>, run: Option<int>, payload: int) returns (fault: Option<Fault>)
      requires Valid()
      modifies this
      ensures Valid()
      ensures fault == Lineage(session, workflow, run)
      ensures fault.Some? ==> rows == old(rows) && next == old(next)
      ensures fault.None? ==> exists row ::
        && rows == old(rows) + [row] && row.id > old(lastId)
        && row == Row(row.id, session, workflow, run, row.number, payload)
        && row.number == if run.Some? then Some(|OfRun(old(rows), run.value)| + 1) else None
    {
      fault := Lineage(session, workflow, run);
      if fault.Some? { return; }
      var number: Option<nat> := None;
      if run.Some? {
        number := Some(next[run.value]);
        next := next[run.value := next[run.value] + 1];
      }
      var row := Row(lastId + 1, session, workflow, run, number, payload);
      lastId := lastId + 1;
      rows := rows + [row];
      assert rows == old(rows) + [row];
      forall r | r in runs ensures Gapless(OfRun(rows, r)) && next[r] == |OfRun(rows, r)| + 1 {
        OfRunSnoc(old(rows), row, r);
      }
    }

    /** What other writers append between two pages. */
    method AppendAll(events: seq<NewEvent>)
      requires Valid()
      modifies this
      ensures Valid() && old(rows) <= rows
      ensures events == [] ==> rows == old(rows)
    {
      for i := 0 to |events|
        invariant Valid() && old(rows) <= rows && (i == 0 ==> rows == old(rows))
      {
        var fault := AppendIn(events[i].session, events[i].workflow, events[i].run, events[i].payload);
      }
    }

    /** Reads page after page until a short one; `script` is what others append
        after each page. Nothing is lost, repeated or out of order, and all that
        was there at the start is covered. */
    method ListAll(l: Listing, after: int, size: nat, script: seq<seq<NewEvent>>) returns (result: seq<Listed>)
      requires Valid() && size >= 1
      modifies this
      ensures Valid() && old(rows) <= rows
      ensures result == Past(Listings(l, rows), after)
      ensures Past(Listings(l, old(rows)), after) <= result
    {
      hide Past, KeysRise, Kept, Listings;
      var cursor, pages := after, 0;
      result := [];
      while true
        invariant Valid() && old(rows) <= rows && after <= cursor && pages <= |script|
        invariant Past(Listings(l, rows), after) == result + Past(Listings(l, rows), cursor)
        invariant Past(Listings(l, old(rows)), after) <= Past(Listings(l, rows), after)
        decreases |script| - pages, |Past(Listings(l, rows), cursor)|
      {
        ghost var was := rows;
        var page := Page(Listings(l, rows), cursor, size);
        if |page| < size { return result + page; }
        if pages < |script| {
          AppendAll(script[pages]);
          pages := pages + 1;
        }
        assert rows == was + rows[|was|..];
        ListingsGrow(l, was, rows[|was|..]);
        ListingsRise(l, rows, runs.Keys);
        PageStep(Listings(l, was), Listings(l, rows), after, cursor, size, result);
        result := result + page;
        cursor := page[|page| - 1].key;
      }
    }
  }
}
