/** Artifacts: files published without overwriting, and the rows that vouch for
    them. File operations may fail; commits may be ambiguous. */
module Artifacts {
  type Bytes = seq<int>

  /** The final path of an artifact is made of its type and id. */
  datatype Name = Name(kind: int, id: int)

  /** The digest is injective, so it is modelled by the content it was taken of. */
  datatype ArtifactRow = ArtifactRow(name: Name, session: int, owner: int, digest: Bytes, size: nat, createdAt: int)

  datatype HandleState = Staged | Published | RolledBack | Discarded | Finalized | CleanupRequired

  /** Which file operations go through. */
  datatype Luck = Luck(temp: bool, link: bool, verify: bool, cleanup: bool, recheck: bool, unlink: bool)

  const LUCKY := Luck(true, true, true, true, true, true)

  /** A one-time handle for a staged write. */
  class Handle {
    const name: Name
    const bytes: Bytes
    var state: HandleState
    var temp: bool

    constructor (name: Name, bytes: Bytes)
      ensures this.name == name && this.bytes == bytes && state == Staged && temp
    {
      this.name, this.bytes := name, bytes;
      state, temp := Staged, true;
    }
  }

  // ---------------------------------------------------------------- the file store

  /** Published means every operation went through; a handle is left rolled back or
      owing cleanup exactly when the link was made and a later operation failed,
      by whether the final could be removed. */
  lemma PublishedMeans(temp: bool, taken: bool, luck: Luck)
    ensures var s := AfterPublish(Staged, temp, taken, luck);
      var linked := temp && luck.temp && !taken && luck.link;
      var sound := luck.verify && luck.cleanup && luck.recheck;
      && (s == Published <==> linked && sound)
      && (s == HandleState.RolledBack <==> linked && !sound && luck.unlink)
      && (s == CleanupRequired <==> linked && !sound && !luck.unlink)
      && (s == Discarded <==> temp && luck.temp && taken && luck.cleanup)
      && (s == Staged <==> !temp || !luck.temp || (if taken then !luck.cleanup else !luck.link))
    ensures forall s: HandleState | s != Staged :: AfterPublish(s, temp, taken, luck) == s
  {
  }

  /** Where publishing leaves a handle; `taken` tells of an existing final. */
  function AfterPublish(s: HandleState, temp: bool, taken: bool, luck: Luck): HandleState {
    if s != Staged || !temp || !luck.temp then s
    else if taken then if luck.cleanup then Discarded else s
    else if !luck.link then s
    else if luck.verify && luck.cleanup && luck.recheck then Published
    else if luck.unlink then HandleState.RolledBack
    else CleanupRequired
  }

  class ArtifactStore {
    var finals: map<Name, Bytes>

    constructor ()
      ensures finals == map[]
    {
      finals := map[];
    }

    /** Removes a temp file if there is one. */
    method CleanupTemp(h: Handle, luck: bool) returns (ok: bool)
      modifies h`temp
      ensures ok <==> luck || !old(h.temp)
      ensures h.temp == (old(h.temp) && !luck)
    {
      ok := luck || !h.temp;
      if ok { h.temp := false; }
    }

    method Unlink(name: Name)
      modifies this
      ensures finals == old(finals) - {name}
    {
      finals := finals - {name};
    }

    /** Links the temp file to its final name, verifies, drops the temp name, and
        verifies again. An existing final is never touched; a failure after
        linking removes the final or leaves the handle needing cleanup. */
    method Publish(h: Handle, luck: Luck) returns (ok: bool)
      modifies this, h
      ensures h.state == AfterPublish(old(h.state), old(h.temp), h.name in old(finals), luck)
      ensures ok <==> old(h.state) == Staged && h.state == Published
      ensures ok ==> !h.temp
      ensures finals == if old(h.state) == Staged && (h.state == Published || h.state == CleanupRequired)
        then old(finals)[h.name := h.bytes] else old(finals)
      ensures finals != old(finals) ==> h.name !in old(finals)
    {
      if h.state != Staged || !h.temp || !luck.temp { return false; }
      if h.name in finals {
        var cleaned := CleanupTemp(h, luck.cleanup);
        if cleaned { h.state := Discarded; }
        return false;
      }
      if !luck.link { return false; }
      finals := finals[h.name := h.bytes];
      var cleaned := false;
      if luck.verify { cleaned := CleanupTemp(h, luck.cleanup); }
      if !cleaned || !luck.recheck {
        if luck.unlink {
          Unlink(h.name);
          assert finals == old(finals);
          h.state := HandleState.RolledBack;
        } else {
          h.state := CleanupRequired;
        }
        return false;
      }
      h.state := Published;
      ok := true;
    }

    method RollbackPublish(h: Handle, luck: bool) returns (ok: bool)
      modifies this, h`state
      ensures ok <==> (old(h.state) == Published && (luck || h.name !in old(finals))) || old(h.state) == Staged
      ensures ok ==> h.state == RolledBack
      ensures !ok ==> h.state == if old(h.state) == Published then CleanupRequired else old(h.state)
      ensures finals == if ok && old(h.state) == Published then old(finals) - {h.name} else old(finals)
    {
      if h.state == Published {
        if h.name in finals {
          if !luck { h.state := CleanupRequired; return false; }
          Unlink(h.name);
        }
        h.state := HandleState.RolledBack;
        return true;
      }
      if h.state == Staged { h.state := HandleState.RolledBack; return true; }
      ok := false;
    }

    /** Terminal, and only for a published final whose bytes are still its own. */
    method Finalize(h: Handle) returns (ok: bool)
      modifies h`state
      ensures ok <==> old(h.state) == Published && h.name in finals && finals[h.name] == h.bytes
      ensures h.state == if ok then Finalized else old(h.state)
    {
      if h.state != Published || h.name !in finals || finals[h.name] != h.bytes { return false; }
      h.state := Finalized;
      ok := true;
    }

    method DiscardStaged(h: Handle, luck: bool) returns (ok: bool)
      modifies h
      ensures ok <==> (old(h.state) == Staged || old(h.state) == RolledBack) && (luck || !old(h.temp))
      ensures h.state == if ok then Discarded else old(h.state)
      ensures h.temp == (old(h.temp) && !(luck && (old(h.state) == Staged || old(h.state) == HandleState.RolledBack)))
    {
      if h.state != Staged && h.state != RolledBack { return false; }
      ok := CleanupTemp(h, luck);
      if ok { h.state := Discarded; }
    }

    /** Cleans up after a failed create: the final goes exactly when the handle
        had published it, or could not yet take it back. */
    method Abort(h: Handle, luck: Luck) returns (ok: bool)
      modifies this, h
      ensures finals == if (old(h.state) == Published || old(h.state) == CleanupRequired) && luck.unlink
        then old(finals) - {h.name} else old(finals)
      ensures ok <==> (old(h.state) == Discarded
                       || (old(h.state) != Finalized && (luck.cleanup || !old(h.temp))
                           && (luck.unlink || (old(h.state) != Published && old(h.state) != CleanupRequired))))
      ensures ok ==> h.state == Discarded
      ensures h.state == Finalized <==> old(h.state) == Finalized
      ensures h.temp == (old(h.temp) && !(luck.cleanup && old(h.state) != Finalized && old(h.state) != Discarded))
    {
      if h.state == Finalized { return false; }
      if h.state == Discarded { return true; }
      var stuck := false;
      if h.state == Published || h.state == CleanupRequired {
        if luck.unlink { Unlink(h.name); h.state := HandleState.RolledBack; } else { stuck := true; }
      }
      var cleaned := CleanupTemp(h, luck.cleanup);
      if !cleaned { return false; }
      if stuck { h.state := CleanupRequired; return false; }
      h.state := Discarded;
      ok := true;
    }
  }

  // ---------------------------------------------------------------- rows

  predicate HasRow(rows: seq<ArtifactRow>, id: int) {
    exists i :: 0 <= i < |rows| && rows[i].name.id == id
  }

  function Total(rows: seq<ArtifactRow>, session: int): nat {
    if rows == [] then 0
    else Total(rows[..|rows| - 1], session) + if rows[|rows| - 1].session == session then rows[|rows| - 1].size else 0
  }

  function Without(rows: seq<ArtifactRow>, id: int): seq<ArtifactRow> {
    if rows == [] then []
    else Without(rows[..|rows| - 1], id) + if rows[|rows| - 1].name.id == id then [] else [rows[|rows| - 1]]
  }

  lemma {:induction false} WithoutRows(rows: seq<ArtifactRow>, id: int)
    ensures forall r :: r in Without(rows, id) <==> r in rows && r.name.id != id
  {
    if rows != [] {
      var init, last := rows[..|rows| - 1], rows[|rows| - 1];
      WithoutRows(init, id);
      assert rows == init + [last];
    }
  }

  lemma {:induction false} WithoutTotal(rows: seq<ArtifactRow>, id: int, session: int)
    ensures Total(Without(rows, id), session) <= Total(rows, session)
  {
    if rows != [] {
      var init, last := rows[..|rows| - 1], rows[|rows| - 1];
      WithoutTotal(init, id, session);
      TotalSnoc(Without(init, id), last, session);
      assert Without(init, id) + [] == Without(init, id);
    }
  }

  /** A row tells the truth about a file: same bytes, same length. */
  predicate Vouched(finals: map<Name, Bytes>, r: ArtifactRow) {
    r.name in finals && finals[r.name] == r.digest && |finals[r.name]| == r.size
  }

  ghost predicate Backed(rows: seq<ArtifactRow>, finals: map<Name, Bytes>) {
    forall r | r in rows :: Vouched(finals, r)
  }

  lemma {:induction false} TotalSnoc(rows: seq<ArtifactRow>, r: ArtifactRow, session: int)
    ensures Total(rows + [r], session) == Total(rows, session) + if r.session == session then r.size else 0
  {
    assert (rows + [r])[..|rows|] == rows;
  }

  /** Removing one final keeps every other row vouched for. */
  lemma RemovalBacked(rows: seq<ArtifactRow>, finals: map<Name, Bytes>, name: Name)
    requires Backed(rows, finals)
    ensures Backed(rows, finals - {name}) <==> forall r | r in rows :: r.name != name
  {
    if r :| r in rows && r.name == name { assert !Vouched(finals - {name}, r); }
    if forall r | r in rows :: r.name != name {
      forall r | r in rows ensures Vouched(finals - {name}, r) { assert Vouched(finals, r); }
    }
  }

  lemma NoRow(rows: seq<ArtifactRow>, name: Name)
    requires !HasRow(rows, name.id)
    ensures forall r | r in rows :: r.name != name
  {
    forall r | r in rows ensures r.name != name {
      var i :| 0 <= i < |rows| && rows[i] == r;
    }
  }

  ghost predicate UniqueIds(rows: seq<ArtifactRow>) {
    forall i, j | 0 <= i < j < |rows| :: rows[i].name.id != rows[j].name.id
  }

  lemma UniqueSnoc(rows: seq<ArtifactRow>, r: ArtifactRow)
    requires UniqueIds(rows) && !HasRow(rows, r.name.id)
    ensures UniqueIds(rows + [r])
  {
  }

  lemma {:induction false} UniqueWithout(rows: seq<ArtifactRow>, id: int)
    requires UniqueIds(rows)
    ensures UniqueIds(Without(rows, id))
  {
    if rows != [] {
      var init, last := rows[..|rows| - 1], rows[|rows| - 1];
      UniqueWithout(init, id);
      WithoutRows(init, id);
      var kept := Without(init, id);
      forall i | 0 <= i < |kept| ensures kept[i].name.id != last.name.id {
        assert kept[i] in init;
        var j :| 0 <= j < |init| && init[j] == kept[i];
        assert rows[j].name.id != rows[|rows| - 1].name.id;
      }
    }
  }

  // ---------------------------------------------------------------- the repository

  datatype Commit = Commits | RollsBack | CommitsThenRaises | RollsBackThenRaises

  datatype Attempt = Inserted | InDoubt | Failed

  datatype Verdict = Kept | Undone | Refused

  class ArtifactRepository {
    const store: ArtifactStore
    const maxArtifact: nat
    const maxSession: nat
    var rows: seq<ArtifactRow>

    /** Every committed row has its file, ids are unique, and no session exceeds
        its quota. */
    ghost predicate Valid()
      reads this, store
    {
      Backed(rows, store.finals) && UniqueIds(rows) && Quota()
    }

    ghost predicate Quota()
      reads this
    {
      forall s :: Total(rows, s) <= maxSession
    }

    constructor (store: ArtifactStore, maxArtifact: nat, maxSession: nat)
      ensures this.store == store && this.maxArtifact == maxArtifact && this.maxSession == maxSession && rows == [] && Valid()
    {
      this.store, this.maxArtifact, this.maxSession := store, maxArtifact, maxSession;
      rows := [];
    }

    /** The row a handle's artifact gets. */
    function RowFor(h: Handle, session: int, owner: int, at: int): ArtifactRow {
      ArtifactRow(h.name, session, owner, h.bytes, |h.bytes|, at)
    }

    /** Whether the row of a new artifact may be inserted. */
    predicate Admits(h: Handle, session: int)
      reads this
    {
      |h.bytes| <= maxArtifact && Total(rows, session) + |h.bytes| <= maxSession && !HasRow(rows, h.name.id)
    }

    /** Publishes and, if the transaction is to commit, inserts the row. */
    method PublishAndInsert(h: Handle, row: ArtifactRow, luck: Luck, commits: bool) returns (ok: bool)
      requires Valid() && Admits(h, row.session) && row == RowFor(h, row.session, row.owner, row.createdAt)
      modifies this`rows, store, h
      ensures Valid()
      ensures ok ==> old(h.state) == Staged && h.state == Published && h.name !in old(store.finals) && Vouched(store.finals, row)
      ensures rows == if ok && commits then old(rows) + [row] else old(rows)
      ensures h.state == AfterPublish(old(h.state), old(h.temp), h.name in old(store.finals), luck)
      ensures ok <==> old(h.state) == Staged && h.state == Published
      ensures store.finals == if old(h.state) == Staged && (h.state == Published || h.state == CleanupRequired)
        then old(store.finals)[h.name := h.bytes] else old(store.finals)
      ensures forall n | n in old(store.finals) :: n in store.finals && store.finals[n] == old(store.finals)[n]
    {
      ghost var before := store.finals;
      ok := store.Publish(h, luck);
      forall r | r in rows ensures Vouched(store.finals, r) { assert Vouched(before, r); }
      if ok && commits {
        forall s ensures Total(rows + [row], s) <= maxSession { TotalSnoc(rows, row, s); }
        UniqueSnoc(rows, row);
        rows := rows + [row];
      }
    }

    /** The transaction of `create`: quota, duplicate and publication, then the
        insert; the commit may raise having committed or not. */
    method CreateIn(h: Handle, session: int, owner: int, ownerKnown: bool, at: int, luck: Luck, commit: Commit) returns (a: Attempt)
      requires Valid()
      modifies this`rows, store, h
      ensures Valid()
      ensures old(Admits(h, session)) <==> (|h.bytes| <= maxArtifact && Total(old(rows), session) + |h.bytes| <= maxSession
                                            && !HasRow(old(rows), h.name.id))
      ensures rows == old(rows) || rows == old(rows) + [ArtifactRow(h.name, session, owner, h.bytes, |h.bytes|, at)]
      ensures a != Failed <==> (ownerKnown && old(Admits(h, session)) && old(h.state) == Staged
                                && AfterPublish(old(h.state), old(h.temp), h.name in old(store.finals), luck) == Published)
      ensures h.state == if ownerKnown && old(Admits(h, session))
        then AfterPublish(old(h.state), old(h.temp), h.name in old(store.finals), luck) else old(h.state)
      ensures store.finals == if old(h.state) == Staged && (h.state == Published || h.state == CleanupRequired)
        then old(store.finals)[h.name := h.bytes] else old(store.finals)
      ensures a == Inserted <==> a != Failed && commit == Commits
      ensures rows == if a != Failed && (commit == Commits || commit == CommitsThenRaises)
        then old(rows) + [RowFor(h, session, owner, at)] else old(rows)
      ensures a != Failed ==> h.name !in old(store.finals) && Vouched(store.finals, RowFor(h, session, owner, at))
      ensures h.state == CleanupRequired && old(h.state) == Staged ==> !HasRow(rows, h.name.id)
      ensures forall n | n in old(store.finals) :: n in store.finals && store.finals[n] == old(store.finals)[n]
    {
      if !ownerKnown || !Admits(h, session) { return Failed; }
      var published := PublishAndInsert(h, RowFor(h, session, owner, at), luck, commit == Commits || commit == CommitsThenRaises);
      a := if !published then Failed else if commit == Commits then Inserted else InDoubt;
    }

    /** After a raising commit: looks for the row in a transaction of its own.
        It never removes a file a row vouches for. */
    method ReconcileCreateCommit(h: Handle, expected: ArtifactRow, luck: Luck) returns (v: Verdict)
      requires Valid() && expected.name == h.name && expected.digest == h.bytes
      modifies store, h
      ensures Valid()
      ensures v == Kept <==> expected in rows && old(h.state) == Published
      ensures v == Kept ==> Vouched(store.finals, expected) && h.state == Finalized
      ensures HasRow(rows, h.name.id) && expected !in rows ==> v == Refused && h.state == old(h.state)
      ensures v != Kept && old(h.state) != Finalized ==> h.state != Finalized
      ensures v == Undone ==> !HasRow(rows, h.name.id) && h.state == Discarded
      ensures v == Undone && old(h.state) == Published && luck.unlink ==> h.name !in store.finals
      ensures HasRow(rows, h.name.id) ==> store.finals == old(store.finals)
    {
      if !HasRow(rows, h.name.id) {
        NoRow(rows, h.name);
        RemovalBacked(rows, store.finals, h.name);
        var aborted := store.Abort(h, luck);
        return if aborted then Undone else Refused;
      }
      var i :| 0 <= i < |rows| && rows[i].name.id == h.name.id;
      var row := rows[i];
      if row != expected {
        assert expected !in rows;
        return Refused;
      }
      assert Vouched(store.finals, row);
      var finalized := store.Finalize(h);
      return if finalized then Kept else Refused;
    }

    /** Cleanup outside any transaction: it breaks the agreement exactly when it
        removes a final that a row has come to vouch for in the meantime. */
    method AbortCreate(h: Handle, luck: Luck) returns (ok: bool)
      requires Valid()
      modifies store, h
      ensures Backed(rows, store.finals) <==>
        !((old(h.state) == Published || old(h.state) == CleanupRequired) && luck.unlink && exists r | r in rows :: r.name == h.name)
      ensures old(h.state) != Finalized ==> h.state != Finalized
    {
      RemovalBacked(rows, store.finals, h.name);
      ok := store.Abort(h, luck);
    }

    /** `create` start to finish with nothing in between: the caller is told of a
        row exactly when there is one. */
    method Create(h: Handle, session: int, owner: int, ownerKnown: bool, at: int, luck: Luck, commit: Commit) returns (v: Verdict)
      requires Valid() && h.state == Staged
      modifies this`rows, store, h
      ensures Valid()
      ensures v == Kept ==> rows == old(rows) + [RowFor(h, session, owner, at)] && h.state == Finalized
      ensures v != Kept ==> rows == old(rows) && h.state != Finalized
      ensures v == Kept <==> (ownerKnown && old(Admits(h, session)) && (commit == Commits || commit == CommitsThenRaises)
                              && AfterPublish(Staged, old(h.temp), h.name in old(store.finals), luck) == Published)
    {
      var attempt := CreateIn(h, session, owner, ownerKnown, at, luck, commit);
      var row := RowFor(h, session, owner, at);
      if attempt == Failed {
        if h.state == CleanupRequired { NoRow(rows, h.name); }
        var cleaned := AbortCreate(h, luck);
        return Refused;
      }
      if attempt == Inserted {
        var finalized := store.Finalize(h);
        assert finalized;
        return Kept;
      }
      v := ReconcileCreateCommit(h, row, luck);
    }

    /** Publishes one artifact of a caller's transaction; an identical committed
        artifact may be reused, and then the staged file is dropped. */
    method PublishStagedIn(h: Handle, row: ArtifactRow, allowExisting: bool, luck: Luck, commits: bool) returns (ok: bool, created: bool)
      requires Valid() && row == RowFor(h, row.session, row.owner, row.createdAt)
      modifies this`rows, store, h
      ensures Valid()
      ensures rows == if ok && created && commits then old(rows) + [row] else old(rows)
      ensures ok && !created ==> allowExisting && store.finals == old(store.finals) && h.state == Discarded
      ensures ok && !created ==> exists r | r in rows :: r.(createdAt := row.createdAt) == row && Vouched(store.finals, r)
      ensures ok && created ==> Vouched(store.finals, row) && h.state == Published
      ensures created <==> (!HasRow(old(rows), h.name.id) && |h.bytes| <= maxArtifact && Total(old(rows), row.session) + |h.bytes| <= maxSession
                            && old(h.state) == Staged && AfterPublish(Staged, old(h.temp), h.name in old(store.finals), luck) == Published)
      ensures ok <==> (created || (allowExisting && (exists r | r in old(rows) :: r.(createdAt := row.createdAt) == row)
                                   && (old(h.state) == Staged || old(h.state) == HandleState.RolledBack) && (luck.cleanup || !old(h.temp))))
      ensures forall n | n in old(store.finals) :: n in store.finals && store.finals[n] == old(store.finals)[n]
    {
      if HasRow(rows, h.name.id) {
        var i :| 0 <= i < |rows| && rows[i].name.id == h.name.id;
        var existing := rows[i];
        if !allowExisting || existing.(createdAt := row.createdAt) != row { return false, false; }
        assert Vouched(store.finals, existing);
        var discarded := store.DiscardStaged(h, luck.cleanup);
        return discarded, false;
      }
      if !Admits(h, row.session) { return false, false; }
      ok := PublishAndInsert(h, row, luck, commits);
      created := ok;
    }

    // -------------------------------------------------------------- removal

    /** Removes a final only when no row has its id. */
    method ReconcileOrphan(name: Name) returns (removed: bool)
      requires Valid()
      modifies store
      ensures Valid()
      ensures removed <==> !HasRow(rows, name.id) && name in old(store.finals)
      ensures store.finals == if removed then old(store.finals) - {name} else old(store.finals)
    {
      if HasRow(rows, name.id) || name !in store.finals { return false; }
      NoRow(rows, name);
      RemovalBacked(rows, store.finals, name);
      store.Unlink(name);
      removed := true;
    }

    /** The row half of `delete`, in a transaction. */
    method DeleteRow(id: int)
      requires Valid()
      modifies this`rows
      ensures Valid() && rows == Without(old(rows), id) && !HasRow(rows, id)
    {
      forall s ensures Total(Without(rows, id), s) <= maxSession { WithoutTotal(rows, id, s); }
      WithoutRows(rows, id);
      UniqueWithout(rows, id);
      var kept := Without(rows, id);
      assert forall i | 0 <= i < |kept| :: kept[i] in kept;
      rows := kept;
    }

    /** The file half of `delete`, after the commit: it breaks the agreement
        exactly when the id has been published and committed again. */
    method DeleteFile(name: Name)
      requires Valid()
      modifies store
      ensures store.finals == old(store.finals) - {name}
      ensures Backed(rows, store.finals) <==> !exists r | r in rows :: r.name == name
    {
      RemovalBacked(rows, store.finals, name);
      store.Unlink(name);
    }
  }

  // ---------------------------------------------------------------- cleanup that comes too late

  /** A create that still owes its cleanup, an orphan reconciliation, a second
      create of the same artifact: the late cleanup removes the second's file. */
  method AbortTooLate() returns (repository: ArtifactRepository, late: Handle)
    ensures !Backed(repository.rows, repository.store.finals)
  {
    var store := new ArtifactStore();
    repository := new ArtifactRepository(store, 1, 1);
    late := new Handle(Name(0, 1), [7]);
    var failed := repository.CreateIn(late, 0, 0, true, 0, LUCKY.(recheck := false, unlink := false), Commits);
    assert failed == Failed && late.state == CleanupRequired;
    var removed := repository.ReconcileOrphan(late.name);
    var second := new Handle(Name(0, 1), [7]);
    var kept := repository.Create(second, 0, 0, true, 0, LUCKY, Commits);
    assert kept == Kept && repository.rows[0].name == late.name && repository.rows[0] in repository.rows;
    var cleaned := repository.AbortCreate(late, LUCKY);
  }

  /** Between the two halves of a deletion the file is reconciled away and the id
      committed again: the second half removes the new file. */
  method DeleteTooLate() returns (repository: ArtifactRepository)
    ensures !Backed(repository.rows, repository.store.finals)
  {
    var store := new ArtifactStore();
    repository := new ArtifactRepository(store, 1, 1);
    var name := Name(0, 1);
    var first := new Handle(name, [7]);
    var kept := repository.Create(first, 0, 0, true, 0, LUCKY, Commits);
    assert kept == Kept;
    repository.DeleteRow(1);
    var removed := repository.ReconcileOrphan(name);
    var second := new Handle(name, [7]);
    kept := repository.Create(second, 0, 0, true, 0, LUCKY, Commits);
    assert kept == Kept && repository.rows[|repository.rows| - 1].name == name;
    repository.DeleteFile(name);
  }
}
