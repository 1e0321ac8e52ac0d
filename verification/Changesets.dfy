/** The changeset algebra: what the SQLite session extension records (`capture`) and what
    `applyChangeset` does with it under abort-on-conflict.

    A database maps row identities to rows of non-key cells.  A changeset holds at most one
    change per row.  An INSERT or DELETE carries the whole row; an UPDATE carries only the cells
    it changed, with their before-images, and only those are compared when it is applied. */
module Changesets {
  import opened Basics

  datatype Value = Null | Integer(n: int) | Text(s: string)
  datatype RowId = RowId(table: string, pk: Value)
  type Row = seq<Value>
  type Database = map<RowId, Row>

  datatype CellChange = CellChange(before: Value, after: Value)
  datatype Change = Insert(row: Row) | Delete(row: Row) | Update(cells: map<nat, CellChange>)
  type Changeset = map<RowId, Change>

  function Get(db: Database, k: RowId): Option<Row> {
    if k in db then Some(db[k]) else None
  }

  /** Before-image test of one change: key presence, and every recorded cell. */
  predicate Matches(row: Option<Row>, ch: Change) {
    match ch
    case Insert(_) => row.None?
    case Delete(r) => row == Some(r)
    case Update(cells) => row.Some? && forall c :: c in cells ==> c < |row.value| && row.value[c] == cells[c].before
  }

  function Patched(row: Row, cells: map<nat, CellChange>): (r: Row) {
    seq(|row|, (i: nat) requires i < |row| => if i in cells then cells[i].after else row[i])
  }

  /** The row one change leaves behind when its before-image matches. */
  function NewRow(row: Option<Row>, ch: Change): Option<Row>
    requires Matches(row, ch)
  {
    match ch
    case Insert(r) => Some(r)
    case Delete(_) => None
    case Update(cells) => Some(Patched(row.value, cells))
  }

  predicate Applicable(db: Database, cs: Changeset) {
    forall k :: k in cs ==> Matches(Get(db, k), cs[k])
  }

  function RowAfter(db: Database, cs: Changeset, k: RowId): Option<Row>
    requires Applicable(db, cs)
  {
    if k in cs then NewRow(Get(db, k), cs[k]) else Get(db, k)
  }

  /** All-or-nothing application: any mismatch leaves nothing applied (None). */
  function Apply(db: Database, cs: Changeset): Option<Database> {
    if Applicable(db, cs) then
      Some(map k | k in db.Keys + cs.Keys && RowAfter(db, cs, k).Some? :: RowAfter(db, cs, k).value)
    else
      None
  }

  /** Row-by-row reading of `Apply`. */
  lemma ApplyRows(db: Database, cs: Changeset)
    ensures Apply(db, cs).Some? <==> Applicable(db, cs)
    ensures Applicable(db, cs) ==> forall k :: Get(Apply(db, cs).value, k) == RowAfter(db, cs, k)
  {
  }

  lemma SameRows(a: Database, b: Database)
    requires forall k :: Get(a, k) == Get(b, k)
    ensures a == b
  {
    forall k: RowId ensures k in a <==> k in b {
      assert Get(a, k) == Get(b, k);
    }
    forall k | k in a ensures a[k] == b[k] {
      assert Get(a, k) == Get(b, k);
    }
  }

  /** Every recorded cell really changed, and an UPDATE records at least one cell: the session
      extension elides no-op changes. */
  predicate Minimal(cs: Changeset) {
    forall k :: k in cs ==> MinimalChange(cs[k])
  }

  predicate MinimalChange(ch: Change) {
    ch.Update? ==> ch.cells != map[] && forall c :: c in ch.cells ==> ch.cells[c].before != ch.cells[c].after
  }

  /** No DDL: a row present on both sides keeps its number of columns. */
  predicate SameShape(a: Database, b: Database) {
    forall k :: k in a && k in b ==> |a[k]| == |b[k]|
  }

  function DiffRow(x: Option<Row>, y: Option<Row>): Change
    requires x != y && (x.Some? && y.Some? ==> |x.value| == |y.value|)
  {
    match (x, y)
    case (None, Some(r)) => Insert(r)
    case (Some(r), None) => Delete(r)
    case (Some(r), Some(q)) =>
      Update(map i: nat | i < |r| && r[i] != q[i] :: CellChange(r[i], q[i]))
  }

  /** What `capture` returns for a transaction that took `a` to `b`. */
  function Diff(a: Database, b: Database): (cs: Changeset)
    requires SameShape(a, b)
  {
    map k | k in a.Keys + b.Keys && Get(a, k) != Get(b, k) :: DiffRow(Get(a, k), Get(b, k))
  }

  lemma DiffRowRoundTrip(x: Option<Row>, y: Option<Row>)
    requires x != y && (x.Some? && y.Some? ==> |x.value| == |y.value|)
    ensures MinimalChange(DiffRow(x, y))
    ensures Matches(x, DiffRow(x, y)) && NewRow(x, DiffRow(x, y)) == y
  {
    if x.Some? && y.Some? {
      var cells := DiffRow(x, y).cells;
      assert x.value == y.value <==> forall i :: 0 <= i < |x.value| ==> x.value[i] == y.value[i];
      var i :| 0 <= i < |x.value| && x.value[i] != y.value[i];
      assert i in cells;
      assert Patched(x.value, cells) == y.value;
    }
  }

  /** Capture then replay: the captured changeset applies to the database it was captured on and
      yields exactly the transaction's result; it is empty exactly when nothing changed. */
  lemma CaptureReplays(a: Database, b: Database)
    requires SameShape(a, b)
    ensures Apply(a, Diff(a, b)) == Some(b)
    ensures Minimal(Diff(a, b))
    ensures Diff(a, b) == map[] <==> a == b
  {
    var cs := Diff(a, b);
    forall k | k in cs
      ensures MinimalChange(cs[k]) && Matches(Get(a, k), cs[k]) && NewRow(Get(a, k), cs[k]) == Get(b, k)
    {
      DiffRowRoundTrip(Get(a, k), Get(b, k));
    }
    forall k ensures RowAfter(a, cs, k) == Get(b, k) {}
    ApplyRows(a, cs);
    SameRows(Apply(a, cs).value, b);
    if cs == map[] {
      forall k ensures Get(a, k) == Get(b, k) {
        assert k !in cs;
      }
      SameRows(a, b);
    }
  }

  lemma PatchedDiff(row: Row, cells: map<nat, CellChange>)
    requires Matches(Some(row), Update(cells)) && MinimalChange(Update(cells))
    ensures Some(row) != Some(Patched(row, cells))
    ensures DiffRow(Some(row), Some(Patched(row, cells))) == Update(cells)
  {
    var q := Patched(row, cells);
    var c :| c in cells;
    assert row[c] != q[c];
    var d := map i: nat | i < |row| && row[i] != q[i] :: CellChange(row[i], q[i]);
    forall i: nat ensures i in d <==> i in cells {}
    assert d == cells;
  }

  /** Replay then capture: a minimal changeset that applies is recovered by diffing. */
  lemma ReplayRecaptures(a: Database, cs: Changeset)
    requires Minimal(cs) && Apply(a, cs).Some?
    ensures SameShape(a, Apply(a, cs).value)
    ensures Diff(a, Apply(a, cs).value) == cs
  {
    var b := Apply(a, cs).value;
    ApplyRows(a, cs);
    forall k | k in a && k in b ensures |a[k]| == |b[k]| {
      assert Get(b, k) == RowAfter(a, cs, k);
    }
    forall k ensures k in Diff(a, b) <==> k in cs {
      assert Get(b, k) == RowAfter(a, cs, k);
      if k in cs && cs[k].Update? {
        PatchedDiff(a[k], cs[k].cells);
      }
    }
    forall k | k in cs ensures Diff(a, b)[k] == cs[k] {
      assert Get(b, k) == RowAfter(a, cs, k);
      if cs[k].Update? {
        PatchedDiff(a[k], cs[k].cells);
      }
    }
    assert Diff(a, b) == cs;
  }

  /** Two changes to the same row overlap unless both are UPDATEs of different columns. */
  predicate Overlap(x: Change, y: Change) {
    x.Update? && y.Update? ==> exists c :: c in x.cells && c in y.cells
  }

  predicate Disjoint(x: Changeset, y: Changeset) {
    forall k :: k in x && k in y ==> !Overlap(x[k], y[k])
  }

  lemma RowRebase(row: Option<Row>, ours: Change, theirs: Change)
    requires MinimalChange(ours) && Matches(row, ours) && Matches(row, theirs)
    ensures Matches(NewRow(row, ours), theirs) <==> !Overlap(ours, theirs)
    ensures !Overlap(ours, theirs) ==>
              Matches(NewRow(row, theirs), ours) &&
              NewRow(NewRow(row, theirs), ours) == NewRow(NewRow(row, ours), theirs)
  {
    if ours.Update? {
      var ours1 := NewRow(row, ours);
      if theirs.Delete? {
        PatchedDiff(row.value, ours.cells);
      } else if theirs.Update? {
        if Overlap(ours, theirs) {
          var c :| c in ours.cells && c in theirs.cells;
          assert ours1.value[c] == ours.cells[c].after != row.value[c];
        } else {
          assert Patched(Patched(row.value, theirs.cells), ours.cells)
              == Patched(Patched(row.value, ours.cells), theirs.cells);
        }
      }
    }
  }

  /** One changeset committed by someone else, applied on top of our uncommitted changes: it goes
      in cleanly exactly when the two touch no common cell, and then the order does not matter. */
  lemma RebaseOne(base: Database, ours: Changeset, theirs: Changeset)
    requires Minimal(ours)
    requires Apply(base, ours).Some? && Apply(base, theirs).Some?
    ensures Apply(Apply(base, ours).value, theirs).Some? <==> Disjoint(ours, theirs)
    ensures Disjoint(ours, theirs) ==>
              Apply(Apply(base, theirs).value, ours) == Apply(Apply(base, ours).value, theirs)
  {
    var f, t := Apply(base, ours).value, Apply(base, theirs).value;
    ApplyRows(base, ours);
    ApplyRows(base, theirs);
    forall k | k in theirs
      ensures Matches(Get(f, k), theirs[k]) <==> (k in ours ==> !Overlap(ours[k], theirs[k]))
    {
      assert Get(f, k) == RowAfter(base, ours, k);
      if k in ours {
        RowRebase(Get(base, k), ours[k], theirs[k]);
      }
    }
    ApplyRows(f, theirs);
    if Disjoint(ours, theirs) {
      assert Applicable(f, theirs);
      forall k | k in ours ensures Matches(Get(t, k), ours[k]) {
        assert Get(t, k) == RowAfter(base, theirs, k);
        if k in theirs {
          RowRebase(Get(base, k), ours[k], theirs[k]);
        }
      }
      ApplyRows(t, ours);
      var ft, tf := Apply(f, theirs).value, Apply(t, ours).value;
      forall k ensures Get(ft, k) == Get(tf, k) {
        assert Get(f, k) == RowAfter(base, ours, k) && Get(t, k) == RowAfter(base, theirs, k);
        assert Get(ft, k) == RowAfter(f, theirs, k) && Get(tf, k) == RowAfter(t, ours, k);
        if k in ours && k in theirs {
          RowRebase(Get(base, k), ours[k], theirs[k]);
        }
      }
      SameRows(ft, tf);
    }
  }

  /** Applying a list of changesets in order. */
  function ApplyAll(db: Database, css: seq<Changeset>): Option<Database>
    decreases |css|
  {
    if css == [] then Some(db)
    else match Apply(db, css[0])
      case None => None
      case Some(d) => ApplyAll(d, css[1..])
  }

  /** Rebase is exact, for any number of entries: replaying the others' changesets on top of our
      uncommitted changes succeeds if and only if none of them touches a cell we touched; then our
      changeset still applies after all of theirs and both orders reach the same database. */
  lemma {:induction false} RebaseExact(base: Database, ours: Changeset, theirs: seq<Changeset>)
    requires Minimal(ours)
    requires Apply(base, ours).Some? && ApplyAll(base, theirs).Some?
    ensures ApplyAll(Apply(base, ours).value, theirs).Some?
       <==> forall i :: 0 <= i < |theirs| ==> Disjoint(ours, theirs[i])
    ensures ApplyAll(Apply(base, ours).value, theirs).Some? ==>
              Apply(ApplyAll(base, theirs).value, ours) == ApplyAll(Apply(base, ours).value, theirs)
    decreases |theirs|
  {
    if theirs != [] {
      RebaseOne(base, ours, theirs[0]);
      if Disjoint(ours, theirs[0]) {
        RebaseExact(Apply(base, theirs[0]).value, ours, theirs[1..]);
        assert forall i :: 1 <= i < |theirs| ==> theirs[i] == theirs[1..][i - 1];
      }
    }
  }
}
