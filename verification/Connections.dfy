/** One database connection: a recording session, `capture` and `applyChangeset`, statement by
    statement and row by row.  They compute exactly the diff and the all-or-nothing application that
    the protocol is built on. */
module Connections {
  import opened Basics
  import opened Changesets

  /** INSERT or UPDATE leaves a row under its key, DELETE leaves none. */
  datatype Write = Write(id: RowId, row: Option<Row>)

  function Stored(db: Database, id: RowId, row: Option<Row>): (r: Database)
    ensures forall k :: Get(r, k) == if k == id then row else Get(db, k)
  {
    if row.Some? then db[id := row.value] else db - {id}
  }

  function AfterWrites(db: Database, writes: seq<Write>): Database {
    if writes == [] then db
    else
      var last := writes[|writes| - 1];
      Stored(AfterWrites(db, writes[..|writes| - 1]), last.id, last.row)
  }

  lemma IsDiff(a: Database, b: Database, cs: Changeset)
    requires SameShape(a, b)
    requires forall k :: k in cs <==> Get(a, k) != Get(b, k)
    requires forall k :: k in cs ==> cs[k] == DiffRow(Get(a, k), Get(b, k))
    ensures cs == Diff(a, b)
  {
    forall k ensures k in cs <==> k in Diff(a, b) {}
  }

  /** The changes outside `left` have been made to `save`, giving `db`. */
  ghost predicate Partly(save: Database, cs: Changeset, left: set<RowId>, db: Database) {
    && left <= cs.Keys
    && (forall k :: k in cs && k !in left ==> Matches(Get(save, k), cs[k]) && Get(db, k) == NewRow(Get(save, k), cs[k]))
    && (forall k :: k !in cs || k in left ==> Get(db, k) == Get(save, k))
  }

  lemma PartlyStep(save: Database, cs: Changeset, left: set<RowId>, db: Database, k: RowId)
    requires Partly(save, cs, left, db) && k in left && Matches(Get(db, k), cs[k])
    ensures Partly(save, cs, left - {k}, Stored(db, k, NewRow(Get(db, k), cs[k])))
  {
    assert Get(db, k) == Get(save, k);
  }

  lemma AllApplied(save: Database, cs: Changeset, db: Database)
    requires Partly(save, cs, {}, db)
    ensures Apply(save, cs) == Some(db)
  {
    assert Applicable(save, cs);
    ApplyRows(save, cs);
    forall k ensures Get(db, k) == Get(Apply(save, cs).value, k) {
      assert Get(db, k) == RowAfter(save, cs, k);
    }
    SameRows(db, Apply(save, cs).value);
  }

  class Conn {
    var db: Database

    /** The session: the original of every row touched since it was attached. */
    var originals: map<RowId, Option<Row>>

    constructor (db: Database)
      ensures this.db == db && originals == map[]
    {
      this.db, originals := db, map[];
    }

    /** The session was attached when the database was `base`. */
    ghost predicate Records(base: Database)
      reads this
    {
      forall k :: Get(base, k) == if k in originals then originals[k] else Get(db, k)
    }

    method Execute(w: Write, ghost base: Database)
      requires Records(base)
      modifies this
      ensures Records(base) && db == Stored(old(db), w.id, w.row)
    {
      if w.id !in originals {
        originals := originals[w.id := Get(db, w.id)];
      }
      db := Stored(db, w.id, w.row);
    }

    /** Compare every touched row with its original; rows that ended up as they were are elided. */
    method WriteChangeset(ghost base: Database) returns (cs: Changeset)
      requires Records(base) && SameShape(base, db)
      ensures cs == Diff(base, db)
    {
      cs := map[];
      var left := originals.Keys;
      while left != {}
        invariant left <= originals.Keys
        invariant forall k :: k in cs <==> k in originals && k !in left && Get(base, k) != Get(db, k)
        invariant forall k :: k in cs ==> cs[k] == DiffRow(Get(base, k), Get(db, k))
        decreases |left|
      {
        var k :| k in left;
        left := left - {k};
        var now := Get(db, k);
        assert originals[k] == Get(base, k);
        if originals[k] != now {
          assert k in base && k in db ==> |base[k]| == |db[k]|;
          cs := cs[k := DiffRow(originals[k], now)];
        }
      }
      IsDiff(base, db, cs);
    }

    /** `capture`: attach a session, run the statements, take the changeset.  It replays to exactly
        what the statements did, and it is empty exactly when they changed nothing in the end. */
    method Capture(writes: seq<Write>) returns (cs: Changeset)
      requires SameShape(db, AfterWrites(db, writes))
      modifies this
      ensures db == AfterWrites(old(db), writes) && cs == Diff(old(db), db)
      ensures Apply(old(db), cs) == Some(db) && Minimal(cs) && (cs == map[] <==> db == old(db))
    {
      ghost var base := db;
      originals := map[];
      assert writes[..|writes|] == writes;
      for i := 0 to |writes|
        invariant Records(base) && db == AfterWrites(base, writes[..i])
      {
        assert writes[..i + 1][..i] == writes[..i];
        Execute(writes[i], base);
      }
      cs := WriteChangeset(base);
      originals := map[];
      CaptureReplays(base, db);
    }

    /** `applyChangeset` under the abort policy: change by change, in any order; the first mismatch
        rolls everything back.  It succeeds exactly when every before-image matches, whatever the
        order. */
    method ApplyChangeset(cs: Changeset) returns (conflict: Option<RowId>)
      modifies this
      ensures conflict.None? <==> Apply(old(db), cs).Some?
      ensures conflict.None? ==> Apply(old(db), cs) == Some(db)
      ensures conflict.Some? ==>
                db == old(db) && conflict.value in cs && !Matches(Get(db, conflict.value), cs[conflict.value])
    {
      var save := db;
      var left := cs.Keys;
      while left != {}
        invariant Partly(save, cs, left, db)
        decreases |left|
      {
        var k :| k in left;
        assert Get(db, k) == Get(save, k);
        if !Matches(Get(db, k), cs[k]) {
          db := save;
          return Some(k);
        }
        PartlyStep(save, cs, left, db, k);
        db := Stored(db, k, NewRow(Get(db, k), cs[k]));
        left := left - {k};
      }
      AllApplied(save, cs, db);
      conflict := None;
    }
  }
}
