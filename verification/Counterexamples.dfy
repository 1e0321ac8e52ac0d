/** Concrete runs, from an empty store, in which the code as written or its comments go wrong. */
module Counterexamples {
  import opened Basics
  import opened Changesets
  import opened Transactions
  import opened Manifests
  import opened Protocol

  // ---------------------------------------------------------------- building runs

  lemma {:induction false} RunSnoc(w: World, acts: seq<Action>, x: World, a: Action, v: World)
    requires Run(w, acts) == Some(x) && Next(x, a) == Some(v)
    ensures Run(w, acts + [a]) == Some(v)
    decreases |acts|
  {
    if acts == [] {
      assert acts + [a] == [a];
      assert Run(v, [a][1..]) == Some(v);
    } else {
      assert (acts + [a])[1..] == acts[1..] + [a];
      RunSnoc(Next(w, acts[0]).value, acts[1..], x, a, v);
    }
  }

  const ROW1 := RowId("t", Integer(1))
  const ROW2 := RowId("t", Integer(2))

  /** Two rows of one cell each. */
  function Db(x: int, y: int): Database {
    map[ROW1 := [Integer(x)], ROW2 := [Integer(y)]]
  }

  function Cells1(x: int, x': int): Changeset {
    map[ROW1 := Update(map[0 := CellChange(Integer(x), Integer(x'))])]
  }

  function Cells2(y: int, y': int): Changeset {
    map[ROW2 := Update(map[0 := CellChange(Integer(y), Integer(y'))])]
  }

  lemma RowsDiffer()
    ensures ROW1 != ROW2
  {
  }

  lemma Diff1(x: int, y: int, x': int)
    requires x != x'
    ensures SameShape(Db(x, y), Db(x', y)) && Db(x, y) != Db(x', y)
    ensures Diff(Db(x, y), Db(x', y)) == Cells1(x, x')
  {
    RowsDiffer();
    var a, b := Db(x, y), Db(x', y);
    assert a[ROW1] == [Integer(x)] && b[ROW1] == [Integer(x')];
    var d := map i: nat | i < 1 && a[ROW1][i] != b[ROW1][i] :: CellChange(a[ROW1][i], b[ROW1][i]);
    assert d == map[0 := CellChange(Integer(x), Integer(x'))];
    assert DiffRow(Get(a, ROW1), Get(b, ROW1)) == Cells1(x, x')[ROW1];
  }

  lemma Diff2(x: int, y: int, y': int)
    requires y != y'
    ensures SameShape(Db(x, y), Db(x, y')) && Db(x, y) != Db(x, y')
    ensures Diff(Db(x, y), Db(x, y')) == Cells2(y, y')
  {
    RowsDiffer();
    var a, b := Db(x, y), Db(x, y');
    assert a[ROW2] == [Integer(y)] && b[ROW2] == [Integer(y')];
    var d := map i: nat | i < 1 && a[ROW2][i] != b[ROW2][i] :: CellChange(a[ROW2][i], b[ROW2][i]);
    assert d == map[0 := CellChange(Integer(y), Integer(y'))];
    assert DiffRow(Get(a, ROW2), Get(b, ROW2)) == Cells2(y, y')[ROW2];
  }

  lemma Apply1(x: int, y: int, from: int, to: int)
    ensures Apply(Db(x, y), Cells1(from, to)) == if x == from then Some(Db(to, y)) else None
  {
    RowsDiffer();
    var db, cs := Db(x, y), Cells1(from, to);
    if x == from {
      assert Applicable(db, cs);
      assert Patched([Integer(x)], cs[ROW1].cells) == [Integer(to)];
      assert Apply(db, cs).value == Db(to, y);
    } else {
      assert !Matches(Get(db, ROW1), cs[ROW1]) by {
        assert 0 in cs[ROW1].cells;
      }
    }
  }

  lemma Apply2(x: int, y: int, from: int, to: int)
    ensures Apply(Db(x, y), Cells2(from, to)) == if y == from then Some(Db(x, to)) else None
  {
    RowsDiffer();
    var db, cs := Db(x, y), Cells2(from, to);
    if y == from {
      assert Applicable(db, cs);
      assert Patched([Integer(y)], cs[ROW2].cells) == [Integer(to)];
      assert Apply(db, cs).value == Db(x, to);
    } else {
      assert !Matches(Get(db, ROW2), cs[ROW2]) by {
        assert 0 in cs[ROW2].cells;
      }
    }
  }

  /** A state together with the run that leads to it. */
  datatype Point = Point(start: World, acts: seq<Action>, w: World)

  ghost predicate Reached(p: Point) {
    Initial(p.start) && Run(p.start, p.acts) == Some(p.w)
  }

  lemma Go(p: Point, a: Action, v: World) returns (q: Point)
    requires Reached(p) && Next(p.w, a) == Some(v)
    ensures Reached(q) && q.w == v && q.start == p.start
  {
    RunSnoc(p.start, p.acts, p.w, a, v);
    q := Point(p.start, p.acts + [a], v);
  }

  lemma BackAgain(clients: map<nat, Client>, c: nat, y: Client)
    requires c in clients
    ensures clients[c := y][c := clients[c]] == clients
  {
  }

  lemma LastUpdateWins(clients: map<nat, Client>, c: nat, x: Client, y: Client)
    ensures clients[c := x][c := y] == clients[c := y]
  {
  }

  const NO_MANIFEST := Manifest(0, 0, 0, BlobRef(NoKey, 0, 0), [])
  const NEW_CLIENT := Client(None, 0, NoKey, NO_MANIFEST, NoETag, 0, [], 0, 0, Idle)
  const SNAP := SnapKey(0)

  /** The manifest Init leaves for a file with two rows. */
  const M0 := Manifest(1, 0, 0, BlobRef(SNAP, 0, 2), [])

  /** A client of a newer release, with one migration. */
  const NEWER_CLIENT := NEW_CLIENT.(schemaVer := 1, migrations := [1])

  function Clients(): map<nat, Client> {
    map[0 := NEW_CLIENT, 1 := NEW_CLIENT, 2 := NEWER_CLIENT]
  }

  /** A store with one manifest and nothing else, and clients that have not opened it. */
  ghost predicate Fresh(w: World, x: int, y: int, restore: bool) {
    && w.store == Store([M0], [Created(Db(x, y))], map[SNAP := SnapBlob(Db(x, y))], {SNAP})
    && w.clients == Clients() && w.calls == 0 && w.restoreSeqOnRollback == restore
  }

  lemma Opens(x: int, y: int, restore: bool) returns (p: Point)
    ensures Reached(p) && Fresh(p.w, x, y, restore)
  {
    var db := Db(x, y);
    assert |db| == 2 by {
      RowsDiffer();
      assert db.Keys == {ROW1, ROW2};
    }
    var w0 := World(Store([], [], map[], {}), Clients(), 0, map[], restore);
    p := Point(w0, [], w0);
    p := Upload(p, db);
    p := Create(p, db);
  }

  lemma Upload(p: Point, db: Database) returns (q: Point)
    requires Reached(p) && p.w.store == Store([], [], map[], {}) && p.w.clients == Clients()
    ensures Reached(q) && q.w.store == Store([], [], map[SNAP := SnapBlob(db)], {SNAP})
    ensures q.w == p.w.(store := q.w.store, clients := Clients()[0 := NEW_CLIENT.(op := Booting(SNAP, db))])
  {
    var s := Store([], [], map[SNAP := SnapBlob(db)], {SNAP});
    assert PutBlob(p.w.store, SNAP, SnapBlob(db), Answered) == s;
    q := Go(p, BootUpload(0, Some(db), 0, Answered), Move(p.w, 0, s, NEW_CLIENT.(op := Booting(SNAP, db))));
  }

  lemma Create(p: Point, db: Database) returns (q: Point)
    requires Reached(p) && p.w.store == Store([], [], map[SNAP := SnapBlob(db)], {SNAP}) && |db| == 2
    requires p.w.clients == Clients()[0 := NEW_CLIENT.(op := Booting(SNAP, db))]
    ensures Reached(q) && q.w.store == p.w.store.(hist := [M0], events := [Created(db)])
    ensures q.w == p.w.(store := q.w.store, clients := Clients())
  {
    BackAgain(Clients(), 0, NEW_CLIENT.(op := Booting(SNAP, db)));
    q := CreatesFirst(p, db);
  }

  lemma CreatesFirst(p: Point, db: Database) returns (q: Point)
    requires Reached(p) && p.w.store.hist == [] && p.w.store.events == [] && |db| == 2
    requires 0 in p.w.clients && p.w.clients[0] == NEW_CLIENT.(op := Booting(SNAP, db))
    ensures Reached(q) && q.w.store == p.w.store.(hist := [M0], events := [Created(db)])
    ensures q.w == p.w.(store := q.w.store, clients := p.w.clients[0 := NEW_CLIENT])
  {
    var m := Manifest(FORMAT_VERSION, 0, 0, SnapRef(SNAP, 0, db), []);
    assert Stamped(m) == M0 && ValidManifest(M0);
    var s := p.w.store.(hist := [M0], events := [Created(db)]);
    assert PutManifest(p.w.store, m, Created(db), PutCondition(NoETag, true), Answered) == s;
    q := Go(p, Cas(0, Answered), Move(p.w, 0, s, NEW_CLIENT));
  }

  // ---------------------------------------------------------------- an update that has to rebase

  /** A client whose cache is the initial snapshot. */
  function AtM0(db: Database, op: Op): Client {
    Client(Some(db), 0, SNAP, M0, Md5(M0), 0, [], 0, 0, op)
  }

  /** Load and sync, from nothing, while only the first manifest exists. */
  lemma Begins(p: Point, c: nat, db: Database, purpose: Purpose) returns (q: Point)
    requires Reached(p) && c in p.w.clients && p.w.clients[c] == NEW_CLIENT
    requires p.w.store.hist == [M0] && SNAP in p.w.store.content && p.w.store.content[SNAP] == SnapBlob(db)
    requires Refreshes(p.w, purpose)
    ensures Reached(q) && q.w.store == p.w.store && q.w.restoreSeqOnRollback == p.w.restoreSeqOnRollback
    ensures q.w.calls == p.w.calls + (if purpose.ForUpdate? then 1 else 0)
    ensures q.w.clients == p.w.clients[c := AtM0(db, AfterSync(AtM0(db, Idle), purpose))]
  {
    var x := NEW_CLIENT.(m := M0, etag := Md5(M0), op := Syncing(purpose));
    assert Loaded(NEW_CLIENT, p.w.store).(op := Syncing(purpose)) == x;
    var v := NextLoad(p.w, c, NEW_CLIENT, purpose).value;
    q := Go(p, Load(c, purpose), v);
    SyncsToM0(q.w.store.content, x, db);
    q := Go(q, Sync(c, Completed), NextSync(q.w, c, x, Completed).value);
    assert v.clients[c := AtM0(db, AfterSync(AtM0(db, Idle), purpose))] == p.w.clients[c := AtM0(db,
        AfterSync(AtM0(db, Idle), purpose))];
  }

  lemma SyncsToM0(content: map<Key, Blob>, x: Client, db: Database)
    requires x == NEW_CLIENT.(m := M0, etag := Md5(M0), op := x.op)
    requires SNAP in content && content[SNAP] == SnapBlob(db)
    ensures Synced(content, x, Completed) == Some(AtM0(db, x.op))
  {
    assert SyncBase(content, x) == Some(AtM0(db, x.op));
    assert Need(M0.log, 0) == [];
    assert ApplyEntries(content, db, []) == Some(db);
  }

  lemma Captures(p: Point, c: nat, cl: Client, after: Database, cs: Changeset, id: nat) returns (q: Point, u: Upd)
    requires Reached(p) && c in p.w.clients && p.w.clients[c] == cl && cl.op.Capturing? && cl.conn.Some?
    requires SameShape(cl.conn.value, after) && cl.conn.value != after && Diff(cl.conn.value, after) == cs
    requires CsKey(Epoch(cl.m), id) !in p.w.store.content
    ensures u == Upd(cl.op.call, CsKey(Epoch(cl.m), id), cs, cl.conn.value, cl.localSeq, cl.connAt, after)
    ensures Reached(q) && q.w.clients == p.w.clients[c := cl.(conn := Some(after), op := CasReady(u))]
    ensures q.w.store == p.w.store.(content := p.w.store.content[u.key := CsBlob(cs)], live := p.w.store.live + {u.key})
    ensures q.w.calls == p.w.calls && q.w.restoreSeqOnRollback == p.w.restoreSeqOnRollback
  {
    u := Upd(cl.op.call, CsKey(Epoch(cl.m), id), cs, cl.conn.value, cl.localSeq, cl.connAt, after);
    q := Go(p, Capture(c, after, id, Answered), NextCapture(p.w, c, cl, after, id, Answered).value);
  }

  lemma Commits(p: Point, c: nat, cl: Client, u: Upd, m: Manifest) returns (q: Point)
    requires Reached(p) && c in p.w.clients && p.w.clients[c] == cl && cl.op == CasReady(u)
    requires p.w.store.hist != [] && cl.m == p.w.store.hist[|p.w.store.hist| - 1] && cl.etag == Md5(cl.m)
    requires ValidManifest(cl.m) && cl.m.formatVersion == FORMAT_VERSION && u.key != NoKey
    requires m == CommitManifest(cl, u)
    ensures Reached(q) && q.w.store == p.w.store.(hist := p.w.store.hist + [m],
              events := p.w.store.events + [CommitEvent(u)])
    ensures q.w.clients == p.w.clients[c := cl.(m := m, etag := Md5(m), mAt := |p.w.store.hist|,
                                                localSeq := cl.m.seqNo + 1, connAt := |p.w.store.hist|, op := Idle)]
    ensures q.w.calls == p.w.calls && q.w.restoreSeqOnRollback == p.w.restoreSeqOnRollback
  {
    var e := LogEntry(u.key, cl.m.seqNo + 1, |u.cs|);
    assert m == AppendLog(cl.m, e);
    AppendIsDisciplined(cl.m, e);
    assert Stamped(m) == m;
    assert Lands(p.w.store, m, PutCondition(cl.etag, false), Answered);
    q := Go(p, Cas(c, Answered), NextCommit(p.w, c, cl, Answered));
  }

  /** A 412, a reload that finds the same snapshot, and one foreign entry that goes in cleanly. */
  lemma LosesAndRebases(p: Point, c: nat, cl: Client, u: Upd, m2: Manifest, e: LogEntry, theirs: Changeset,
        db: Database) returns (q: Point)
    requires Reached(p) && c in p.w.clients && p.w.clients[c] == cl && cl.op == CasReady(u)
    requires p.w.store.hist == [cl.m, m2] && cl.etag == Md5(cl.m) && cl.m != m2
    requires ValidManifest(cl.m) && cl.m.formatVersion == FORMAT_VERSION && u.key != NoKey
    requires m2.snapshot.key == cl.snapshotKey && m2.snapshot.seqNo <= cl.localSeq && Need(m2.log, cl.localSeq) == [e]
    requires EntryChanges(p.w.store.content, e) == Some(theirs) && cl.conn.Some?
               && Apply(cl.conn.value, theirs) == Some(db)
    ensures Reached(q) && q.w == p.w.(clients := p.w.clients[c :=
              cl.(conn := Some(db), connAt := cl.connAt + 1, m := m2, etag := Md5(m2), mAt := 1, localSeq := m2.seqNo,
                  op := CasReady(u))])
  {
    var x := cl.(op := Rebasing(u, m2, Md5(m2), 1, [e]));
    q := LosesAndReloads(p, c, cl, u, m2, e);
    q := Rebases(q, c, x, u, m2, e, theirs, db);
    LastUpdateWins(p.w.clients, c, x, q.w.clients[c]);
  }

  lemma LosesAndReloads(p: Point, c: nat, cl: Client, u: Upd, m2: Manifest, e: LogEntry) returns (q: Point)
    requires Reached(p) && c in p.w.clients && p.w.clients[c] == cl && cl.op == CasReady(u)
    requires p.w.store.hist == [cl.m, m2] && cl.etag == Md5(cl.m) && cl.m != m2
    requires ValidManifest(cl.m) && cl.m.formatVersion == FORMAT_VERSION && u.key != NoKey
    requires m2.snapshot.key == cl.snapshotKey && m2.snapshot.seqNo <= cl.localSeq && Need(m2.log, cl.localSeq) == [e]
    ensures Reached(q) && q.w == p.w.(clients := p.w.clients[c := cl.(op := Rebasing(u, m2, Md5(m2), 1, [e]))])
  {
    q := Loses(p, c, cl, u);
    var x := cl.(op := Rebasing(u, m2, Md5(m2), 1, [e]));
    assert Reloaded(q.w, cl.(op := CasLost(u)), u, m2, 1) == x;
    q := Go(q, Reload(c), Move(q.w, c, q.w.store, x));
    assert q.w.clients == p.w.clients[c := x];
  }

  lemma Rebases(p: Point, c: nat, x: Client, u: Upd, m2: Manifest, e: LogEntry, theirs: Changeset, db: Database)
      returns (q: Point)
    requires Reached(p) && c in p.w.clients && p.w.clients[c] == x && x.op == Rebasing(u, m2, Md5(m2), 1, [e])
    requires EntryChanges(p.w.store.content, e) == Some(theirs) && x.conn.Some?
               && Apply(x.conn.value, theirs) == Some(db)
    ensures Reached(q) && q.w == p.w.(clients := p.w.clients[c :=
              x.(conn := Some(db), connAt := x.connAt + 1, m := m2, etag := Md5(m2), mAt := 1, localSeq := m2.seqNo,
                  op := CasReady(u))])
  {
    var y := x.(conn := Some(db), connAt := x.connAt + 1, op := Rebasing(u, m2, Md5(m2), 1, []));
    assert [e][1..] == [];
    q := Go(p, RebaseEntry(c), Move(p.w, c, p.w.store, y));
    var z := y.(m := m2, etag := Md5(m2), mAt := 1, localSeq := m2.seqNo, op := CasReady(u));
    q := Go(q, RebaseDone(c), Move(q.w, c, q.w.store, z));
    assert q.w.clients == p.w.clients[c := z];
  }

  lemma Loses(p: Point, c: nat, cl: Client, u: Upd) returns (q: Point)
    requires Reached(p) && c in p.w.clients && p.w.clients[c] == cl && cl.op == CasReady(u)
    requires p.w.store.hist != [] && cl.etag == Md5(cl.m) && cl.m != p.w.store.hist[|p.w.store.hist| - 1]
    requires ValidManifest(cl.m) && cl.m.formatVersion == FORMAT_VERSION && u.key != NoKey
    ensures Reached(q) && q.w == p.w.(clients := p.w.clients[c := cl.(op := CasLost(u))])
  {
    var e := LogEntry(u.key, cl.m.seqNo + 1, |u.cs|);
    var m := CommitManifest(cl, u);
    assert m == AppendLog(cl.m, e);
    AppendIsDisciplined(cl.m, e);
    q := Go(p, Cas(c, Answered), NextCommit(p.w, c, cl, Answered));
  }

  const KEY_A := CsKey(SNAP, 1)
  const KEY_B := CsKey(SNAP, 2)
  const ENTRY_B := LogEntry(KEY_B, 1, 1)
  const M1 := Manifest(1, 1, 0, BlobRef(SNAP, 0, 2), [ENTRY_B])

  /** After the race: client 1 took row 1 to x and committed; client 0 took row 2 to y on the
      initial state, lost, rebased cleanly, and holds an open savepoint taken before the rebase. */
  ghost predicate Raced(w: World, x: int, y: int, u: Upd, restore: bool) {
    && u == Upd(1, KEY_A, Cells2(1, y), Db(1, 1), 0, 0, Db(1, y))
    && 0 in w.clients && w.clients[0] == Client(Some(Db(x, y)), 1, SNAP, M1, Md5(M1), 0, [], 1, 1, CasReady(u))
    && w.store.hist == [M0, M1]
    && w.store.events == [Created(Db(1, 1)), Txn(0, KEY_B, Cells1(1, x), 0, Db(1, 1), Db(x, 1))]
    && w.store.content == map[SNAP := SnapBlob(Db(1, 1)), KEY_A := CsBlob(Cells2(1, y)), KEY_B := CsBlob(Cells1(1, x))]
    && w.calls == 2 && w.restoreSeqOnRollback == restore
  }

  ghost predicate BothCaptured(w: World, x: int, y: int, u: Upd, ub: Upd, restore: bool) {
    && u == Upd(1, KEY_A, Cells2(1, y), Db(1, 1), 0, 0, Db(1, y))
    && ub == Upd(0, KEY_B, Cells1(1, x), Db(1, 1), 0, 0, Db(x, 1))
    && 0 in w.clients && w.clients[0] == AtM0(Db(1, y), CasReady(u))
    && 1 in w.clients && w.clients[1] == AtM0(Db(x, 1), CasReady(ub))
    && w.store.hist == [M0] && w.store.events == [Created(Db(1, 1))]
    && w.store.content == map[SNAP := SnapBlob(Db(1, 1)), KEY_A := CsBlob(Cells2(1, y)), KEY_B := CsBlob(Cells1(1, x))]
    && w.calls == 2 && w.restoreSeqOnRollback == restore
  }

  lemma BothBegin(restore: bool) returns (p: Point)
    ensures Reached(p) && p.w.store == Store([M0], [Created(Db(1, 1))], map[SNAP := SnapBlob(Db(1, 1))], {SNAP})
    ensures p.w.clients == Clients()[1 := AtM0(Db(1, 1), Capturing(0, None))][0 := AtM0(Db(1, 1), Capturing(1, None))]
    ensures p.w.calls == 2 && p.w.restoreSeqOnRollback == restore
  {
    p := Opens(1, 1, restore);
    p := Begins(p, 1, Db(1, 1), ForUpdate(0, None));
    p := Begins(p, 0, Db(1, 1), ForUpdate(1, None));
  }

  lemma BothCapture(x: int, y: int, restore: bool) returns (p: Point, u: Upd, ub: Upd)
    requires x != 1 && y != 1
    ensures Reached(p) && BothCaptured(p.w, x, y, u, ub, restore)
  {
    p := BothBegin(restore);
    Diff2(1, 1, y);
    p, u := Captures(p, 0, AtM0(Db(1, 1), Capturing(1, None)), Db(1, y), Cells2(1, y), 1);
    Diff1(1, 1, x);
    p, ub := Captures(p, 1, AtM0(Db(1, 1), Capturing(0, None)), Db(x, 1), Cells1(1, x), 2);
  }

  lemma M1Facts(x: int, ub: Upd)
    requires ub.key == KEY_B && ub.cs == Cells1(1, x)
    ensures CommitManifest(AtM0(Db(x, 1), CasReady(ub)), ub) == M1
    ensures Need(M1.log, 0) == [ENTRY_B] && Need(M1.log, 1) == []
  {
    assert |Cells1(1, x)| == 1;
    assert M1.log[1..] == [];
  }

  lemma OneCommits(x: int, y: int, restore: bool) returns (p: Point, u: Upd)
    requires x != 1 && y != 1
    ensures Reached(p) && u == Upd(1, KEY_A, Cells2(1, y), Db(1, 1), 0, 0, Db(1, y))
    ensures 0 in p.w.clients && p.w.clients[0] == AtM0(Db(1, y), CasReady(u)) && p.w.store.hist == [M0, M1]
    ensures p.w.store.events == [Created(Db(1, 1)), Txn(0, KEY_B, Cells1(1, x), 0, Db(1, 1), Db(x, 1))]
    ensures p.w.store.content == map[SNAP := SnapBlob(Db(1, 1)), KEY_A := CsBlob(Cells2(1, y)),
              KEY_B := CsBlob(Cells1(1, x))]
    ensures p.w.calls == 2 && p.w.restoreSeqOnRollback == restore
  {
    var ub: Upd;
    p, u, ub := BothCapture(x, y, restore);
    M1Facts(x, ub);
    p := Commits(p, 1, AtM0(Db(x, 1), CasReady(ub)), ub, M1);
  }

  lemma Races(x: int, y: int, restore: bool) returns (p: Point, u: Upd)
    requires x != 1 && y != 1
    ensures Reached(p) && Raced(p.w, x, y, u, restore)
  {
    p, u := OneCommits(x, y, restore);
    assert Need(M1.log, 0) == [ENTRY_B] by {
      assert M1.log[1..] == [];
    }
    Apply1(1, y, 1, x);
    p := LosesAndRebases(p, 0, AtM0(Db(1, y), CasReady(u)), u, M1, ENTRY_B, Cells1(1, x), Db(x, y));
  }

  // ---------------------------------------------------------------- 1. rollback after a clean rebase

  predicate RacedBlobs(content: map<Key, Blob>, x: int) {
    && SNAP in content && content[SNAP] == SnapBlob(Db(1, 1))
    && KEY_B in content && content[KEY_B] == CsBlob(Cells1(1, x))
  }

  /** Client 0 after its rollback: without the entry that `localSeq` says it has. */
  function Stale(op: Op): Client {
    Client(Some(Db(1, 1)), 1, SNAP, M1, Md5(M1), 0, [], 1, 1, op)
  }

  ghost predicate Restarting(w: World, x: int, op: Op, calls: nat) {
    && !w.restoreSeqOnRollback && 0 in w.clients && w.clients[0] == Stale(op) && w.calls == calls
    && w.store.hist == [M0, M1] && RacedBlobs(w.store.content, x) && CsKey(SNAP, 3) !in w.store.content
  }

  lemma RollsBack(x: int, y: int) returns (p: Point)
    requires x != 1 && y != 1
    ensures Reached(p) && Restarting(p.w, x, Idle, 2)
  {
    var u: Upd;
    p, u := Races(x, y, false);
    var cl := p.w.clients[0];
    p := Go(p, Abort(0, Conflict), Finish(p.w, 0, Rollback(false, cl, u), u.call, Conflict));
  }

  lemma Reloads(p: Point, x: int) returns (q: Point)
    requires Reached(p) && Restarting(p.w, x, Idle, 2)
    ensures Reached(q) && Restarting(q.w, x, Syncing(ForUpdate(2, None)), 3)
  {
    assert Loaded(Stale(Idle), p.w.store).(op := Syncing(ForUpdate(2, None))) == Stale(Syncing(ForUpdate(2, None)));
    q := Go(p, Load(0, ForUpdate(2, None)), NextLoad(p.w, 0, Stale(Idle), ForUpdate(2, None)).value);
  }

  /** Client 0 rolls back and starts another update. */
  lemma RollsBackAndRestarts(x: int, y: int) returns (p: Point)
    requires x != 1 && y != 1
    ensures Reached(p) && Restarting(p.w, x, Capturing(2, None), 3)
  {
    p := RollsBack(x, y);
    p := Reloads(p, x);
    var z := Stale(Syncing(ForUpdate(2, None)));
    StaysStale(p.w.store.content, z);
    p := Go(p, Sync(0, Completed), Move(p.w, 0, p.w.store, Stale(Capturing(2, None))));
  }

  /** The incremental sync finds nothing above the advanced `localSeq`. */
  lemma StaysStale(content: map<Key, Blob>, z: Client)
    requires z.conn.Some? && z.localSeq == 1 && z.snapshotKey == SNAP && z.m == M1
    ensures Synced(content, z, Completed) == Some(z)
  {
    assert Need(M1.log, 1) == [] by {
      assert M1.log[1..] == [];
    }
    assert ApplyEntries(content, z.conn.value, []) == Some(z.conn.value);
    assert SyncBase(content, z) == Some(z);
  }

  lemma ReplayOfOne(content: map<Key, Blob>, m: Manifest, db: Database, cs: Changeset)
    requires m.snapshot.key in content && content[m.snapshot.key] == SnapBlob(db)
    requires |m.log| == 1 && EntryChanges(content, m.log[0]) == Some(cs)
    ensures Replay(content, m) == Apply(db, cs)
  {
    assert m.log[1..] == [];
    if Apply(db, cs).Some? {
      assert ApplyEntries(content, Apply(db, cs).value, m.log[1..]) == Apply(db, cs);
    }
  }

  lemma ReplayOfTwo(content: map<Key, Blob>, m: Manifest, db: Database, d1: Database, cs1: Changeset, cs2: Changeset)
    requires m.snapshot.key in content && content[m.snapshot.key] == SnapBlob(db)
    requires |m.log| == 2 && EntryChanges(content, m.log[0]) == Some(cs1)
               && EntryChanges(content, m.log[1]) == Some(cs2)
    requires Apply(db, cs1) == Some(d1)
    ensures Replay(content, m) == Apply(d1, cs2)
  {
    var rest := m.log[1..];
    assert rest[0] == m.log[1] && rest[1..] == [];
    assert ApplyEntries(content, d1, rest) == Apply(d1, cs2) by {
      if Apply(d1, cs2).Some? {
        assert ApplyEntries(content, Apply(d1, cs2).value, rest[1..]) == Apply(d1, cs2);
      }
    }
  }

  /** The stale client captures on the wrong database and commits. */
  lemma CommitsOnStaleBase() returns (p: Point, m2: Manifest)
    ensures Reached(p) && !p.w.restoreSeqOnRollback && p.w.store.hist == [M0, M1, m2]
    ensures m2.snapshot.key == SNAP && |m2.log| == 2 && m2.log[0] == ENTRY_B && m2.log[1].key == CsKey(SNAP, 3)
    ensures RacedBlobs(p.w.store.content, 2) && EntryChanges(p.w.store.content, m2.log[1]) == Some(Cells1(1, 3))
  {
    var cl := Stale(Capturing(2, None));
    var u: Upd;
    p := RollsBackAndRestarts(2, 2);
    Diff1(1, 1, 3);
    p, u := Captures(p, 0, cl, Db(3, 1), Cells1(1, 3), 3);
    M1Valid();
    m2 := CommitManifest(cl.(conn := Some(Db(3, 1)), op := CasReady(u)), u);
    p := Commits(p, 0, cl.(conn := Some(Db(3, 1)), op := CasReady(u)), u, m2);
  }

  lemma M1Valid()
    ensures ValidManifest(M1)
  {
  }

  /** The code as written, with two clients and no failures but a lost race: one update gives up
      after a clean rebase, the next one of the same client captures on a database that lacks the
      rebased entry, and its commit leaves a manifest that no client can ever replay. */
  lemma StaleRollbackWedgesDatabase() returns (p: Point)
    ensures Initial(p.start) && !p.w.restoreSeqOnRollback && Run(p.start, p.acts) == Some(p.w)
    ensures p.w.store.hist != [] && Replay(p.w.store.content, p.w.store.hist[|p.w.store.hist| - 1]) == None
  {
    var m2: Manifest;
    p, m2 := CommitsOnStaleBase();
    Apply1(1, 1, 1, 2);
    Apply1(2, 1, 1, 3);
    ReplayOfTwo(p.w.store.content, m2, Db(1, 1), Db(2, 1), Cells1(1, 2), Cells1(1, 3));
  }

  // ---------------------------------------------------------------- 2. write skew

  /** "If row 1 is still 1, set row 2 to 0." */
  function SetRow2(d: Database): Option<Database> {
    if Get(d, ROW1) == Some([Integer(1)]) && Get(d, ROW2).Some? && |Get(d, ROW2).value| == 1
    then Some(d[ROW2 := [Integer(0)]]) else Some(d)
  }

  lemma CommitsSkewed() returns (p: Point, m2: Manifest)
    ensures Reached(p) && p.w.restoreSeqOnRollback && p.w.store.hist == [M0, M1, m2]
    ensures m2.snapshot.key == SNAP && |m2.log| == 2 && m2.log[0] == ENTRY_B && m2.log[1].key == KEY_A
    ensures p.w.store.content == map[SNAP := SnapBlob(Db(1, 1)), KEY_A := CsBlob(Cells2(1, 0)),
              KEY_B := CsBlob(Cells1(1, 0))]
    ensures |p.w.store.events| == 3 && p.w.store.events[2] == Txn(1, KEY_A, Cells2(1, 0), 0, Db(1, 1), Db(1, 0))
  {
    var u: Upd;
    p, u := Races(0, 0, true);
    var cl := p.w.clients[0];
    m2 := CommitManifest(cl, u);
    M1Valid();
    p := Commits(p, 0, cl, u, m2);
  }

  /** Rebasing checks written cells only.  Client 0 ran `SetRow2` on the initial state, client 1
      meanwhile took row 1 to 0, the rebase was clean and the commit went through: the result is
      not what running the transaction on the preceding state gives.  So the database is not
      serializable in general, and `WriteLocalAt` is needed. */
  lemma WriteSkew() returns (p: Point, fn: Transaction)
    ensures Initial(p.start) && p.w.restoreSeqOnRollback && Run(p.start, p.acts) == Some(p.w)
    ensures |p.w.store.hist| == 3 && |p.w.store.events| == 3 && p.w.store.events[2].Txn?
    ensures fn(p.w.store.events[2].before) == Some(p.w.store.events[2].after)
    ensures StateAt(p.w.store, 1) == Some(Db(0, 1)) && StateAt(p.w.store, 2) == Some(Db(0, 0))
    ensures StateAt(p.w.store, 2) != fn(Db(0, 1)) && !WriteLocalAt(fn, p.w.store.events[2].before)
  {
    var m2: Manifest;
    p, m2 := CommitsSkewed();
    fn := Skewed();
    SkewedStates(p.w.store, m2);
  }

  lemma SkewedStates(s: Store, m2: Manifest)
    requires s.hist == [M0, M1, m2]
    requires m2.snapshot.key == SNAP && |m2.log| == 2 && m2.log[0] == ENTRY_B && m2.log[1].key == KEY_A
    requires s.content == map[SNAP := SnapBlob(Db(1, 1)), KEY_A := CsBlob(Cells2(1, 0)), KEY_B := CsBlob(Cells1(1, 0))]
    ensures StateAt(s, 1) == Some(Db(0, 1)) && StateAt(s, 2) == Some(Db(0, 0))
  {
    Apply1(1, 1, 1, 0);
    Apply2(0, 1, 1, 0);
    ReplayOfOne(s.content, M1, Db(1, 1), Cells1(1, 0));
    ReplayOfTwo(s.content, m2, Db(1, 1), Db(0, 1), Cells1(1, 0), Cells2(1, 0));
  }

  lemma Skewed() returns (fn: Transaction)
    ensures fn(Db(1, 1)) == Some(Db(1, 0)) && fn(Db(0, 1)) == Some(Db(0, 1)) && Db(0, 1) != Db(0, 0)
    ensures !WriteLocalAt(fn, Db(1, 1))
  {
    RowsDiffer();
    fn := SetRow2;
    assert Db(0, 0)[ROW2] != Db(0, 1)[ROW2];
    assert Db(1, 1)[ROW2 := [Integer(0)]] == Db(1, 0);
    Diff2(1, 1, 0);
    Apply2(0, 1, 1, 0);
    ReplayIsRerun(fn, Db(1, 1));
  }

  predicate HasCounter(d: Database) {
    ROW1 in d && d[ROW1] != [] && d[ROW1][0].Integer?
  }

  /** "UPDATE t SET x = x + 1 WHERE id = 1", a no-op where the row is missing. */
  function Increment(d: Database): Option<Database> {
    if HasCounter(d) then Some(d[ROW1 := d[ROW1][0 := Integer(d[ROW1][0].n + 1)]]) else Some(d)
  }

  lemma IncrementDiff(d: Database)
    requires HasCounter(d)
    ensures SameShape(d, Increment(d).value)
    ensures Diff(d, Increment(d).value) == Cells1(d[ROW1][0].n, d[ROW1][0].n + 1)
  {
    var b, n := Increment(d).value, d[ROW1][0].n;
    var cells := map i: nat | i < |d[ROW1]| && d[ROW1][i] != b[ROW1][i] :: CellChange(d[ROW1][i], b[ROW1][i]);
    assert cells == map[0 := CellChange(Integer(n), Integer(n + 1))];
    assert DiffRow(Get(d, ROW1), Get(b, ROW1)) == Update(cells);
    forall k | k != ROW1 ensures Get(d, k) == Get(b, k) {}
  }

  function IncrementTransaction(): Transaction {
    assert forall e :: SameShape(e, Increment(e).value);
    Increment
  }

  lemma IncrementElsewhere(e: Database, n: int)
    requires Applicable(e, Cells1(n, n + 1))
    ensures SameShape(e, Increment(e).value) && Diff(e, Increment(e).value) == Cells1(n, n + 1)
  {
    assert Matches(Get(e, ROW1), Cells1(n, n + 1)[ROW1]);
    assert 0 in Cells1(n, n + 1)[ROW1].cells;
    IncrementDiff(e);
  }

  lemma NoOpIsNotWriteLocal(fn: Transaction, d: Database, e: Database)
    requires fn(d) == Some(d) && fn(e) != Some(e)
    ensures !WriteLocalAt(fn, d)
  {
    assert Diff(d, d) == map[] && Applicable(e, Diff(d, d));
    if fn(e).Some? {
      CaptureReplays(e, fn(e).value);
    }
  }

  lemma SameChangesetIsWriteLocal(fn: Transaction, d: Database, cs: Changeset)
    requires fn(d).Some? && Diff(d, fn(d).value) == cs
    requires forall e :: Applicable(e, cs) ==> fn(e).Some? && Diff(e, fn(e).value) == cs
    ensures WriteLocalAt(fn, d)
  {
  }

  lemma IncrementSame(e: Database, n: int, cs: Changeset)
    requires cs == Cells1(n, n + 1) && Applicable(e, cs)
    ensures var fn := IncrementTransaction(); fn(e).Some? && Diff(e, fn(e).value) == cs
  {
    IncrementElsewhere(e, n);
  }

  lemma IncrementWrites(d: Database)
    requires HasCounter(d)
    ensures WriteLocalAt(IncrementTransaction(), d)
  {
    var n := d[ROW1][0].n;
    var cs := Cells1(n, n + 1);
    IncrementDiff(d);
    forall e | Applicable(e, cs)
      ensures IncrementTransaction()(e).Some? && Diff(e, IncrementTransaction()(e).value) == cs
    {
      IncrementSame(e, n, cs);
    }
    SameChangesetIsWriteLocal(IncrementTransaction(), d, cs);
  }

  /** The condition is met by an ordinary update exactly where it changes something. */
  lemma IncrementIsWriteLocal(d: Database)
    ensures WriteLocalAt(IncrementTransaction(), d) <==> Increment(d) != Some(d)
  {
    if HasCounter(d) {
      assert Increment(d).value[ROW1][0] != d[ROW1][0];
      IncrementWrites(d);
    } else {
      assert Increment(Db(1, 1)).value[ROW1][0] != Db(1, 1)[ROW1][0];
      NoOpIsNotWriteLocal(IncrementTransaction(), d, Db(1, 1));
    }
  }

  // ---------------------------------------------------------------- 3. Push over Push

  lemma PushUploads(p: Point, c: nat, cl: Client, m: Manifest, db: Database, id: nat) returns (q: Point, y: Client)
    requires Reached(p) && c in p.w.clients && p.w.clients[c] == cl && cl.op.Idle?
    requires p.w.store.hist != [] && m == p.w.store.hist[|p.w.store.hist| - 1] && m.seqNo == 0
    requires SnapKey(id) !in p.w.store.content
    ensures y == cl.(op := PushReady(m, Md5(m), |p.w.store.hist| - 1, 0, SnapKey(id)))
    ensures Reached(q) && q.w == p.w.(store := q.w.store, clients := p.w.clients[c := y])
    ensures q.w.store == p.w.store.(content := p.w.store.content[SnapKey(id) := SnapBlob(db)],
              live := p.w.store.live + {SnapKey(id)})
  {
    var at := |p.w.store.hist| - 1;
    var x := cl.(op := Pushing(m, Md5(m), at, 0));
    q := Go(p, PushLoad(c, 0), Move(p.w, c, p.w.store, x));
    var s := p.w.store.(content := p.w.store.content[SnapKey(id) := SnapBlob(db)],
        live := p.w.store.live + {SnapKey(id)});
    y := x.(op := PushReady(m, Md5(m), at, 0, SnapKey(id)));
    q := Go(q, PushUpload(c, db, id, Answered), Move(q.w, c, s, y));
  }

  lemma PushesCas(q: Point, c: nat, y: Client, m: Manifest, n: Manifest, s: Store, cl: Client, db: Database, id: nat)
    requires c in q.w.clients && q.w.clients[c] == y
    requires q.w.store.hist != [] && m == q.w.store.hist[|q.w.store.hist| - 1]
    requires y.op.PushReady? && y.op == PushReady(m, Md5(m), y.op.pAt, 0, SnapKey(id)) && cl == y.(op := Idle)
    requires SnapKey(id) in q.w.store.content && q.w.store.content[SnapKey(id)] == SnapBlob(db)
    requires n == WithSnapshot(m, SnapRef(SnapKey(id), m.seqNo, db))
    requires s == PutManifest(q.w.store, n, Pushed(db, 0, c), PutCondition(Md5(m), false), Answered)
    ensures Next(q.w, Cas(c, Answered)) == Some(Move(q.w, c, s, cl))
  {
  }

  lemma Pushes(p: Point, c: nat, cl: Client, m: Manifest, db: Database, id: nat) returns (q: Point, n: Manifest)
    requires Reached(p) && c in p.w.clients && p.w.clients[c] == cl && cl.op.Idle?
    requires p.w.store.hist != [] && m == p.w.store.hist[|p.w.store.hist| - 1] && m.seqNo == 0 && m.schema >= 0
    requires SnapKey(id) !in p.w.store.content
    ensures n == Manifest(1, 0, m.schema, SnapRef(SnapKey(id), 0, db), [])
    ensures Reached(q) && q.w == p.w.(store := q.w.store)
    ensures q.w.store == Store(p.w.store.hist + [n], p.w.store.events + [Pushed(db, 0, c)],
                               p.w.store.content[SnapKey(id) := SnapBlob(db)], p.w.store.live + {SnapKey(id)})
  {
    var y: Client;
    q, y := PushUploads(p, c, cl, m, db, id);
    n := WithSnapshot(m, SnapRef(SnapKey(id), 0, db));
    assert Stamped(n) == n && ValidManifest(n);
    var s := q.w.store.(hist := q.w.store.hist + [n], events := q.w.store.events + [Pushed(db, 0, c)]);
    assert PutManifest(q.w.store, n, Pushed(db, 0, c), PutCondition(Md5(m), false), Answered) == s;
    BackAgain(p.w.clients, c, y);
    PushesCas(q, c, y, m, n, s, cl, db, id);
    q := Go(q, Cas(c, Answered), Move(q.w, c, s, cl));
  }

  lemma PushesOnce() returns (p: Point, n: Manifest)
    ensures Reached(p) && 0 in p.w.clients && p.w.clients[0] == NEW_CLIENT
    ensures n == Manifest(1, 0, 0, SnapRef(SnapKey(1), 0, Db(2, 2)), [])
    ensures p.w.store.hist == [M0, n] && p.w.store.events == [Created(Db(1, 1)), Pushed(Db(2, 2), 0, 1)]
    ensures p.w.store.content == map[SNAP := SnapBlob(Db(1, 1)), SnapKey(1) := SnapBlob(Db(2, 2))]
  {
    p := Opens(1, 1, true);
    p, n := Pushes(p, 1, NEW_CLIENT, M0, Db(2, 2), 1);
  }

  /** Seq does not advance on a Push, so a Push guarded by the Seq of an earlier Pull overwrites
      another Push made in between. */
  lemma PushDiscardsPush() returns (p: Point)
    ensures Initial(p.start) && Run(p.start, p.acts) == Some(p.w) && |p.w.store.hist| == |p.w.store.events| == 3
    ensures p.w.store.events[1] == Pushed(Db(2, 2), 0, 1)
    ensures p.w.store.events[2] == Pushed(Db(3, 3), p.w.store.hist[0].seqNo, 0)
    ensures StateAt(p.w.store, 1) == Some(Db(2, 2)) && StateAt(p.w.store, 2) == Some(Db(3, 3))
  {
    var n1: Manifest, n2: Manifest;
    p, n1 := PushesOnce();
    p, n2 := Pushes(p, 0, NEW_CLIENT, n1, Db(3, 3), 2);
    SnapshotIsState(p.w.store, 1, Db(2, 2));
    SnapshotIsState(p.w.store, 2, Db(3, 3));
  }

  lemma SnapshotIsState(s: Store, i: nat, db: Database)
    requires i < |s.hist| && s.hist[i].log == [] && s.hist[i].snapshot.key in s.content
    requires s.content[s.hist[i].snapshot.key] == SnapBlob(db)
    ensures StateAt(s, i) == Some(db)
  {
  }

  // ---------------------------------------------------------------- 4. GC against compaction

  /** Load and sync of a client that already is where the stored manifest is. */
  lemma LoadsAgain(p: Point, c: nat, cl: Client, purpose: Purpose) returns (q: Point)
    requires Reached(p) && c in p.w.clients && p.w.clients[c] == cl && cl.op.Idle? && cl.conn.Some?
    requires p.w.store.hist != [] && cl.mAt == |p.w.store.hist| - 1 && cl.m == p.w.store.hist[cl.mAt]
               && cl.etag == Md5(cl.m)
    requires cl.schemaVer == cl.m.schema && cl.snapshotKey == cl.m.snapshot.key && cl.m.snapshot.seqNo <= cl.localSeq
    requires Need(cl.m.log, cl.localSeq) == [] && Refreshes(p.w, purpose)
    ensures Reached(q) && q.w.store == p.w.store && q.w.calls == p.w.calls + (if purpose.ForUpdate? then 1 else 0)
    ensures q.w.clients == p.w.clients[c := cl.(op := AfterSync(cl, purpose))]
  {
    var x := cl.(op := Syncing(purpose));
    q := Go(p, Load(c, purpose), NextLoad(p.w, c, cl, purpose).value);
    assert q.w.clients[c] == x;
    assert SyncBase(q.w.store.content, x) == Some(x);
    assert ApplyEntries(q.w.store.content, x.conn.value, []) == Some(x.conn.value);
    assert Synced(q.w.store.content, x, Completed) == Some(x);
    q := Go(q, Sync(c, Completed), Move(q.w, c, q.w.store, x.(op := AfterSync(x, purpose))));
    assert q.w.clients == p.w.clients[c := cl.(op := AfterSync(cl, purpose))];
  }

  const SNAP5 := SnapKey(5)
  const M2 := Manifest(1, 1, 0, BlobRef(SNAP5, 1, 2), [])

  lemma CompactUploads(p: Point, c: nat, cl: Client) returns (q: Point)
    requires Reached(p) && c in p.w.clients && p.w.clients[c] == cl && cl.op.Compacting? && cl.conn.Some?
    requires SNAP5 !in p.w.store.content
    ensures Reached(q) && q.w == p.w.(store := q.w.store, clients := p.w.clients[c := cl.(op := CompactReady(SNAP5))])
    ensures q.w.store == p.w.store.(content := p.w.store.content[SNAP5 := SnapBlob(cl.conn.value)],
                                    live := p.w.store.live + {SNAP5})
  {
    var s := p.w.store.(content := p.w.store.content[SNAP5 := SnapBlob(cl.conn.value)],
        live := p.w.store.live + {SNAP5});
    q := Go(p, CompactUpload(c, 5, Answered), Move(p.w, c, s, cl.(op := CompactReady(SNAP5))));
  }

  function Compacted1(cl: Client): Client {
    cl.(m := M2, etag := Md5(M2), mAt := 2, snapshotKey := SNAP5, connAt := 2, op := Idle)
  }

  lemma CompactLands(p: Point, c: nat, x: Client) returns (q: Point)
    requires Reached(p) && c in p.w.clients && p.w.clients[c] == x && x.op == CompactReady(SNAP5)
    requires x.conn.Some? && |x.conn.value| == 2
    requires p.w.store.hist == [M0, M1] && x.m == M1 && x.etag == Md5(M1)
    ensures Reached(q) && q.w.calls == p.w.calls && q.w.clients == p.w.clients[c := Compacted1(x)]
    ensures q.w.store == p.w.store.(hist := [M0, M1, M2], events := p.w.store.events + [Compacted(c)])
  {
    assert Stamped(WithSnapshot(M1, SnapRef(SNAP5, 1, x.conn.value))) == M2 && ValidManifest(M2);
    assert [M0, M1] + [M2] == [M0, M1, M2];
    q := Go(p, Cas(c, Answered), NextCompactCas(p.w, c, x, Answered));
  }

  const AFTER_COMMIT := Client(Some(Db(2, 1)), 1, SNAP, M1, Md5(M1), 0, [], 1, 1, Idle)
  const AFTER_COMPACT := Client(Some(Db(2, 1)), 1, SNAP5, M2, Md5(M2), 0, [], 2, 2, Idle)
  const SWEEPER := AtM0(Db(1, 1), Sweeping(M0))

  /** Client 0 is sweeping with the first manifest; client 1 is at `b`. */
  ghost predicate SweepAnd(w: World, b: Client, hist: seq<Manifest>, keys: set<Key>, calls: nat) {
    && 0 in w.clients && w.clients[0] == SWEEPER && 1 in w.clients && w.clients[1] == b
    && w.store.hist == hist && w.store.content.Keys == keys && w.calls == calls
  }

  lemma SweepBegins() returns (p: Point)
    ensures Reached(p) && SweepAnd(p.w, AtM0(Db(1, 1), Capturing(0, None)), [M0], {SNAP}, 1)
  {
    p := Opens(1, 1, true);
    p := Begins(p, 0, Db(1, 1), ForGc);
    p := Begins(p, 1, Db(1, 1), ForUpdate(0, None));
  }

  lemma SweepAndCaptureFirst() returns (p: Point, u: Upd)
    ensures Reached(p) && u == Upd(0, KEY_B, Cells1(1, 2), Db(1, 1), 0, 0, Db(2, 1))
    ensures SweepAnd(p.w, AtM0(Db(2, 1), CasReady(u)), [M0], {SNAP, KEY_B}, 1)
  {
    p := SweepBegins();
    Diff1(1, 1, 2);
    p, u := Captures(p, 1, AtM0(Db(1, 1), Capturing(0, None)), Db(2, 1), Cells1(1, 2), 2);
  }

  /** Client 1 commits an update ... */
  lemma SweepAndCommit() returns (p: Point)
    ensures Reached(p) && SweepAnd(p.w, AFTER_COMMIT, [M0, M1], {SNAP, KEY_B}, 1)
  {
    var u: Upd;
    p, u := SweepAndCaptureFirst();
    M1Facts(2, u);
    p := Commits(p, 1, AtM0(Db(2, 1), CasReady(u)), u, M1);
  }

  /** ... compacts ... */
  lemma SweepAndCompact() returns (p: Point)
    ensures Reached(p) && SweepAnd(p.w, AFTER_COMPACT, [M0, M1, M2], {SNAP, KEY_B, SNAP5}, 1)
  {
    p := SweepAndCommit();
    assert M1.log[1..] == [];
    p := LoadsAgain(p, 1, AFTER_COMMIT, ForCompact);
    assert |Db(2, 1)| == 2 by {
      RowsDiffer();
      assert Db(2, 1).Keys == {ROW1, ROW2};
    }
    p := CompactUploads(p, 1, AFTER_COMMIT.(op := Compacting));
    p := CompactLands(p, 1, AFTER_COMMIT.(op := CompactReady(SNAP5)));
  }

  /** ... and captures another update, under the new epoch. */
  lemma SweepAndCapture() returns (p: Point, u: Upd)
    ensures Reached(p) && u.key == CsKey(SNAP5, 6) && u.key in p.w.store.live
    ensures SweepAnd(p.w, AFTER_COMPACT.(conn := Some(Db(3, 1)), op := CasReady(u)), [M0, M1, M2],
              {SNAP, KEY_B, SNAP5, u.key}, 2)
  {
    p := SweepAndCompact();
    p := LoadsAgain(p, 1, AFTER_COMPACT, ForUpdate(1, None));
    Diff1(2, 1, 3);
    p, u := Captures(p, 1, AFTER_COMPACT.(op := Capturing(1, None)), Db(3, 1), Cells1(2, 3), 6);
  }

  lemma SweepAndCommitAgain() returns (p: Point, m3: Manifest)
    ensures Reached(p) && p.w.store.hist == [M0, M1, M2, m3] && Mentions(m3, CsKey(SNAP5, 6))
    ensures 0 in p.w.clients && p.w.clients[0] == SWEEPER
    ensures CsKey(SNAP5, 6) in p.w.store.live && CsKey(SNAP5, 6) in p.w.store.content
  {
    var u: Upd;
    p, u := SweepAndCapture();
    var b := AFTER_COMPACT.(conn := Some(Db(3, 1)), op := CasReady(u));
    assert ValidManifest(M2);
    m3 := CommitManifest(b, u);
    assert m3.log[0].key == CsKey(SNAP5, 6);
    p := Commits(p, 1, b, u, m3);
  }

  /** A sweep that loaded its manifest before a compaction and an update takes the new epoch for
      garbage, and deletes a changeset the stored manifest names. */
  lemma SweepDeletesCurrentEpoch() returns (p: Point, k: Key)
    ensures Initial(p.start) && Run(p.start, p.acts) == Some(p.w)
    ensures p.w.store.hist != [] && Mentions(p.w.store.hist[|p.w.store.hist| - 1], k)
    ensures k in p.w.store.content && k !in p.w.store.live
  {
    var m3: Manifest;
    p, m3 := SweepAndCommitAgain();
    k := CsKey(SNAP5, 6);
    var ks := set x | x in p.w.store.live && x.CsKey? && x.epoch == SNAP5;
    assert k in ks;
    p := Go(p, GcEpoch(0, SNAP5), p.w.(store := DeleteBlobs(p.w.store, ks)));
  }

  /** A sweep takes a snapshot that a compaction has uploaded but not yet put into the manifest for
      garbage.  The compaction then succeeds, and the base file of the database is gone. */
  lemma SweepDeletesPendingSnapshot() returns (p: Point)
    ensures Initial(p.start) && Run(p.start, p.acts) == Some(p.w)
    ensures p.w.store.hist == [M0, M1, M2] && M2.snapshot.key == SNAP5
    ensures SNAP5 in p.w.store.content && SNAP5 !in p.w.store.live
  {
    p := SweepAndCommit();
    assert M1.log[1..] == [];
    p := LoadsAgain(p, 1, AFTER_COMMIT, ForCompact);
    p := CompactUploads(p, 1, AFTER_COMMIT.(op := Compacting));
    p := SweepsPending(p);
    assert |Db(2, 1)| == 2 by {
      RowsDiffer();
      assert Db(2, 1).Keys == {ROW1, ROW2};
    }
    p := CompactLands(p, 1, AFTER_COMMIT.(op := CompactReady(SNAP5)));
  }

  lemma SweepsPending(p: Point) returns (q: Point)
    requires Reached(p) && 0 in p.w.clients && p.w.clients[0] == SWEEPER
    ensures Reached(q) && q.w == p.w.(store := DeleteBlobs(p.w.store, {SNAP5}))
  {
    q := Go(p, GcSnapshot(0, SNAP5), p.w.(store := DeleteBlobs(p.w.store, {SNAP5})));
  }

  // ---------------------------------------------------------------- 5. an Update across a migration

  const SNAP7 := SnapKey(7)
  const MIGRATED := Manifest(1, 0, 1, BlobRef(SNAP7, 0, 2), [])

  /** The migrator after its sync, and after its `Up` (which changes no row). */
  function Migrator(db: Database, op: Op): Client {
    AtM0(db, op).(schemaVer := 1, migrations := [1])
  }

  lemma MigratorLoads(p: Point) returns (q: Point, x: Client)
    requires Reached(p) && 2 in p.w.clients && p.w.clients[2] == NEWER_CLIENT && p.w.store.hist == [M0]
    ensures x == NEWER_CLIENT.(m := M0, etag := Md5(M0), mAt := 0, op := Syncing(ForMigration(1)))
    ensures Reached(q) && q.w == p.w.(clients := p.w.clients[2 := x])
  {
    var top := NEWER_CLIENT.(op := MigrationTop(-1));
    q := Go(p, StartMigrations(2), Move(p.w, 2, p.w.store, top));
    x := NEWER_CLIENT.(m := M0, etag := Md5(M0), mAt := 0, op := Syncing(ForMigration(1)));
    assert MigrationLoaded(top, Loaded(top, q.w.store)) == x;
    q := Go(q, MigrationLoad(2), Move(q.w, 2, q.w.store, x));
    assert q.w.clients == p.w.clients[2 := x];
  }

  lemma MigratorSyncs(p: Point, db: Database) returns (q: Point)
    requires Reached(p) && 2 in p.w.clients && p.w.clients[2] == NEWER_CLIENT
    requires p.w.store.hist == [M0] && SNAP in p.w.store.content && p.w.store.content[SNAP] == SnapBlob(db)
    ensures Reached(q) && q.w == p.w.(clients := p.w.clients[2 := Migrator(db, Migrating(1))])
  {
    var x: Client;
    q, x := MigratorLoads(p);
    var y := Migrator(db, x.op);
    assert SyncBase(q.w.store.content, x) == Some(y);
    assert Need(M0.log, 0) == [] && ApplyEntries(q.w.store.content, db, []) == Some(db);
    assert Synced(q.w.store.content, x, Completed) == Some(y);
    assert NextSync(q.w, 2, x, Completed) == Some(Move(q.w, 2, q.w.store, Migrator(db, Migrating(1))));
    q := Go(q, Sync(2, Completed), Move(q.w, 2, q.w.store, Migrator(db, Migrating(1))));
    assert q.w.clients == p.w.clients[2 := Migrator(db, Migrating(1))];
  }

  lemma RunsUp(p: Point, db: Database) returns (q: Point)
    requires Reached(p) && 2 in p.w.clients && p.w.clients[2] == Migrator(db, Migrating(1))
               && SNAP7 !in p.w.store.content
    ensures Reached(q)
    ensures q.w == p.w.(store := q.w.store, clients := p.w.clients[2 := Migrator(db, MigrationReady(1, SNAP7, db))])
    ensures q.w.store == p.w.store.(content := p.w.store.content[SNAP7 := SnapBlob(db)],
              live := p.w.store.live + {SNAP7})
  {
    var y := Migrator(db, MigrationReady(1, SNAP7, db));
    var s := p.w.store.(content := p.w.store.content[SNAP7 := SnapBlob(db)], live := p.w.store.live + {SNAP7});
    q := Go(p, RunUp(2, db, 7, Answered), Move(p.w, 2, s, y));
  }

  lemma MigrationLands(p: Point, db: Database) returns (q: Point)
    requires Reached(p) && 2 in p.w.clients && p.w.clients[2] == Migrator(db, MigrationReady(1, SNAP7, db)) && |db| == 2
    requires p.w.store.hist == [M0]
    ensures Reached(q) && 2 in q.w.clients
    ensures q.w == p.w.(store := q.w.store, clients := p.w.clients[2 := q.w.clients[2]])
    ensures q.w.store == p.w.store.(hist := [M0, MIGRATED], events := p.w.store.events + [Migrated(1, db, db, 2)])
  {
    var y := p.w.clients[2];
    assert ValidManifest(MIGRATED) && [M0] + [MIGRATED] == [M0, MIGRATED];
    q := Go(p, Cas(2, Answered), NextMigrationCas(p.w, 2, y, Answered));
  }

  lemma Migrates(p: Point, db: Database) returns (q: Point)
    requires Reached(p) && 2 in p.w.clients && p.w.clients[2] == Migrator(db, Migrating(1)) && |db| == 2
    requires p.w.store.hist == [M0] && SNAP7 !in p.w.store.content
    ensures Reached(q) && q.w == p.w.(store := q.w.store, clients := q.w.clients) && 2 in q.w.clients
              && q.w.clients == p.w.clients[2 := q.w.clients[2]]
    ensures q.w.store == Store([M0, MIGRATED], p.w.store.events + [Migrated(1, db, db, 2)],
                               p.w.store.content[SNAP7 := SnapBlob(db)], p.w.store.live + {SNAP7})
  {
    var y := Migrator(db, MigrationReady(1, SNAP7, db));
    q := RunsUp(p, db);
    q := MigrationLands(q, db);
    assert p.w.clients[2 := y][2 := q.w.clients[2]] == p.w.clients[2 := q.w.clients[2]];
  }

  /** After the migration the older client loses its CAS and reloads, without looking at the schema
      version. */
  lemma ReloadsAcross(p: Point, u: Upd, db: Database, cl: Client) returns (q: Point, x: Client)
    requires Reached(p) && 0 in p.w.clients && p.w.clients[0] == cl && cl == AtM0(db, CasReady(u)).(conn := cl.conn)
    requires u == Upd(0, u.key, u.cs, db, 0, 0, u.after) && u.key != NoKey
    requires p.w.store.hist == [M0, MIGRATED]
    ensures x == AtM0(db, Syncing(ForUpdate(0, Some(u.key)))).(m := MIGRATED, etag := Md5(MIGRATED), mAt := 1)
    ensures Reached(q) && q.w == p.w.(clients := p.w.clients[0 := x])
  {
    q := Loses(p, 0, cl, u);
    x := AtM0(db, Syncing(ForUpdate(0, Some(u.key)))).(m := MIGRATED, etag := Md5(MIGRATED), mAt := 1);
    assert Reloaded(q.w, cl.(op := CasLost(u)), u, MIGRATED, 1) == x;
    q := Go(q, Reload(0), Move(q.w, 0, q.w.store, x));
    assert q.w.clients == p.w.clients[0 := x];
  }

  /** It downloads the migrated snapshot and is ready to run its transaction again. */
  lemma SyncsAcross(p: Point, x: Client, key: Key, db: Database) returns (q: Point, cl: Client)
    requires Reached(p) && 0 in p.w.clients && p.w.clients[0] == x
    requires x == AtM0(db, Syncing(ForUpdate(0, Some(key)))).(m := MIGRATED, etag := Md5(MIGRATED), mAt := 1)
    requires SNAP7 in p.w.store.content && p.w.store.content[SNAP7] == SnapBlob(db)
    ensures cl == Client(Some(db), 0, SNAP7, MIGRATED, Md5(MIGRATED), 0, [], 1, 1, Capturing(0, Some(key)))
    ensures Reached(q) && q.w == p.w.(clients := p.w.clients[0 := cl])
  {
    cl := Client(Some(db), 0, SNAP7, MIGRATED, Md5(MIGRATED), 0, [], 1, 1, Capturing(0, Some(key)));
    assert SyncBase(p.w.store.content, x) == Some(cl.(op := x.op));
    assert Need(MIGRATED.log, 0) == [] && ApplyEntries(p.w.store.content, db, []) == Some(db);
    assert Synced(p.w.store.content, x, Completed) == Some(cl.(op := x.op));
    q := Go(p, Sync(0, Completed), Move(p.w, 0, p.w.store, cl));
  }

  lemma BeginsBefore() returns (p: Point)
    ensures Reached(p) && p.w.clients == Clients()[0 := AtM0(Db(1, 1), Capturing(0, None))]
    ensures p.w.store.hist == [M0] && |p.w.store.events| == 1 && p.w.store.content == map[SNAP := SnapBlob(Db(1, 1))]
  {
    p := Opens(1, 1, true);
    p := Begins(p, 0, Db(1, 1), ForUpdate(0, None));
  }

  lemma CapturesBefore() returns (p: Point, u: Upd)
    ensures Reached(p) && u == Upd(0, KEY_A, Cells1(1, 2), Db(1, 1), 0, 0, Db(2, 1))
    ensures p.w.clients == Clients()[0 := AtM0(Db(1, 1), CasReady(u)).(conn := Some(Db(2, 1)))]
    ensures p.w.store.hist == [M0] && |p.w.store.events| == 1
    ensures p.w.store.content == map[SNAP := SnapBlob(Db(1, 1)), KEY_A := CsBlob(Cells1(1, 2))]
  {
    p := BeginsBefore();
    Diff1(1, 1, 2);
    LastUpdateWins(Clients(), 0, AtM0(Db(1, 1), Capturing(0, None)),
                   AtM0(Db(1, 1), CasReady(Upd(0, KEY_A, Cells1(1, 2), Db(1, 1), 0, 0, Db(2, 1)))).(conn := Some(Db(2,
                       1))));
    p, u := Captures(p, 0, AtM0(Db(1, 1), Capturing(0, None)), Db(2, 1), Cells1(1, 2), 1);
  }

  lemma TwoRows(x: int, y: int)
    ensures |Db(x, y)| == 2
  {
    RowsDiffer();
    assert Db(x, y).Keys == {ROW1, ROW2};
  }

  lemma UpdateMeetsMigration() returns (p: Point, u: Upd)
    ensures Reached(p) && u == Upd(0, KEY_A, Cells1(1, 2), Db(1, 1), 0, 0, Db(2, 1))
    ensures 0 in p.w.clients && p.w.clients[0] == AtM0(Db(1, 1), CasReady(u)).(conn := Some(Db(2, 1)))
    ensures p.w.store.hist == [M0, MIGRATED] && |p.w.store.events| == 2
    ensures SNAP7 in p.w.store.content && p.w.store.content[SNAP7] == SnapBlob(Db(1, 1))
              && CsKey(SNAP7, 1) !in p.w.store.content
  {
    p, u := CapturesBefore();
    TwoRows(1, 1);
    p := MigratorSyncs(p, Db(1, 1));
    p := Migrates(p, Db(1, 1));
  }

  lemma RecapturesUnderForeignSchema() returns (p: Point, u: Upd, x: Client)
    ensures Reached(p) && 0 in p.w.clients && p.w.clients[0] == x && p.w.store.hist == [M0, MIGRATED]
              && |p.w.store.events| == 2
    ensures u == Upd(0, CsKey(SNAP7, 1), Cells1(1, 2), Db(1, 1), 0, 1, Db(2, 1))
    ensures x == Client(Some(Db(2, 1)), 0, SNAP7, MIGRATED, Md5(MIGRATED), 0, [], 1, 1, CasReady(u))
  {
    var cl: Client;
    p, u := UpdateMeetsMigration();
    p, x := ReloadsAcross(p, u, Db(1, 1), p.w.clients[0]);
    p, cl := SyncsAcross(p, x, u.key, Db(1, 1));
    Diff1(1, 1, 2);
    p, u := Captures(p, 0, cl, Db(2, 1), Cells1(1, 2), 1);
    x := cl.(conn := Some(Db(2, 1)), op := CasReady(u));
  }

  /** `refreshManifest` rejects a schema version that is not the client's, but the reload after a
      lost CAS does not look: a client at version 0 commits its transaction to version 1. */
  lemma UpdateCommitsUnderForeignSchema() returns (p: Point)
    ensures Initial(p.start) && Run(p.start, p.acts) == Some(p.w)
    ensures 0 in p.w.clients && p.w.clients[0].schemaVer == 0
    ensures |p.w.store.hist| == |p.w.store.events| == 3
    ensures p.w.store.events[2].Txn? && p.w.store.events[2].call == 0 && p.w.store.hist[2].schema == 1
  {
    var u: Upd, x: Client;
    p, u, x := RecapturesUnderForeignSchema();
    assert ValidManifest(MIGRATED);
    p := Commits(p, 0, x, u, CommitManifest(x, u));
  }
}
