/** The steps that replace the snapshot (compaction, push, migration, bootstrap), the sweeps, and
    the theorem that covers every action. */
module Swapping {
  import opened Basics
  import opened Changesets
  import opened Manifests
  import opened Protocol
  import opened Invariant
  import opened Steps

  // ---------------------------------------------------------------- landing a new snapshot

  ghost predicate SwapEvent(s: Store, m: Manifest, ev: Event)
    requires s.hist != []
  {
    var last := s.hist[|s.hist| - 1];
    && (ev.Compacted? || ev.Pushed? || ev.Migrated?)
    && (ev.Compacted? || ev.Pushed? ==> m.schema == last.schema)
    && (ev.Pushed? && ev.expected >= 0 ==> last.seqNo == ev.expected)
    && (ev.Migrated? ==> last.schema < ev.version == m.schema)
  }

  lemma SwapDisciplined(s: Store, m: Manifest)
    requires StoreInv(s) && s.hist != [] && Swaps(s.hist[|s.hist| - 1], m)
    requires ValidManifest(m) && m.formatVersion == FORMAT_VERSION && Unreferenced(s, m.snapshot.key)
    ensures Disciplined(s.hist + [m])
  {
    forall i | 0 <= i < |s.hist| ensures s.hist[i].snapshot.key != m.snapshot.key {
      assert !Mentions(s.hist[i], m.snapshot.key);
    }
    ExtendHistory(s.hist, m);
  }

  lemma SwapEventOk(s: Store, m: Manifest, ev: Event, db: Database)
    requires StoreInv(s) && s.hist != [] && m.log == [] && SwapEvent(s, m, ev)
    requires m.snapshot.key in s.content && s.content[m.snapshot.key] == SnapBlob(db)
    requires Effect(StateAt(s, |s.hist| - 1), ev) == Some(db)
    ensures EventOk(WithManifest(s, m, ev), |s.hist|) && StateAt(WithManifest(s, m, ev), |s.hist|) == Some(db)
  {
    StatesFrame(s, WithManifest(s, m, ev));
  }

  lemma SwapLands(s: Store, m: Manifest, ev: Event, db: Database)
    requires StoreInv(s) && s.hist != [] && Swaps(s.hist[|s.hist| - 1], m) && SwapEvent(s, m, ev)
    requires ValidManifest(m) && m.formatVersion == FORMAT_VERSION && Unreferenced(s, m.snapshot.key)
    requires Stored(s, m.snapshot.key, db) && Effect(StateAt(s, |s.hist| - 1), ev) == Some(db)
    ensures var t := WithManifest(s, m, ev);
            StoreInv(t) && Extends(s, t) && StateAt(t, |s.hist|) == Some(db)
  {
    SwapDisciplined(s, m);
    SwapEventOk(s, m, ev, db);
    LandKeeps(s, m, ev);
  }

  // ---------------------------------------------------------------- clients that stop

  /** An operation that never touched the cache ends. */
  lemma IdleClient(s: Store, t: Store, cl: Client)
    requires ClientInv(s, cl)
    requires cl.op.Compacting? || cl.op.CompactReady? || cl.op.Pushing? || cl.op.PushReady? || cl.op.Sweeping?
             || cl.op.Booting? || cl.op.Idle?
    ensures ClientInv(s, cl.(op := Idle)) && KeepsNames(s, t, cl, cl.(op := Idle))
  {
  }

  /** A closed connection claims nothing. */
  lemma ClosedClient(s: Store, t: Store, cl: Client)
    ensures ClientInv(s, Closed(cl)) && KeepsNames(s, t, cl, Closed(cl))
  {
  }

  lemma StepToIdle(w: World, c: nat, cl: Client)
    requires Inv(w) && c in w.clients && w.clients[c] == cl
    requires cl.op.Compacting? || cl.op.CompactReady? || cl.op.Pushing? || cl.op.PushReady? || cl.op.Sweeping?
             || cl.op.Booting? || cl.op.Idle?
    ensures Inv(Move(w, c, w.store, cl.(op := Idle)))
  {
    assert ClientInv(w.store, cl);
    IdleClient(w.store, w.store, cl);
    Moves(w, c, w.store, cl.(op := Idle));
  }

  lemma StepToClosed(w: World, c: nat, cl: Client)
    requires Inv(w) && c in w.clients && w.clients[c] == cl
    ensures Inv(Move(w, c, w.store, Closed(cl)))
  {
    ClosedClient(w.store, w.store, cl);
    Moves(w, c, w.store, Closed(cl));
  }

  // ---------------------------------------------------------------- compaction

  lemma CompactUploadClient(s: Store, t: Store, cl: Client, id: nat, r: Reply)
    requires StoreInv(s) && ClientInv(s, cl) && cl.op.Compacting? && cl.conn.Some? && SnapKey(id) !in s.content
    requires t == PutBlob(s, SnapKey(id), SnapBlob(cl.conn.value), r) && Extends(s, t)
    ensures var x := cl.(op := if r.Answered? then CompactReady(SnapKey(id)) else Idle);
            ClientInv(t, x) && KeepsNames(s, t, cl, x)
  {
    ClientFrame(s, t, cl);
    IdleClient(t, t, cl);
  }

  lemma StepCompactUpload(w: World, c: nat, cl: Client, id: nat, r: Reply, v: World)
    requires Inv(w) && c in w.clients && w.clients[c] == cl && NextCompactUpload(w, c, cl, id, r) == Some(v)
    ensures Inv(v)
  {
    var s := PutBlob(w.store, SnapKey(id), SnapBlob(cl.conn.value), r);
    PutBlobExtends(w.store, SnapKey(id), SnapBlob(cl.conn.value), r);
    assert ClientInv(w.store, cl);
    CompactUploadClient(w.store, s, cl, id, r);
    Moves(w, c, s, cl.(op := if r.Answered? then CompactReady(SnapKey(id)) else Idle));
  }

  function CompactManifest(cl: Client): Manifest
    requires cl.op.CompactReady? && cl.conn.Some?
  {
    WithSnapshot(cl.m, SnapRef(cl.op.key, cl.m.seqNo, cl.conn.value))
  }

  /** Compaction is a stutter step: the new snapshot stands for what the replaced manifest stood for. */
  lemma CompactLands(s: Store, cl: Client, c: nat)
    requires StoreInv(s) && cl.op.CompactReady? && ClientInv(s, cl) && Unreferenced(s, cl.op.key)
    requires Meets(s, PutCondition(cl.etag, false))
    ensures var m := Stamped(CompactManifest(cl));
            var t := WithManifest(s, m, Compacted(c));
            && StoreInv(t) && Extends(s, t)
            && ClientInv(t, cl.(m := m, etag := Md5(m), mAt := |s.hist|, snapshotKey := cl.op.key, connAt := |s.hist|,
                op := Idle))
            && ClientInv(t, cl.(op := Idle))
  {
    var m := Stamped(CompactManifest(cl));
    var t := WithManifest(s, m, Compacted(c));
    MatchIsLatest(s, cl.m, cl.etag, cl.mAt);
    assert ValidManifest(s.hist[cl.mAt]);
    SwapLands(s, m, Compacted(c), cl.conn.value);
    StatesFrame(s, t);
  }

  lemma CompactLost(w: World, c: nat, cl: Client, r: Reply)
    requires c in w.clients && w.clients[c] == cl && cl.op.CompactReady? && cl.conn.Some?
    requires !Lands(w.store, CompactManifest(cl), PutCondition(cl.etag, false), r)
    ensures NextCompactCas(w, c, cl, r) == Move(w, c, w.store, cl.(op := Idle))
  {
    assert !PutOutcome(w.store, CompactManifest(cl), PutCondition(cl.etag, false), r).Won?;
  }

  function CompactedClient(s: Store, cl: Client, r: Reply): Client
    requires cl.op.CompactReady? && cl.conn.Some?
  {
    var m := Stamped(CompactManifest(cl));
    if r.Answered? then
      cl.(m := m, etag := Md5(m), mAt := |s.hist|, snapshotKey := cl.op.key, connAt := |s.hist|, op := Idle)
    else cl.(op := Idle)
  }

  lemma CompactWon(w: World, c: nat, cl: Client, r: Reply)
    requires c in w.clients && w.clients[c] == cl && cl.op.CompactReady? && cl.conn.Some?
    requires Lands(w.store, CompactManifest(cl), PutCondition(cl.etag, false), r)
    ensures NextCompactCas(w, c, cl, r)
         == Move(w, c, WithManifest(w.store, Stamped(CompactManifest(cl)), Compacted(c)),
                 CompactedClient(w.store, cl, r))
  {
  }

  lemma StepCompactCas(w: World, c: nat, cl: Client, r: Reply)
    requires Inv(w) && c in w.clients && w.clients[c] == cl && cl.op.CompactReady? && cl.conn.Some?
    ensures Inv(NextCompactCas(w, c, cl, r))
  {
    var m, cond := CompactManifest(cl), PutCondition(cl.etag, false);
    if Lands(w.store, m, cond, r) {
      assert OwnedOk(w.store, cl) && ClientInv(w.store, cl);
      CompactLands(w.store, cl, c);
      LandsSwap(w, c, Stamped(m), Compacted(c), CompactedClient(w.store, cl, r));
      CompactWon(w, c, cl, r);
    } else {
      StepToIdle(w, c, cl);
      CompactLost(w, c, cl, r);
    }
  }

  // ---------------------------------------------------------------- push

  lemma PushLoadClient(s: Store, cl: Client, expected: int)
    requires StoreInv(s) && ClientInv(s, cl) && cl.op.Idle? && s.hist != []
    requires expected >= 0 ==> s.hist[|s.hist| - 1].seqNo == expected
    ensures var n := |s.hist| - 1;
            var x := cl.(op := Pushing(s.hist[n], Md5(s.hist[n]), n, expected));
            ClientInv(s, x) && KeepsNames(s, s, cl, x)
  {
  }

  lemma PushLoadShape(w: World, c: nat, cl: Client, expected: int, v: World)
    requires c in w.clients && w.clients[c] == cl && NextPushLoad(w, c, cl, expected) == Some(v) && v != w
    ensures cl.op.Idle? && w.store.hist != []
    ensures var n := |w.store.hist| - 1;
            && (expected >= 0 ==> w.store.hist[n].seqNo == expected)
            && v == Move(w, c, w.store, cl.(op := Pushing(w.store.hist[n], Md5(w.store.hist[n]), n, expected)))
  {
  }

  lemma StepPushLoad(w: World, c: nat, cl: Client, expected: int, v: World)
    requires Inv(w) && c in w.clients && w.clients[c] == cl && NextPushLoad(w, c, cl, expected) == Some(v)
    ensures Inv(v)
  {
    if v != w {
      PushLoadShape(w, c, cl, expected, v);
      var n := |w.store.hist| - 1;
      assert ClientInv(w.store, cl);
      PushLoadClient(w.store, cl, expected);
      Moves(w, c, w.store, cl.(op := Pushing(w.store.hist[n], Md5(w.store.hist[n]), n, expected)));
    }
  }

  lemma PushUploadClient(s: Store, t: Store, cl: Client, db: Database, id: nat, r: Reply)
    requires StoreInv(s) && ClientInv(s, cl) && cl.op.Pushing? && SnapKey(id) !in s.content
    requires t == PutBlob(s, SnapKey(id), SnapBlob(db), r) && Extends(s, t)
    ensures var Pushing(pm, petag, pAt, expected) := cl.op;
            var x := cl.(op := if r.Answered? then PushReady(pm, petag, pAt, expected, SnapKey(id)) else Idle);
            ClientInv(t, x) && KeepsNames(s, t, cl, x)
  {
    ClientFrame(s, t, cl);
    IdleClient(t, t, cl);
  }

  lemma StepPushUpload(w: World, c: nat, cl: Client, db: Database, id: nat, r: Reply, v: World)
    requires Inv(w) && c in w.clients && w.clients[c] == cl && NextPushUpload(w, c, cl, db, id, r) == Some(v)
    ensures Inv(v)
  {
    var s := PutBlob(w.store, SnapKey(id), SnapBlob(db), r);
    PutBlobExtends(w.store, SnapKey(id), SnapBlob(db), r);
    assert ClientInv(w.store, cl);
    PushUploadClient(w.store, s, cl, db, id, r);
    Moves(w, c, s, v.clients[c]);
  }

  function PushManifest(cl: Client, db: Database): Manifest
    requires cl.op.PushReady?
  {
    WithSnapshot(cl.op.pm, SnapRef(cl.op.key, cl.op.pm.seqNo, db))
  }

  lemma PushLands(s: Store, cl: Client, db: Database, c: nat)
    requires StoreInv(s) && cl.op.PushReady? && ClientInv(s, cl) && Unreferenced(s, cl.op.key)
    requires s.content[cl.op.key] == SnapBlob(db)
    requires Meets(s, PutCondition(cl.op.petag, false))
    ensures var t := WithManifest(s, Stamped(PushManifest(cl, db)), Pushed(db, cl.op.expected, c));
            StoreInv(t) && Extends(s, t) && ClientInv(t, cl.(op := Idle))
  {
    var m := Stamped(PushManifest(cl, db));
    var t := WithManifest(s, m, Pushed(db, cl.op.expected, c));
    MatchIsLatest(s, cl.op.pm, cl.op.petag, cl.op.pAt);
    assert ValidManifest(s.hist[cl.op.pAt]);
    SwapLands(s, m, Pushed(db, cl.op.expected, c), db);
    StatesFrame(s, t);
  }

  lemma PushShape(w: World, c: nat, cl: Client, db: Database, r: Reply)
    requires c in w.clients && w.clients[c] == cl && cl.op.PushReady?
    requires cl.op.key in w.store.content && w.store.content[cl.op.key] == SnapBlob(db)
    ensures var m, ev := PushManifest(cl, db), Pushed(db, cl.op.expected, c);
            var t := if Lands(w.store, m, PutCondition(cl.op.petag, false), r)
                then WithManifest(w.store, Stamped(m), ev)
                     else w.store;
            NextPushCas(w, c, cl, r) == Move(w, c, t, cl.(op := Idle))
  {
  }

  lemma StepPushCas(w: World, c: nat, cl: Client, r: Reply)
    requires Inv(w) && c in w.clients && w.clients[c] == cl && cl.op.PushReady?
    ensures Inv(NextPushCas(w, c, cl, r))
  {
    assert OwnedOk(w.store, cl) && ClientInv(w.store, cl);
    var db := w.store.content[cl.op.key].db;
    var m, cond := PushManifest(cl, db), PutCondition(cl.op.petag, false);
    PushShape(w, c, cl, db, r);
    if Lands(w.store, m, cond, r) {
      PushLands(w.store, cl, db, c);
      LandsSwap(w, c, Stamped(m), Pushed(db, cl.op.expected, c), cl.(op := Idle));
    } else {
      StepToIdle(w, c, cl);
    }
  }

  // ---------------------------------------------------------------- bootstrap

  lemma BootUploadClient(s: Store, t: Store, cl: Client, key: Key, db: Database, r: Reply)
    requires StoreInv(s) && ClientInv(s, cl) && cl.op.Idle? && t == PutBlob(s, key, SnapBlob(db), r) && Extends(s, t)
    requires (key.SnapKey? && key !in s.content) || (key == InitKey && db == EMPTY_DB)
    ensures var x := cl.(op := if r.Answered? then Booting(key, db) else Idle);
            ClientInv(t, x) && KeepsNames(s, t, cl, x)
  {
    ClientFrame(s, t, cl);
  }

  lemma StepBootUpload(w: World, c: nat, cl: Client, file: Option<Database>, id: nat, r: Reply, v: World)
    requires Inv(w) && c in w.clients && w.clients[c] == cl && NextBootUpload(w, c, cl, file, id, r) == Some(v)
    ensures Inv(v)
  {
    var key, db := if file.Some? then SnapKey(id) else InitKey, if file.Some? then file.value else EMPTY_DB;
    PutBlobExtends(w.store, key, SnapBlob(db), r);
    assert ClientInv(w.store, cl);
    BootUploadClient(w.store, v.store, cl, key, db, r);
    Moves(w, c, v.store, v.clients[c]);
  }

  function BootManifest(cl: Client): Manifest
    requires cl.op.Booting?
  {
    Manifest(FORMAT_VERSION, 0, 0, SnapRef(cl.op.key, 0, cl.op.db), [])
  }

  lemma BootLands(s: Store, cl: Client)
    requires StoreInv(s) && cl.op.Booting? && ClientInv(s, cl) && s.hist == []
    ensures var t := WithManifest(s, Stamped(BootManifest(cl)), Created(cl.op.db));
            StoreInv(t) && Extends(s, t) && ClientInv(t, cl.(op := Idle))
  {
    var m := Stamped(BootManifest(cl));
    ExtendHistory(s.hist, m);
    var t := WithManifest(s, m, Created(cl.op.db));
    assert EventOk(t, 0);
    LandKeeps(s, m, Created(cl.op.db));
  }

  lemma BootShape(w: World, c: nat, cl: Client, r: Reply)
    requires c in w.clients && w.clients[c] == cl && cl.op.Booting?
    ensures var m, ev := BootManifest(cl), Created(cl.op.db);
            var t := if Lands(w.store, m, PutCondition(NoETag, true), r) then WithManifest(w.store, Stamped(m), ev)
                     else w.store;
            NextBootCas(w, c, cl, r) == Move(w, c, t, cl.(op := Idle))
  {
  }

  lemma StepBootCas(w: World, c: nat, cl: Client, r: Reply)
    requires Inv(w) && c in w.clients && w.clients[c] == cl && cl.op.Booting?
    ensures Inv(NextBootCas(w, c, cl, r))
  {
    var m := BootManifest(cl);
    BootShape(w, c, cl, r);
    if Lands(w.store, m, PutCondition(NoETag, true), r) {
      assert ClientInv(w.store, cl);
      BootLands(w.store, cl);
      LandsSwap(w, c, Stamped(m), Created(cl.op.db), cl.(op := Idle));
    } else {
      StepToIdle(w, c, cl);
    }
  }

  // ---------------------------------------------------------------- migration

  lemma {:induction false} NextVersionIsLeast(migrations: seq<int>, schema: int, v: int)
    requires IncreasingVersions(migrations) && NextVersion(migrations, schema) == Some(v)
    ensures v > schema && v in migrations && v <= MaxVersion(migrations)
    ensures forall u :: u in migrations && u > schema ==> v <= u
    ensures forall s :: schema <= s < v ==> NextVersion(migrations, s) == Some(v)
    decreases |migrations|
  {
    if migrations[0] > schema {
      forall u | u in migrations && u > schema ensures v <= u {
        var i :| 0 <= i < |migrations| && migrations[i] == u;
      }
    } else {
      assert IncreasingVersions(migrations[1..]);
      NextVersionIsLeast(migrations[1..], schema, v);
      forall u | u in migrations && u > schema ensures v <= u {
        assert u in migrations[1..];
      }
      forall s | schema <= s < v ensures NextVersion(migrations, s) == Some(v) {
        assert NextVersion(migrations[1..], s) == Some(v);
      }
    }
  }

  /** Migration cleanliness, at the load: if the cached database is dirty from a losing `Up`, the
      sync that follows cannot take the incremental path. */
  lemma MigrationLoadClient(s: Store, cl: Client, last: int)
    requires StoreInv(s) && s.hist != [] && cl.op == MigrationTop(last) && ClientInv(s, cl)
    ensures var x := MigrationLoaded(cl, Loaded(cl, s));
            ClientInv(s, x) && KeepsNames(s, s, cl, x)
  {
    var n := |s.hist| - 1;
    var x := Loaded(cl, s);
    assert ValidManifest(s.hist[n]) && WellKeyed(s.content, s.hist[n]);
    if cl.conn.Some? && !Faithful(s, cl) && cl.snapshotKey == x.m.snapshot.key {
      SameEpochIsPrefix(s.hist, cl.connAt, n);
      NextVersionIsLeast(cl.migrations, x.m.schema, last);
    }
  }

  lemma StepMigrationLoad(w: World, c: nat, cl: Client, v: World)
    requires Inv(w) && c in w.clients && w.clients[c] == cl && NextMigrationLoad(w, c, cl) == Some(v)
    ensures Inv(v)
  {
    MigrationLoadClient(w.store, cl, cl.op.last);
    Moves(w, c, w.store, MigrationLoaded(cl, Loaded(cl, w.store)));
  }

  lemma StartClient(s: Store, cl: Client)
    requires ClientInv(s, cl) && cl.op.Idle? && IncreasingVersions(cl.migrations)
    ensures ClientInv(s, cl.(op := MigrationTop(-1))) && KeepsNames(s, s, cl, cl.(op := MigrationTop(-1)))
  {
  }

  lemma StepStartMigrations(w: World, c: nat, cl: Client, v: World)
    requires Inv(w) && c in w.clients && w.clients[c] == cl && NextStartMigrations(w, c, cl) == Some(v)
    ensures Inv(v)
  {
    assert ClientInv(w.store, cl);
    StartClient(w.store, cl);
    Moves(w, c, w.store, cl.(op := MigrationTop(-1)));
  }

  lemma RunUpClient(s: Store, t: Store, cl: Client, after: Database, id: nat)
    requires StoreInv(s) && ClientInv(s, cl) && cl.op.Migrating? && cl.conn.Some? && SnapKey(id) !in s.content
    requires t == PutBlob(s, SnapKey(id), SnapBlob(after), Answered) && Extends(s, t)
    ensures var x := cl.(conn := Some(after), op := MigrationReady(cl.op.version, SnapKey(id), cl.conn.value));
            ClientInv(t, x) && KeepsNames(s, t, cl, x)
  {
    ClientFrame(s, t, cl);
  }

  lemma StepRunUp(w: World, c: nat, cl: Client, after: Database, id: nat, r: Reply, v: World)
    requires Inv(w) && c in w.clients && w.clients[c] == cl && NextRunUp(w, c, cl, after, id, r) == Some(v)
    ensures Inv(v)
  {
    PutBlobExtends(w.store, SnapKey(id), SnapBlob(after), r);
    if r.Answered? {
      assert ClientInv(w.store, cl);
      RunUpClient(w.store, v.store, cl, after, id);
    } else {
      ClosedClient(v.store, v.store, cl);
    }
    Moves(w, c, v.store, v.clients[c]);
  }

  function MigrationManifest(cl: Client): Manifest
    requires cl.op.MigrationReady? && cl.conn.Some?
  {
    Manifest(FORMAT_VERSION, cl.m.seqNo, cl.op.version, SnapRef(cl.op.key, cl.m.seqNo, cl.conn.value), [])
  }

  lemma MigrationLands(s: Store, c: nat, cl: Client)
    requires StoreInv(s) && cl.op.MigrationReady? && ClientInv(s, cl) && Unreferenced(s, cl.op.key)
    requires Meets(s, PutCondition(cl.etag, false))
    ensures var m := Stamped(MigrationManifest(cl));
            var t := WithManifest(s, m, Migrated(cl.op.version, cl.op.before, cl.conn.value, c));
            && StoreInv(t) && Extends(s, t)
            && ClientInv(t, cl.(m := m, etag := Md5(m), mAt := |s.hist|, localSeq := cl.m.seqNo,
                                snapshotKey := cl.op.key, connAt := |s.hist|, op := MigrationTop(cl.op.version)))
            && ClientInv(t, Closed(cl))
  {
    var m := Stamped(MigrationManifest(cl));
    var ev := Migrated(cl.op.version, cl.op.before, cl.conn.value, c);
    var t := WithManifest(s, m, ev);
    MatchIsLatest(s, cl.m, cl.etag, cl.mAt);
    assert ValidManifest(s.hist[cl.mAt]);
    NextVersionIsLeast(cl.migrations, cl.m.schema, cl.op.version);
    SwapLands(s, m, ev, cl.conn.value);
    StatesFrame(s, t);
  }

  function MigratedClient(s: Store, cl: Client, r: Reply): Client
    requires cl.op.MigrationReady? && cl.conn.Some?
  {
    var m := Stamped(MigrationManifest(cl));
    if r.Answered? then
      cl.(m := m, etag := Md5(m), mAt := |s.hist|, localSeq := cl.m.seqNo, snapshotKey := cl.op.key,
          connAt := |s.hist|, op := MigrationTop(cl.op.version))
    else Closed(cl)
  }

  lemma MigrationWon(w: World, c: nat, cl: Client, r: Reply)
    requires c in w.clients && w.clients[c] == cl && cl.op.MigrationReady? && cl.conn.Some?
    requires Lands(w.store, MigrationManifest(cl), PutCondition(cl.etag, false), r)
    ensures var ev := Migrated(cl.op.version, cl.op.before, cl.conn.value, c);
            NextMigrationCas(w, c, cl, r)
              == Move(w, c, WithManifest(w.store, Stamped(MigrationManifest(cl)), ev), MigratedClient(w.store, cl, r))
  {
  }

  lemma MigrationLost(w: World, c: nat, cl: Client, r: Reply)
    requires c in w.clients && w.clients[c] == cl && cl.op.MigrationReady? && cl.conn.Some?
    requires !Lands(w.store, MigrationManifest(cl), PutCondition(cl.etag, false), r)
    ensures var refused := PutOutcome(w.store, MigrationManifest(cl), PutCondition(cl.etag, false), r).Refused?;
            NextMigrationCas(w, c, cl, r)
              == Move(w, c, w.store, if refused then cl.(op := MigrationTop(cl.op.version)) else Closed(cl))
  {
  }

  lemma StepMigrationCas(w: World, c: nat, cl: Client, r: Reply)
    requires Inv(w) && c in w.clients && w.clients[c] == cl && cl.op.MigrationReady? && cl.conn.Some?
    ensures Inv(NextMigrationCas(w, c, cl, r))
  {
    var m, cond := MigrationManifest(cl), PutCondition(cl.etag, false);
    assert OwnedOk(w.store, cl) && ClientInv(w.store, cl);
    if Lands(w.store, m, cond, r) {
      MigrationLands(w.store, c, cl);
      LandsSwap(w, c, Stamped(m), Migrated(cl.op.version, cl.op.before, cl.conn.value, c),
                MigratedClient(w.store, cl, r));
      MigrationWon(w, c, cl, r);
    } else {
      MigrationNotLanded(w, c, cl, r);
    }
  }

  /** A lost migration leaves a dirty cache, marked by the version it attempted. */
  lemma MigrationLostClient(s: Store, cl: Client)
    requires cl.op.MigrationReady? && ClientInv(s, cl)
    ensures var x := cl.(op := MigrationTop(cl.op.version)); ClientInv(s, x) && KeepsNames(s, s, cl, x)
  {
  }

  lemma MigrationNotLanded(w: World, c: nat, cl: Client, r: Reply)
    requires Inv(w) && c in w.clients && w.clients[c] == cl && cl.op.MigrationReady? && cl.conn.Some?
    requires !Lands(w.store, MigrationManifest(cl), PutCondition(cl.etag, false), r)
    ensures Inv(NextMigrationCas(w, c, cl, r))
  {
    MigrationLost(w, c, cl, r);
    if PutOutcome(w.store, MigrationManifest(cl), PutCondition(cl.etag, false), r).Refused? {
      assert ClientInv(w.store, cl);
      MigrationLostClient(w.store, cl);
      Moves(w, c, w.store, cl.(op := MigrationTop(cl.op.version)));
    } else {
      StepToClosed(w, c, cl);
    }
  }

  // ---------------------------------------------------------------- deletes and aborts

  lemma StepDeletes(w: World, ks: set<Key>)
    requires Inv(w)
    ensures Inv(w.(store := DeleteBlobs(w.store, ks)))
  {
    var s := DeleteBlobs(w.store, ks);
    var v := w.(store := s);
    DeleteBlobsKeeps(w.store, ks);
    forall c | c in v.clients ensures ClientInv(s, v.clients[c]) {
      ClientFrame(w.store, s, w.clients[c]);
    }
    forall c | c in v.clients ensures OwnedOk(s, v.clients[c]) && ActiveOk(v, c) {
      assert OwnedOk(w.store, w.clients[c]) && ActiveOk(w, c);
      NeverKept(w.store, s);
    }
    forall n | n in v.results ensures ResultOk(v, n) {
      NeverKept(w.store, s);
      ResultKept(w, v, n);
    }
  }

  lemma DropOrphanClient(s: Store, t: Store, cl: Client)
    requires StoreInv(s) && Extends(s, t) && ClientInv(s, cl) && cl.op.Capturing?
    ensures var x := cl.(op := Capturing(cl.op.call, None)); ClientInv(t, x) && KeepsNames(s, t, cl, x)
  {
    ClientFrame(s, t, cl);
  }

  lemma StepDeleteOrphan(w: World, c: nat, cl: Client, v: World)
    requires Inv(w) && c in w.clients && w.clients[c] == cl && NextDeleteOrphan(w, c, cl) == Some(v)
    ensures Inv(v)
  {
    DeleteBlobsKeeps(w.store, {cl.op.orphan.value});
    assert ClientInv(w.store, cl);
    DropOrphanClient(w.store, v.store, cl);
    Moves(w, c, v.store, v.clients[c]);
  }

  lemma CapturingToIdle(s: Store, cl: Client)
    requires ClientInv(s, cl) && cl.op.Capturing?
    ensures ClientInv(s, cl.(op := Idle))
  {
  }

  lemma EndCapturing(w: World, c: nat, cl: Client, outcome: Outcome)
    requires Inv(w) && c in w.clients && w.clients[c] == cl && cl.op.Capturing? && !outcome.Committed?
    ensures Inv(Finish(w, c, cl, cl.op.call, outcome))
  {
    assert ClientInv(w.store, cl);
    CapturingToIdle(w.store, cl);
    Ends(w, c, w.store, cl, cl.op.call, outcome);
  }

  /** The abort of an open savepoint. */
  lemma AbortShape(w: World, c: nat, cl: Client, outcome: Outcome, v: World)
    requires c in w.clients && w.clients[c] == cl && NextAbort(w, c, cl, outcome) == Some(v)
    requires cl.op.CasReady? || cl.op.CasLost? || cl.op.Rebasing?
    ensures !outcome.Committed?
    ensures v == Finish(w, c, Rollback(w.restoreSeqOnRollback, cl, cl.op.u), cl.op.u.call, outcome)
    ensures Safe(w, Abort(c, outcome)) <==> SafeRollback(w.store, w.restoreSeqOnRollback, cl, cl.op.u)
  {
  }

  lemma StepAbort(w: World, c: nat, cl: Client, outcome: Outcome, v: World)
    requires Inv(w) && c in w.clients && w.clients[c] == cl && NextAbort(w, c, cl, outcome) == Some(v)
    ensures Inv(v) <==> Safe(w, Abort(c, outcome))
  {
    if cl.op.CasReady? || cl.op.CasLost? || cl.op.Rebasing? {
      AbortShape(w, c, cl, outcome, v);
      StepRollback(w, c, cl, cl.op.u, outcome);
    } else if cl.op.Capturing? {
      EndCapturing(w, c, cl, outcome);
    } else {
      AbortQuietly(w, c, cl, outcome, v);
    }
  }

  lemma AbortQuietly(w: World, c: nat, cl: Client, outcome: Outcome, v: World)
    requires Inv(w) && c in w.clients && w.clients[c] == cl && NextAbort(w, c, cl, outcome) == Some(v)
    requires !(cl.op.CasReady? || cl.op.CasLost? || cl.op.Rebasing? || cl.op.Capturing?)
    ensures Inv(v)
  {
    if cl.op.MigrationTop? || cl.op.Migrating? || cl.op.MigrationReady? {
      StepToClosed(w, c, cl);
    } else {
      StepToIdle(w, c, cl);
    }
  }

  // ---------------------------------------------------------------- every action

  lemma StepCas(w: World, c: nat, cl: Client, r: Reply, v: World)
    requires Inv(w) && c in w.clients && w.clients[c] == cl && NextCas(w, c, cl, r) == Some(v)
    ensures Inv(v) <==> Safe(w, Cas(c, r))
  {
    match cl.op
    case CasReady(_) => StepCommit(w, c, cl, r);
    case CompactReady(_) => StepCompactCas(w, c, cl, r);
    case MigrationReady(_, _, _) => StepMigrationCas(w, c, cl, r);
    case PushReady(_, _, _, _, _) => StepPushCas(w, c, cl, r);
    case Booting(_, _) => StepBootCas(w, c, cl, r);
  }

  /** From a good world, an action leads to a good world exactly when it is not an unsafe rollback. */
  lemma StepIsGoodIffSafe(w: World, a: Action, v: World)
    requires Inv(w) && Next(w, a) == Some(v)
    ensures Inv(v) <==> Safe(w, a)
  {
    var cl := w.clients[a.c];
    match a
    case Load(c, p) => StepLoad(w, c, cl, p, v);
    case Sync(c, outcome) => StepSync(w, c, cl, outcome, v);
    case DeleteOrphan(c) => StepDeleteOrphan(w, c, cl, v);
    case Capture(c, after, id, r) => StepCapture(w, c, cl, after, id, r, v);
    case Cas(c, r) => StepCas(w, c, cl, r, v);
    case Reload(c) => StepReload(w, c, cl, v);
    case RebaseEntry(c) => StepRebaseEntry(w, c, cl, v);
    case RebaseDone(c) => StepRebaseDone(w, c, cl, v);
    case CompactUpload(c, id, r) => StepCompactUpload(w, c, cl, id, r, v);
    case StartMigrations(c) => StepStartMigrations(w, c, cl, v);
    case MigrationLoad(c) => StepMigrationLoad(w, c, cl, v);
    case RunUp(c, after, id, r) => StepRunUp(w, c, cl, after, id, r, v);
    case PushLoad(c, expected) => StepPushLoad(w, c, cl, expected, v);
    case PushUpload(c, db, id, r) => StepPushUpload(w, c, cl, db, id, r, v);
    case BootUpload(c, file, id, r) => StepBootUpload(w, c, cl, file, id, r, v);
    case GcEpoch(c, epoch) => StepDeletes(w, set k | k in w.store.live && k.CsKey? && k.epoch == epoch);
    case GcSnapshot(c, key) => StepDeletes(w, {key});
    case Abort(c, why) => StepAbort(w, c, cl, why, v);
  }
}
