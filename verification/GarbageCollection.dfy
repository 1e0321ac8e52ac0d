/** Availability: which blobs must stay present, what keeps them present, and exactly which sweep
    steps remove one that is needed. */
module GarbageCollection {
  import opened Basics
  import opened Manifests
  import opened Protocol
  import opened Frames
  import opened Invariant
  import opened Steps
  import opened Swapping
  import opened Writes
  import opened Theorems

  /** Everything the stored manifest names is present. */
  ghost predicate CurrentAvailable(s: Store) {
    s.hist != [] ==> forall k :: Mentions(s.hist[|s.hist| - 1], k) ==> k in s.live
  }

  predicate IsLatest(s: Store, etag: ETag) {
    s.hist != [] && etag == Md5(s.hist[|s.hist| - 1])
  }

  /** Could this client's blob still be named by a later manifest without being uploaded again? */
  predicate MayLand(s: Store, cl: Client) {
    match cl.op
    case CasReady(u) => s.hist != [] && u.key.CsKey? && u.key.epoch == Epoch(s.hist[|s.hist| - 1])
    case CasLost(u) => s.hist != [] && u.key.CsKey? && u.key.epoch == Epoch(s.hist[|s.hist| - 1])
    case Rebasing(u, _, _, _, _) => s.hist != [] && u.key.CsKey? && u.key.epoch == Epoch(s.hist[|s.hist| - 1])
    case CompactReady(_) => IsLatest(s, cl.etag)
    case MigrationReady(_, _, _) => IsLatest(s, cl.etag)
    case PushReady(_, petag, _, _, _) => IsLatest(s, petag)
    case Booting(_, _) => s.hist == []
    case _ => false
  }

  function Uploaded(cl: Client): Key {
    match cl.op
    case CasReady(u) => u.key
    case CasLost(u) => u.key
    case Rebasing(u, _, _, _, _) => u.key
    case CompactReady(key) => key
    case MigrationReady(_, key, _) => key
    case PushReady(_, _, _, _, key) => key
    case Booting(key, _) => key
    case _ => NoKey
  }

  predicate PendingAvailable(s: Store, cl: Client) {
    MayLand(s, cl) ==> Uploaded(cl) in s.live
  }

  ghost predicate Available(w: World) {
    && CurrentAvailable(w.store)
    && forall c :: c in w.clients ==> PendingAvailable(w.store, w.clients[c])
  }

  /** Has a snapshot been uploaded whose manifest is not written yet? */
  predicate SwapInFlight(op: Op) {
    op.CompactReady? || op.MigrationReady? || op.PushReady? || op.Booting?
  }

  /** No compaction, push, migration or bootstrap overlaps the sweep: none landed since the sweep
      loaded its manifest, and none is between its upload and its manifest write. */
  ghost predicate Undisturbed(w: World, a: Action) {
    (a.GcEpoch? || a.GcSnapshot?) && a.c in w.clients && w.clients[a.c].op.Sweeping? && w.store.hist != [] ==>
      && Epoch(w.clients[a.c].op.gm) == Epoch(w.store.hist[|w.store.hist| - 1])
      && (a.GcSnapshot? ==> forall c :: c in w.clients ==> !SwapInFlight(w.clients[c].op))
  }

  /** Epoch confinement makes the sweep's test on live keys redundant: no log key of a stored
      manifest lies in a foreign epoch. */
  lemma NoLiveKeyInForeignEpoch(s: Store, i: int, epoch: Key)
    requires StoreInv(s) && 0 <= i < |s.hist| && epoch != Epoch(s.hist[i])
    ensures forall j :: 0 <= j < |s.hist[i].log| ==> s.hist[i].log[j].key.CsKey? && s.hist[i].log[j].key.epoch != epoch
  {
    assert WellKeyed(s.content, s.hist[i]);
    forall j | 0 <= j < |s.hist[i].log| ensures s.hist[i].log[j].key.CsKey? && s.hist[i].log[j].key.epoch != epoch {
      assert EntryKeyed(s.content, s.hist[i], j);
    }
  }

  // ---------------------------------------------------------------- deletes

  /** A delete that spares what is needed. */
  lemma DeleteSpares(w: World, ks: set<Key>)
    requires Available(w)
    requires w.store.hist != [] ==> forall k :: k in ks ==> !Mentions(w.store.hist[|w.store.hist| - 1], k)
    requires forall c :: c in w.clients && MayLand(w.store, w.clients[c]) ==> Uploaded(w.clients[c]) !in ks
    ensures Available(w.(store := DeleteBlobs(w.store, ks)))
  {
    var v := w.(store := DeleteBlobs(w.store, ks));
    forall c | c in v.clients ensures PendingAvailable(v.store, v.clients[c]) {
      assert PendingAvailable(w.store, w.clients[c]);
    }
  }

  lemma GcEpochSpares(w: World, c: nat, cl: Client, epoch: Key, v: World)
    requires StoreInv(w.store) && ClientsInv(w) && Available(w) && c in w.clients && w.clients[c] == cl
    requires NextGcEpoch(w, c, cl, epoch) == Some(v) && Undisturbed(w, GcEpoch(c, epoch))
    ensures Available(v)
  {
    var n := |w.store.hist| - 1;
    assert ClientInv(w.store, cl);
    NoLiveKeyInForeignEpoch(w.store, n, epoch);
    var ks := set k | k in w.store.live && k.CsKey? && k.epoch == epoch;
    assert WellKeyed(w.store.content, w.store.hist[n]);
    forall d | d in w.clients && MayLand(w.store, w.clients[d]) ensures Uploaded(w.clients[d]) !in ks {
      assert ClientInv(w.store, w.clients[d]);
    }
    DeleteSpares(w, ks);
  }

  lemma PendingIsChangeset(s: Store, cl: Client)
    requires MayLand(s, cl) && !SwapInFlight(cl.op)
    ensures Uploaded(cl).CsKey?
  {
  }

  lemma LogNamesChangesets(content: map<Key, Blob>, m: Manifest, key: Key)
    requires WellKeyed(content, m) && !key.CsKey? && key != m.snapshot.key
    ensures !Mentions(m, key)
  {
    forall j | 0 <= j < |m.log| ensures m.log[j].key != key {
      assert EntryKeyed(content, m, j);
    }
  }

  lemma GcSnapshotShape(w: World, c: nat, cl: Client, key: Key, v: World)
    requires NextGcSnapshot(w, c, cl, key) == Some(v)
    ensures cl.op.Sweeping? && !key.CsKey? && key != cl.op.gm.snapshot.key
              && v == w.(store := DeleteBlobs(w.store, {key}))
  {
  }

  lemma GcSnapshotSpares(w: World, c: nat, cl: Client, key: Key, v: World)
    requires StoreInv(w.store) && ClientsInv(w) && Available(w) && c in w.clients && w.clients[c] == cl
    requires NextGcSnapshot(w, c, cl, key) == Some(v) && Undisturbed(w, GcSnapshot(c, key))
    ensures Available(v)
  {
    GcSnapshotShape(w, c, cl, key, v);
    var n := |w.store.hist| - 1;
    assert ClientInv(w.store, cl);
    LogNamesChangesets(w.store.content, w.store.hist[n], key);
    forall d | d in w.clients && MayLand(w.store, w.clients[d]) ensures Uploaded(w.clients[d]) != key {
      PendingIsChangeset(w.store, w.clients[d]);
    }
    DeleteSpares(w, {key});
  }

  /** What a sweep step removes. */
  function Doomed(s: Store, a: Action): set<Key>
    requires a.GcEpoch? || a.GcSnapshot?
  {
    if a.GcEpoch? then set k | k in s.live && k.CsKey? && k.epoch == a.epoch else {a.key}
  }

  /** A sweep step keeps everything available exactly when it removes neither a blob the stored
      manifest names nor one that a pending write may still hand over. */
  lemma SweepStepDoomed(w: World, a: Action, v: World)
    requires Available(w) && w.store.hist != [] && (a.GcEpoch? || a.GcSnapshot?) && Next(w, a) == Some(v)
    ensures Available(v) <==>
              && (forall k :: k in Doomed(w.store, a) ==> !Mentions(w.store.hist[|w.store.hist| - 1], k))
              && (forall c :: c in w.clients && MayLand(w.store, w.clients[c]) ==>
                    Uploaded(w.clients[c]) !in Doomed(w.store, a))
  {
    var ks, m := Doomed(w.store, a), w.store.hist[|w.store.hist| - 1];
    assert v == w.(store := DeleteBlobs(w.store, ks));
    if k :| k in ks && Mentions(m, k) {
      assert k !in v.store.live;
    } else if c :| c in w.clients && MayLand(w.store, w.clients[c]) && Uploaded(w.clients[c]) in ks {
      assert MayLand(v.store, v.clients[c]) && !PendingAvailable(v.store, v.clients[c]);
    } else {
      DeleteSpares(w, ks);
    }
  }

  lemma EpochSweepHits(w: World, a: Action)
    requires StoreInv(w.store) && Available(w) && w.store.hist != [] && a.GcEpoch?
    ensures var m := w.store.hist[|w.store.hist| - 1];
            (forall k :: k in Doomed(w.store, a) ==> !Mentions(m, k)) <==> a.epoch != Epoch(m) || m.log == []
  {
    var n := |w.store.hist| - 1;
    var m := w.store.hist[n];
    assert WellKeyed(w.store.content, m);
    if a.epoch != Epoch(m) {
      NoLiveKeyInForeignEpoch(w.store, n, a.epoch);
    } else if m.log != [] {
      assert EntryKeyed(w.store.content, m, 0) && Mentions(m, m.log[0].key);
      assert m.log[0].key in Doomed(w.store, a);
    }
  }

  lemma SnapshotSweepHits(w: World, a: Action)
    requires StoreInv(w.store) && w.store.hist != [] && a.GcSnapshot? && (a.key.SnapKey? || a.key.InitKey?)
    ensures var m := w.store.hist[|w.store.hist| - 1];
            (forall k :: k in Doomed(w.store, a) ==> !Mentions(m, k)) <==> a.key != m.snapshot.key
  {
    var m := w.store.hist[|w.store.hist| - 1];
    assert WellKeyed(w.store.content, m);
    assert a.key in Doomed(w.store, a) && Mentions(m, m.snapshot.key);
    forall j | 0 <= j < |m.log| ensures m.log[j].key != a.key {
      assert EntryKeyed(w.store.content, m, j);
    }
  }

  /** Is some update about to append a changeset of the stored manifest's epoch? */
  ghost predicate AppendPending(w: World) {
    exists c :: c in w.clients && MayLand(w.store, w.clients[c]) && Uploaded(w.clients[c]).CsKey?
  }

  /** Is some swap about to make `key` the stored snapshot? */
  ghost predicate SwapPending(w: World, key: Key) {
    exists c :: c in w.clients && MayLand(w.store, w.clients[c]) && Uploaded(w.clients[c]) == key
  }

  /** Exactly when a sweep step is harmless.  Deleting an epoch: unless the stored manifest has moved
      on to that epoch and has log entries there or is about to get one.  Deleting a snapshot: unless
      the stored manifest has moved on to it, or a compaction, migration or push that uploaded it is
      about to. */
  lemma SweepStepExact(w: World, a: Action, v: World)
    requires Inv(w) && Available(w) && (a.GcEpoch? || a.GcSnapshot?) && Next(w, a) == Some(v)
    ensures w.store.hist != []
    ensures var m := w.store.hist[|w.store.hist| - 1];
            && (a.GcEpoch? ==> (Available(v) <==> a.epoch != Epoch(m) || (m.log == [] && !AppendPending(w))))
            && (a.GcSnapshot? ==> (Available(v) <==> a.key != m.snapshot.key && !SwapPending(w, a.key)))
  {
    assert ClientInv(w.store, w.clients[a.c]);
    SweepStepDoomed(w, a, v);
    if a.GcEpoch? {
      EpochSweepHits(w, a);
      PendingInEpoch(w, a);
    } else {
      SnapshotSweepHits(w, a);
    }
  }

  lemma PendingInEpoch(w: World, a: Action)
    requires ClientsInv(w) && Available(w) && w.store.hist != [] && a.GcEpoch?
    ensures (forall c :: c in w.clients && MayLand(w.store, w.clients[c]) ==>
              Uploaded(w.clients[c]) !in Doomed(w.store, a))
       <==> a.epoch != Epoch(w.store.hist[|w.store.hist| - 1]) || !AppendPending(w)
  {
    forall c | c in w.clients && MayLand(w.store, w.clients[c])
      ensures Uploaded(w.clients[c]) in Doomed(w.store, a)
         <==> Uploaded(w.clients[c]).CsKey? && a.epoch == Epoch(w.store.hist[|w.store.hist| - 1])
    {
      assert ClientInv(w.store, w.clients[c]) && PendingAvailable(w.store, w.clients[c]);
    }
  }

  // ---------------------------------------------------------------- writes

  /** An update in flight: its blob may land afterwards only if it could before. */
  lemma UpdateStaysPending(s: Store, t: Store, cl: Client, u: Upd)
    requires StoreInv(t) && Extends(s, t) && UpdateOk(s, cl, u) && |t.hist| == |s.hist| + 1
    requires t.hist[|s.hist|].log == [] ==> Unreferenced(s, t.hist[|s.hist|].snapshot.key)
    ensures u.key.epoch == Epoch(t.hist[|s.hist|]) ==> u.key.epoch == Epoch(s.hist[|s.hist| - 1])
  {
    var n := |s.hist|;
    if t.hist[n].log == [] {
      assert Mentions(s.hist[cl.mAt], cl.snapshotKey);
    } else {
      assert Linked(t.hist, n);
    }
  }

  /** A swap in flight, or any other write with the ETag of an older manifest, cannot land any more. */
  lemma OldETagIsStale(s: Store, t: Store, m: Manifest, etag: ETag, at: int)
    requires StoreInv(t) && Extends(s, t) && HasLoaded(s, m, etag, at) && |t.hist| == |s.hist| + 1
    ensures !IsLatest(t, etag)
  {
    NoAba(t.hist, at, |s.hist|);
  }

  lemma OthersStayPending(s: Store, t: Store, cl: Client)
    requires StoreInv(t) && Extends(s, t) && ClientInv(s, cl) && PendingAvailable(s, cl)
    requires t.live == s.live && |t.hist| == |s.hist| + 1
    requires s.hist != [] && t.hist[|s.hist|].log == [] ==> Unreferenced(s, t.hist[|s.hist|].snapshot.key)
    ensures PendingAvailable(t, cl)
  {
    if cl.op.CasReady? || cl.op.CasLost? || cl.op.Rebasing? {
      UpdateStaysPending(s, t, cl, cl.op.u);
    } else if cl.op.CompactReady? || cl.op.MigrationReady? {
      OldETagIsStale(s, t, cl.m, cl.etag, cl.mAt);
    } else if cl.op.PushReady? {
      OldETagIsStale(s, t, cl.op.pm, cl.op.petag, cl.op.pAt);
    }
  }

  /** A landed manifest names what the previous one named and what its writer had uploaded. */
  lemma LandedIsAvailable(s: Store, t: Store, cl: Client)
    requires CurrentAvailable(s) && t.live == s.live && |t.hist| == |s.hist| + 1 && Uploaded(cl) in s.live
    requires forall k :: Mentions(t.hist[|s.hist|], k) ==>
               k == Uploaded(cl) || (s.hist != [] && Mentions(s.hist[|s.hist| - 1], k))
    ensures CurrentAvailable(t)
  {
  }

  lemma CommitNames(cl: Client, u: Upd, k: Key)
    requires Mentions(Stamped(CommitManifest(cl, u)), k)
    ensures k == u.key || Mentions(cl.m, k)
  {
    var m := Stamped(CommitManifest(cl, u));
    if m.snapshot.key != k {
      var j :| 0 <= j < |m.log| && m.log[j].key == k;
      if j < |cl.m.log| {
        assert cl.m.log[j].key == k;
      }
    }
  }

  lemma SwapManifestNames(s: Store, cl: Client)
    requires (WritesManifest(cl.op) && !cl.op.CasReady?) || cl.op.Booting?
    requires cl.op.CompactReady? || cl.op.MigrationReady? ==> cl.conn.Some?
    ensures var m := Stamped(CasManifest(s, cl)); m.log == [] && m.snapshot.key == Uploaded(cl)
  {
  }

  /** If the write goes through, the blob it hands over is present. */
  lemma LandingBlobIsLive(s: Store, cl: Client)
    requires StoreInv(s) && ClientInv(s, cl) && PendingAvailable(s, cl)
    requires (WritesManifest(cl.op) || cl.op.Booting?) && Meets(s, CasCondition(cl))
    ensures MayLand(s, cl) && Uploaded(cl) in s.live
  {
    if WritesManifest(cl.op) {
      CasETagIsLoaded(s, cl);
    }
  }

  lemma CasLandedAvailable(s: Store, t: Store, cl: Client)
    requires StoreInv(s) && ClientInv(s, cl) && OwnedOk(s, cl)
    requires (WritesManifest(cl.op) || cl.op.Booting?) && Meets(s, CasCondition(cl))
    requires CurrentAvailable(s) && PendingAvailable(s, cl)
    requires t.live == s.live && t.hist == s.hist + [Stamped(CasManifest(s, cl))]
    ensures CurrentAvailable(t)
    ensures s.hist != [] && t.hist[|s.hist|].log == [] ==> Unreferenced(s, t.hist[|s.hist|].snapshot.key)
  {
    LandingBlobIsLive(s, cl);
    if cl.op.CasReady? {
      CommitLandedNames(s, cl, cl.op.u);
    } else {
      SwapManifestNames(s, cl);
    }
    LandedIsAvailable(s, t, cl);
  }

  /** Whatever a client is about to write is a valid manifest that names the blob it uploaded. */
  lemma CasManifestValid(s: Store, cl: Client)
    requires StoreInv(s) && ClientInv(s, cl) && (WritesManifest(cl.op) || cl.op.Booting?)
    ensures ValidManifest(Stamped(CasManifest(s, cl))) && Mentions(Stamped(CasManifest(s, cl)), Uploaded(cl))
  {
    var m := Stamped(CasManifest(s, cl));
    match cl.op
    case CasReady(u) =>
      CommitShape(cl, u);
      assert m.log[|m.log| - 1].key == u.key;
    case CompactReady(_) => assert ValidManifest(cl.m);
    case MigrationReady(v, _, _) =>
      assert ValidManifest(cl.m);
      NextVersionIsLeast(cl.migrations, cl.m.schema, v);
    case PushReady(pm, _, _, _, _) => assert ValidManifest(pm);
    case Booting(_, _) =>
  }

  /** ... and it is fatal to lose that blob: the write still goes through, and what it stores cannot
      be read. */
  lemma LosingPendingIsFatal(w: World, c: nat, v: World)
    requires StoreInv(w.store) && ClientsInv(w) && c in w.clients && Next(w, Cas(c, Answered)) == Some(v)
    requires Meets(w.store, CasCondition(w.clients[c])) && Uploaded(w.clients[c]) !in w.store.live
    ensures !CurrentAvailable(v.store)
  {
    var cl := w.clients[c];
    assert ClientInv(w.store, cl);
    CasStore(w, c, cl, Answered, v);
    CasManifestValid(w.store, cl);
    var m := Stamped(CasManifest(w.store, cl));
    assert v.store.hist == w.store.hist + [m];
    assert Mentions(v.store.hist[|v.store.hist| - 1], Uploaded(cl)) && Uploaded(cl) !in v.store.live;
  }

  lemma CommitLandedNames(s: Store, cl: Client, u: Upd)
    requires StoreInv(s) && HasLoaded(s, cl.m, cl.etag, cl.mAt) && Meets(s, PutCondition(cl.etag, false))
    ensures var m := Stamped(CommitManifest(cl, u));
            m.log != [] && forall k :: Mentions(m, k) ==> k == u.key || Mentions(s.hist[|s.hist| - 1], k)
  {
    MatchIsLatest(s, cl.m, cl.etag, cl.mAt);
    forall k | Mentions(Stamped(CommitManifest(cl, u)), k) ensures k == u.key || Mentions(s.hist[|s.hist| - 1], k) {
      CommitNames(cl, u, k);
    }
  }

  lemma OthersStayPendingAll(w: World, v: World, c: nat)
    requires StoreInv(w.store) && StoreInv(v.store) && ClientsInv(w) && Available(w) && Framed(w, v, c)
    requires v.store.live == w.store.live
    requires v.store.hist == w.store.hist ||
             (|v.store.hist| == |w.store.hist| + 1 &&
              (w.store.hist != [] && v.store.hist[|w.store.hist|].log == [] ==>
                  Unreferenced(w.store, v.store.hist[|w.store.hist|].snapshot.key)))
    ensures forall d :: d in v.clients && d != c ==> PendingAvailable(v.store, v.clients[d])
  {
    forall d | d in v.clients && d != c ensures PendingAvailable(v.store, v.clients[d]) {
      assert ClientInv(w.store, w.clients[d]) && PendingAvailable(w.store, w.clients[d]);
      if v.store.hist != w.store.hist {
        OthersStayPending(w.store, v.store, w.clients[d]);
      }
    }
  }

  /** The store half of a manifest write. */
  lemma CasCurrentAvailable(s: Store, t: Store, cl: Client, r: Reply)
    requires StoreInv(s) && ClientInv(s, cl) && OwnedOk(s, cl) && CurrentAvailable(s) && PendingAvailable(s, cl)
    requires WritesManifest(cl.op) || cl.op.Booting?
    requires t.live == s.live
    requires var m := CasManifest(s, cl); t.hist == if Lands(s, m, CasCondition(cl), r) then s.hist + [Stamped(m)]
               else s.hist
    ensures CurrentAvailable(t)
    ensures t.hist != s.hist ==>
              && |t.hist| == |s.hist| + 1
              && (s.hist != [] && t.hist[|s.hist|].log == [] ==> Unreferenced(s, t.hist[|s.hist|].snapshot.key))
  {
    if Lands(s, CasManifest(s, cl), CasCondition(cl), r) {
      CasLandedAvailable(s, t, cl);
    }
  }

  lemma CasKeepsAvailable(w: World, c: nat, cl: Client, r: Reply, v: World)
    requires StoreInv(w.store) && ClientsInv(w) && Available(w) && StoreInv(v.store) && Framed(w, v, c)
    requires w.clients[c] == cl && OwnedOk(w.store, cl) && (WritesManifest(cl.op) || cl.op.Booting?)
    requires cl.op.CompactReady? || cl.op.MigrationReady? ==> cl.conn.Some?
    requires CasEffect(w, c, cl, CasManifest(w.store, cl), CasCondition(cl), r, v)
    ensures Available(v)
  {
    assert ClientInv(w.store, cl) && PendingAvailable(w.store, cl);
    CasCurrentAvailable(w.store, v.store, cl, r);
    OthersStayPendingAll(w, v, c);
    WriterStaysPending(w.store, v.store, cl, v.clients[c].op, v.clients[c]);
  }

  /** The writer's own part: it is done, or its blob waits as before. */
  lemma WriterStaysPending(s: Store, t: Store, cl: Client, op: Op, x: Client)
    requires PendingAvailable(s, cl) && x.op == op
    requires op.Idle? || op.MigrationTop? || (cl.op.CasReady? && t == s && op == CasLost(cl.op.u))
    ensures PendingAvailable(t, x)
  {
  }

  /** A step that writes no manifest and deletes nothing. */
  lemma QuietKeepsAvailable(w: World, v: World, c: nat)
    requires Available(w) && Quiet(w, v, c) && w.store.live <= v.store.live
    requires PendingAvailable(v.store, v.clients[c])
    ensures Available(v)
  {
    forall d | d in v.clients ensures PendingAvailable(v.store, v.clients[d]) {
      assert PendingAvailable(w.store, w.clients[d]);
    }
  }

  predicate Deletes(a: Action) {
    a.GcEpoch? || a.GcSnapshot? || a.DeleteOrphan?
  }

  lemma UploadsAreLive(w: World, a: Action, v: World)
    requires Next(w, a) == Some(v) && (a.Capture? || a.CompactUpload? || a.RunUp? || a.PushUpload? || a.BootUpload?)
    ensures w.store.live <= v.store.live && PendingAvailable(v.store, v.clients[a.c])
  {
  }

  lemma RebaseKeepsBlob(w: World, a: Action, v: World)
    requires Next(w, a) == Some(v) && (a.Reload? || a.RebaseEntry? || a.RebaseDone?)
    requires PendingAvailable(w.store, w.clients[a.c])
    ensures w.store.live <= v.store.live && PendingAvailable(v.store, v.clients[a.c])
  {
  }

  lemma OthersHaveNoBlob(w: World, a: Action, v: World)
    requires Next(w, a) == Some(v) && (a.Load? || a.StartMigrations? || a.MigrationLoad? || a.Abort?)
    ensures w.store.live <= v.store.live && PendingAvailable(v.store, v.clients[a.c])
  {
  }

  lemma SyncHasNoBlob(w: World, c: nat, cl: Client, outcome: SyncOutcome, v: World)
    requires c in w.clients && w.clients[c] == cl && NextSync(w, c, cl, outcome) == Some(v)
    ensures w.store.live <= v.store.live && PendingAvailable(v.store, v.clients[c])
  {
  }

  lemma PushLoadHasNoBlob(w: World, c: nat, cl: Client, expected: int, v: World)
    requires c in w.clients && w.clients[c] == cl && NextPushLoad(w, c, cl, expected) == Some(v)
               && PendingAvailable(w.store, cl)
    ensures w.store.live <= v.store.live && PendingAvailable(v.store, v.clients[c])
  {
  }

  lemma OrphanShape(w: World, c: nat, cl: Client, v: World)
    requires c in w.clients && w.clients[c] == cl && NextDeleteOrphan(w, c, cl) == Some(v)
    ensures cl.op.Capturing? && cl.op.orphan.Some? && Owned(cl) == cl.op.orphan
    ensures v.store == DeleteBlobs(w.store, {cl.op.orphan.value}) && c in v.clients && v.clients[c].op.Capturing?
  {
  }

  lemma PendingIsOwned(s: Store, cl: Client)
    requires ClientInv(s, cl) && MayLand(s, cl)
    ensures Owned(cl) == Some(Uploaded(cl)) || Uploaded(cl) == InitKey
  {
  }

  lemma OrphanIsNotPending(w: World, c: nat, d: nat)
    requires OwnedInv(w) && ClientsInv(w) && c in w.clients && d in w.clients && d != c
    requires Owned(w.clients[c]).Some? && MayLand(w.store, w.clients[d])
    ensures Uploaded(w.clients[d]) != Owned(w.clients[c]).value
  {
    assert ClientInv(w.store, w.clients[d]) && OwnedOk(w.store, w.clients[c]);
    PendingIsOwned(w.store, w.clients[d]);
  }

  lemma OrphanSpares(w: World, c: nat, cl: Client, v: World)
    requires OwnedInv(w) && ClientsInv(w) && Available(w) && Framed(w, v, c)
    requires c in w.clients && w.clients[c] == cl && NextDeleteOrphan(w, c, cl) == Some(v)
    ensures Available(v)
  {
    OrphanShape(w, c, cl, v);
    assert OwnedOk(w.store, cl);
    forall d | d in v.clients ensures PendingAvailable(v.store, v.clients[d]) {
      assert PendingAvailable(w.store, w.clients[d]);
      if d != c && MayLand(w.store, w.clients[d]) {
        OrphanIsNotPending(w, c, d);
      }
    }
    if w.store.hist != [] {
      assert !Mentions(w.store.hist[|w.store.hist| - 1], cl.op.orphan.value);
    }
  }

  /** Every safe action that does not sweep across a swap keeps what is needed available. */
  lemma StepKeepsAvailable(w: World, a: Action, v: World)
    requires Inv(w) && Available(w) && Next(w, a) == Some(v) && Inv(v) && Undisturbed(w, a)
    ensures Available(v)
  {
    NextIsFramed(w, a, v);
    var cl := w.clients[a.c];
    assert PendingAvailable(w.store, cl);
    if a.Cas? {
      CasStore(w, a.c, cl, a.reply, v);
      CasKeepsAvailable(w, a.c, cl, a.reply, v);
    } else if a.GcEpoch? {
      GcEpochSpares(w, a.c, cl, a.epoch, v);
    } else if a.GcSnapshot? {
      GcSnapshotSpares(w, a.c, cl, a.key, v);
    } else if a.DeleteOrphan? {
      OrphanSpares(w, a.c, cl, v);
    } else {
      QuietActionAvailable(w, a, v);
    }
  }

  lemma QuietActionAvailable(w: World, a: Action, v: World)
    requires Available(w) && Next(w, a) == Some(v) && Quiet(w, v, a.c) && !a.Cas? && !Deletes(a)
    ensures Available(v)
  {
    var cl := w.clients[a.c];
    assert PendingAvailable(w.store, cl);
    if a.Capture? || a.CompactUpload? || a.RunUp? || a.PushUpload? || a.BootUpload? {
      UploadsAreLive(w, a, v);
    } else if a.Reload? || a.RebaseEntry? || a.RebaseDone? {
      RebaseKeepsBlob(w, a, v);
    } else if a.Sync? {
      SyncHasNoBlob(w, a.c, cl, a.outcome, v);
    } else if a.PushLoad? {
      PushLoadHasNoBlob(w, a.c, cl, a.expected, v);
    } else {
      OthersHaveNoBlob(w, a, v);
    }
    QuietKeepsAvailable(w, v, a.c);
  }

  // ---------------------------------------------------------------- runs

  ghost predicate UndisturbedRun(w: World, acts: seq<Action>)
    decreases |acts|
  {
    acts != [] ==>
          Undisturbed(w, acts[0]) && (Next(w, acts[0]).Some? ==> UndisturbedRun(Next(w, acts[0]).value, acts[1..]))
  }

  lemma {:induction false} RunKeepsAvailable(w: World, acts: seq<Action>, v: World)
    requires Inv(w) && Available(w) && Run(w, acts) == Some(v) && SafeRun(w, acts) && UndisturbedRun(w, acts)
    ensures Inv(v) && Available(v)
    decreases |acts|
  {
    if acts != [] {
      var x := Next(w, acts[0]).value;
      StepIsGoodIffSafe(w, acts[0], x);
      StepKeepsAvailable(w, acts[0], x);
      RunKeepsAvailable(x, acts[1..], v);
    }
  }

  /** GC safety.  In every run whose sweeps overlap only Update and View calls, every blob named by
      the stored manifest is present, in every state; so no sweep ever deleted a blob that the then
      current or any later manifest names. */
  lemma GcIsSafe(w: World, acts: seq<Action>, v: World)
    requires Initial(w) && Run(w, acts) == Some(v) && SafeRun(w, acts) && UndisturbedRun(w, acts)
    ensures v.store.hist != [] ==> forall k :: Mentions(v.store.hist[|v.store.hist| - 1], k) ==> k in v.store.live
  {
    InitialIsGood(w);
    forall c | c in w.clients ensures PendingAvailable(w.store, w.clients[c]) {
      assert InitialClient(w.clients[c]);
    }
    RunKeepsAvailable(w, acts, v);
  }

  // ---------------------------------------------------------------- sweeping beside Updates and Views

  /** An action that an Update or a View may take; it neither uploads a snapshot nor sweeps. */
  predicate UpdatesOrViews(a: Action) {
    !(a.CompactUpload? || a.RunUp? || a.PushUpload? || a.BootUpload? || a.GcEpoch? || a.GcSnapshot?)
  }

  predicate SweepsBy(a: Action, id: nat) {
    a.c == id && (a.GcEpoch? || a.GcSnapshot?)
  }

  /** The stored manifest is in the epoch `e`, and nobody is about to swap its snapshot. */
  ghost predicate Calm(w: World, e: Key) {
    && w.store.hist != [] && Epoch(w.store.hist[|w.store.hist| - 1]) == e
    && forall c :: c in w.clients ==> !SwapInFlight(w.clients[c].op)
  }

  lemma NoNewSwapLoading(w: World, a: Action, v: World)
    requires Next(w, a) == Some(v) && (a.Load? || a.StartMigrations? || a.MigrationLoad? || a.PushLoad?)
    requires !SwapInFlight(w.clients[a.c].op)
    ensures a.c in v.clients && !SwapInFlight(v.clients[a.c].op)
  {
  }

  lemma NoNewSwapSyncing(w: World, c: nat, cl: Client, outcome: SyncOutcome, v: World)
    requires c in w.clients && w.clients[c] == cl && NextSync(w, c, cl, outcome) == Some(v)
    ensures c in v.clients && !SwapInFlight(v.clients[c].op)
  {
  }

  lemma NoNewSwapUpdating(w: World, a: Action, v: World)
    requires Next(w, a) == Some(v)
    requires a.Capture? || a.DeleteOrphan? || a.Reload? || a.RebaseEntry? || a.RebaseDone? || a.GcEpoch?
               || a.GcSnapshot?
    requires !SwapInFlight(w.clients[a.c].op)
    ensures a.c in v.clients && !SwapInFlight(v.clients[a.c].op)
  {
  }

  lemma NoNewSwapAborting(w: World, a: Action, v: World)
    requires Next(w, a) == Some(v) && a.Abort?
    ensures a.c in v.clients && !SwapInFlight(v.clients[a.c].op)
  {
  }

  lemma NoNewSwap(w: World, a: Action, v: World)
    requires Next(w, a) == Some(v) && (UpdatesOrViews(a) || a.GcEpoch? || a.GcSnapshot?) && !a.Cas?
    requires !SwapInFlight(w.clients[a.c].op)
    ensures a.c in v.clients && !SwapInFlight(v.clients[a.c].op)
  {
    if a.Sync? {
      NoNewSwapSyncing(w, a.c, w.clients[a.c], a.outcome, v);
    } else if a.Load? || a.StartMigrations? || a.MigrationLoad? || a.PushLoad? {
      NoNewSwapLoading(w, a, v);
    } else if a.Abort? {
      NoNewSwapAborting(w, a, v);
    } else {
      NoNewSwapUpdating(w, a, v);
    }
  }

  lemma CommitKeepsEpoch(s: Store, cl: Client, u: Upd)
    requires HasLoaded(s, cl.m, cl.etag, cl.mAt) && Meets(s, PutCondition(cl.etag, false))
    ensures Epoch(Stamped(CommitManifest(cl, u))) == Epoch(s.hist[|s.hist| - 1])
  {
  }

  lemma CalmCas(w: World, c: nat, cl: Client, r: Reply, v: World, e: Key)
    requires Calm(w, e) && c in w.clients && w.clients[c] == cl && NextCas(w, c, cl, r) == Some(v)
    requires cl.op.CasReady? ==> HasLoaded(w.store, cl.m, cl.etag, cl.mAt)
    ensures v.store.hist != [] && Epoch(v.store.hist[|v.store.hist| - 1]) == e
    ensures c in v.clients && !SwapInFlight(v.clients[c].op)
  {
    CasStore(w, c, cl, r, v);
    if Lands(w.store, CasManifest(w.store, cl), CasCondition(cl), r) {
      CommitKeepsEpoch(w.store, cl, cl.op.u);
    }
  }

  ghost predicate Loads(w: World, c: nat)
    requires c in w.clients
  {
    HasLoaded(w.store, w.clients[c].m, w.clients[c].etag, w.clients[c].mAt)
  }

  lemma CalmStep(w: World, a: Action, v: World, e: Key)
    requires Next(w, a) == Some(v) && Framed(w, v, a.c) && Calm(w, e)
    requires UpdatesOrViews(a) || a.GcEpoch? || a.GcSnapshot?
    requires if a.Cas? then w.clients[a.c].op.CasReady? ==> Loads(w, a.c) else v.store.hist == w.store.hist
    ensures Calm(v, e)
  {
    if a.Cas? {
      CalmCas(w, a.c, w.clients[a.c], a.reply, v, e);
    } else {
      NoNewSwap(w, a, v);
    }
  }

  lemma ReadyHasLoaded(w: World, c: nat)
    requires Inv(w) && c in w.clients
    ensures w.clients[c].op.CasReady? ==> Loads(w, c)
  {
    assert ClientInv(w.store, w.clients[c]);
  }

  /** May client `id`, while it sweeps, see this action? */
  predicate Beside(a: Action, id: nat) {
    SweepsBy(a, id) || (a.c != id && UpdatesOrViews(a))
  }

  lemma CalmSafeStep(w: World, a: Action, v: World, e: Key)
    requires Inv(w) && Next(w, a) == Some(v) && Safe(w, a) && Calm(w, e)
    requires UpdatesOrViews(a) || a.GcEpoch? || a.GcSnapshot?
    ensures Inv(v) && Calm(v, e)
  {
    StepIsGoodIffSafe(w, a, v);
    NextIsFramed(w, a, v);
    ReadyHasLoaded(w, a.c);
    CalmStep(w, a, v, e);
  }

  lemma TailOf(acts: seq<Action>)
    requires acts != []
    ensures forall i :: 0 <= i < |acts[1..]| ==> acts[1..][i] == acts[i + 1]
  {
  }

  /** Updates and Views alone disturb no sweep and keep the world calm. */
  lemma {:induction false} CalmRun(w: World, acts: seq<Action>, v: World, e: Key)
    requires Inv(w) && Run(w, acts) == Some(v) && SafeRun(w, acts) && Calm(w, e)
    requires forall i :: 0 <= i < |acts| ==> UpdatesOrViews(acts[i])
    ensures UndisturbedRun(w, acts) && Calm(v, e)
    decreases |acts|
  {
    if acts != [] {
      var x := Next(w, acts[0]).value;
      CalmSafeStep(w, acts[0], x, e);
      TailOf(acts);
      CalmRun(x, acts[1..], v, e);
    }
  }

  lemma SweepGoesOn(w: World, a: Action, v: World, id: nat, m: Manifest)
    requires Next(w, a) == Some(v) && id in w.clients && w.clients[id].op == Sweeping(m) && Beside(a, id)
    ensures id in v.clients && v.clients[id].op == Sweeping(m)
  {
    NextIsFramed(w, a, v);
  }

  lemma CalmIsUndisturbed(w: World, a: Action, id: nat, m: Manifest)
    requires Calm(w, Epoch(m)) && id in w.clients && w.clients[id].op == Sweeping(m) && Beside(a, id)
    ensures Undisturbed(w, a)
  {
  }

  /** A sweep by `m`, with only Updates and Views beside it. */
  lemma {:induction false} CalmSweep(w: World, acts: seq<Action>, v: World, id: nat, m: Manifest)
    requires Inv(w) && Run(w, acts) == Some(v) && SafeRun(w, acts) && Calm(w, Epoch(m))
    requires id in w.clients && w.clients[id].op == Sweeping(m)
    requires forall i :: 0 <= i < |acts| ==> Beside(acts[i], id)
    ensures UndisturbedRun(w, acts)
    decreases |acts|
  {
    if acts != [] {
      var x := Next(w, acts[0]).value;
      CalmSafeStep(w, acts[0], x, Epoch(m));
      SweepGoesOn(w, acts[0], x, id, m);
      CalmIsUndisturbed(w, acts[0], id, m);
      TailOf(acts);
      CalmSweep(x, acts[1..], v, id, m);
    }
  }

  // ---------------------------------------------------------------- deleted for good

  /** A blob that was written and then deleted.  (The bootstrap snapshot is the one name that is
      written more than once.) */
  ghost predicate Gone(s: Store, k: Key) {
    k in s.content && k !in s.live && k != InitKey
  }

  predicate Uploads(a: Action) {
    a.Capture? || a.CompactUpload? || a.RunUp? || a.PushUpload? || a.BootUpload?
  }

  /** A step adds to the present names only what it writes, under a name never used before or that of
      the bootstrap snapshot. */
  ghost predicate AddsFresh(s: Store, t: Store) {
    forall k :: k in t.live && k !in s.live ==> k in t.content && (k == InitKey || k !in s.content)
  }

  lemma UploadIsFresh(w: World, a: Action, v: World)
    requires Uploads(a) && Next(w, a) == Some(v)
    ensures AddsFresh(w.store, v.store)
  {
  }

  lemma CasAddsNothing(w: World, c: nat, cl: Client, r: Reply, v: World)
    requires c in w.clients && w.clients[c] == cl && NextCas(w, c, cl, r) == Some(v)
    ensures v.store.live == w.store.live
  {
    CasStore(w, c, cl, r, v);
  }

  lemma OthersAddNothing(w: World, a: Action, v: World)
    requires !Uploads(a) && Next(w, a) == Some(v)
    ensures v.store.live <= w.store.live
  {
    if a.Cas? {
      CasAddsNothing(w, a.c, w.clients[a.c], a.reply, v);
    }
  }

  lemma StepAddsFresh(w: World, a: Action, v: World)
    requires Next(w, a) == Some(v)
    ensures AddsFresh(w.store, v.store)
  {
    if Uploads(a) {
      UploadIsFresh(w, a, v);
    } else {
      OthersAddNothing(w, a, v);
    }
  }

  /** Names are write-once, so a deleted blob never comes back, whatever anyone does. */
  lemma {:induction false} GoneForever(w: World, acts: seq<Action>, v: World, k: Key)
    requires Run(w, acts) == Some(v) && Gone(w.store, k)
    ensures Gone(v.store, k)
    decreases |acts|
  {
    if acts != [] {
      var x := Next(w, acts[0]).value;
      NextIsFramed(w, acts[0], x);
      StepAddsFresh(w, acts[0], x);
      GoneForever(x, acts[1..], v, k);
    }
  }

  /** Every present blob was written. */
  lemma {:induction false} LiveIsWritten(w: World, acts: seq<Action>, v: World)
    requires Run(w, acts) == Some(v) && w.store.live <= w.store.content.Keys
    ensures v.store.live <= v.store.content.Keys
    decreases |acts|
  {
    if acts != [] {
      var x := Next(w, acts[0]).value;
      NextIsFramed(w, acts[0], x);
      StepAddsFresh(w, acts[0], x);
      LiveIsWritten(x, acts[1..], v);
    }
  }
}
