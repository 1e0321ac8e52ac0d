/** The operations that swap the snapshot, as the source runs them: `compactLocked`
    and `Push`; and `Pull`, which `Push` is guarded against. */
module Maintenance {
  import opened Basics
  import opened Changesets
  import opened Manifests
  import opened Protocol
  import opened Frames
  import opened Invariant
  import opened Swapping
  import opened Theorems
  import opened Session
  import opened Updates

  /** A UUID: any id never used in a snapshot name. */
  method FreshSnapshotId(content: map<Key, Blob>) returns (n: nat)
    ensures SnapKey(n) !in content
  {
    ghost var b := SomeIdIsUnused(content.Keys);
    assert IdOf(SnapKey(b)) == b;
    n :| SnapKey(n) !in content;
  }

  /** The client's own write is history position `at`, and the connection is at that position. */
  ghost predicate Wrote(w: World, id: nat, at: int, m: Manifest, ev: Event) {
    && id in w.clients && 0 <= at < |w.store.hist| && at < |w.store.events|
    && w.store.hist[at] == m && w.store.events[at] == ev && w.clients[id].connAt == at
  }

  lemma SameLength(w: World, x: World)
    requires Evolves(w, x, true)
    ensures Reachable(w) ==> |x.store.hist| == |x.store.events|
  {
    if Reachable(w) {
      EvolvesGood(w, x);
      ReachableIsInv(x);
    }
  }

  /** A write refused under the ETag of the manifest at `at` finds a later one stored. */
  lemma RefusedMeansLater(s: Store, at: int, m: Manifest)
    requires Holds(s, at, m) && !Meets(s, PutCondition(Md5(m), false))
    ensures at < |s.hist| - 1
  {
  }

  // ---------------------------------------------------------------- compact.go

  datatype CompactOutcome = Compacted | NothingToCompact | CompactConflict | CompactError

  lemma CompactUploadStep(w: World, x: World, id: nat, n: nat, r: Reply, v: World)
    requires Waited(w, x, id) && x.clients[id].op.Compacting? && Next(x, CompactUpload(id, n, r)) == Some(v)
    ensures Ran(w, v, id, true) && v.store.events == x.store.events
    ensures v.clients[id] == x.clients[id].(op := if r.Answered? then CompactReady(SnapKey(n)) else Idle)
  {
    RanStep(w, x, CompactUpload(id, n, r), v, id);
  }

  /** Upload the local file under a fresh name. */
  method UploadSnapshot(st: Db) returns (key: Option<Key>)
    requires st.Agrees() && st.Me().op.Compacting? && st.conn.Some?
    modifies st
    ensures st.Agrees() && Ran(old(st.world), st.world, st.id, true) && st.conn == old(st.conn)
    ensures st.manifest == old(st.manifest) && st.etag == old(st.etag) && st.localSeq == old(st.localSeq)
    ensures st.Me().op == if key.Some? then CompactReady(key.value) else Idle
    ensures SwapsNotBy(old(st.world).store, st.world.store, st.id)
    ensures st.clock > old(st.clock) && (key.None? ==> st.oracle(old(st.clock)).Failed?)
  {
    ghost var w := st.world;
    st.Interfere();
    ghost var x := st.world;
    var n := FreshSnapshotId(st.world.store.content);
    var r := st.Ask();
    st.world := Next(st.world, CompactUpload(st.id, n, r)).value;
    CompactUploadStep(w, x, st.id, n, r, st.world);
    key := if r.Answered? then Some(SnapKey(n)) else None;
  }

  lemma CompactCasStep(w: World, x: World, id: nat, key: Key, r: Reply, v: World)
    requires Waited(w, x, id) && x.clients[id].op == CompactReady(key) && x.clients[id].conn.Some?
    requires Next(x, Cas(id, r)) == Some(v)
    ensures Ran(w, v, id, true)
    ensures var cl := x.clients[id];
            var m := CompactManifest(cl);
            match PutOutcome(x.store, m, PutCondition(cl.etag, false), r)
            case Won =>
              && (|x.store.hist| == |x.store.events| ==> Wrote(v, id, |x.store.hist|, Stamped(m), Event.Compacted(id)))
              && v.clients[id] == cl.(m := Stamped(m), etag := Md5(Stamped(m)), mAt := |x.store.hist|,
                                      snapshotKey := key, connAt := |x.store.hist|, op := Idle)
            case Refused => v.clients[id] == cl.(op := Idle) && v.store == x.store
                            && !Meets(v.store, PutCondition(cl.etag, false))
            case Unknown => v.clients[id] == cl.(op := Idle)
  {
    RanStep(w, x, Cas(id, r), v, id);
  }

  /** In a reachable world the manifest of a compaction is valid. */
  lemma CompactIsValid(w: World, x: World, id: nat, key: Key)
    requires Reachable(w) && Waited(w, x, id) && x.clients[id].op == CompactReady(key) && x.clients[id].conn.Some?
    ensures ValidManifest(Stamped(CompactManifest(x.clients[id])))
  {
    EvolvesGood(w, x);
    ReachableIsInv(x);
    assert ClientInv(x.store, x.clients[id]);
    assert ValidManifest(x.store.hist[x.clients[id].mAt]);
  }

  /** CAS in the new snapshot: Seq and schema version as before, empty log. */
  method SwapSnapshot(st: Db, key: Key, ghost pos: int) returns (res: PutResult, ghost at: int)
    requires st.Agrees() && st.Me().op == CompactReady(key) && st.conn.Some?
    requires Holds(st.world.store, pos, st.manifest) && st.etag == Md5(st.manifest)
    modifies st
    ensures st.Agrees() && Ran(old(st.world), st.world, st.id, true) && st.Me().op.Idle? && st.conn == old(st.conn)
    ensures st.clock > old(st.clock)
    ensures res.Won? ==> st.manifest == Stamped(WithSnapshot(old(st.manifest),
              BlobRef(key, old(st.manifest).seqNo, |st.conn.value|)))
    ensures res.Won? && Reachable(old(st.world)) ==>
              Wrote(st.world, st.id, at, st.manifest, Event.Compacted(st.id)) && |old(st.world).store.hist| <= at
    ensures res.Refused? ==>
              SwapsNotBy(old(st.world).store, st.world.store, st.id) && pos < |st.world.store.hist| - 1
    ensures res.Unknown? && Reachable(old(st.world)) ==> st.oracle(old(st.clock)).Failed?
  {
    ghost var w := st.world;
    st.Interfere();
    ghost var x := st.world;
    SameLength(w, x);
    at := |x.store.hist|;
    if Reachable(w) {
      CompactIsValid(w, x, st.id, key);
    }
    ghost var m := st.manifest;
    var r := st.Ask();
    res := SwapNow(st, w, key, r);
    if res.Refused? {
      RefusedMeansLater(st.world.store, pos, m);
    }
  }

  /** The store's answer to the compaction's write. */
  method SwapNow(st: Db, ghost w: World, key: Key, r: Reply) returns (res: PutResult)
    requires st.Agrees() && Waited(w, st.world, st.id) && st.Me().op == CompactReady(key) && st.conn.Some?
    modifies st
    ensures st.Agrees() && Ran(w, st.world, st.id, true) && st.Me().op.Idle? && st.conn == old(st.conn)
    ensures st.clock == old(st.clock)
    ensures res.Won? ==> st.manifest == Stamped(WithSnapshot(old(st.manifest),
              BlobRef(key, old(st.manifest).seqNo, |st.conn.value|)))
    ensures var n := |old(st.world).store.hist|; res.Won? && n == |old(st.world).store.events| ==>
              Wrote(st.world, st.id, n, st.manifest, Event.Compacted(st.id))
    ensures res == PutOutcome(old(st.world).store, CompactManifest(old(st.Me())), PutCondition(old(st.etag), false), r)
    ensures res.Refused? ==> st.world.store == old(st.world).store
  {
    ghost var x := st.world;
    var m := WithSnapshot(st.manifest, SnapRef(key, st.manifest.seqNo, st.conn.value));
    assert m == CompactManifest(st.Me());
    res := PutOutcome(st.world.store, m, PutCondition(st.etag, false), r);
    st.world := Next(st.world, Cas(st.id, r)).value;
    CompactCasStep(w, x, st.id, key, r, st.world);
    if res.Won? {
      st.manifest, st.etag, st.snapshotKey := Stamped(m), Md5(Stamped(m)), key;
    }
  }

  lemma AbortIdles(w: World, id: nat, v: World)
    requires id in w.clients && w.clients[id].op.Compacting? && Next(w, Abort(id, Error)) == Some(v)
    ensures Ran(w, v, id, true) && v.clients[id] == w.clients[id].(op := Idle)
  {
    WaitedRefl(w, id);
    RanStep(w, w, Abort(id, Error), v, id);
  }

  /** One round on the manifest at position `pos`: VACUUM (which may fail), upload, CAS. */
  method CompactOnce(st: Db, ghost pos: int) returns (res: PutResult, ghost at: int)
    requires st.Agrees() && st.Me().op.Compacting? && st.conn.Some?
    requires Holds(st.world.store, pos, st.manifest) && st.etag == Md5(st.manifest)
    modifies st
    ensures st.Agrees() && Ran(old(st.world), st.world, st.id, true) && st.Me().op.Idle? && st.conn == old(st.conn)
    ensures st.clock >= old(st.clock)
    ensures res.Won? ==> st.manifest.log == []
    ensures res.Won? && Reachable(old(st.world)) ==>
              Wrote(st.world, st.id, at, st.manifest, Event.Compacted(st.id)) && |old(st.world).store.hist| <= at
    ensures res.Refused? ==>
              SwapsNotBy(old(st.world).store, st.world.store, st.id) && pos < |st.world.store.hist| - 1
    ensures res.Unknown? && Reachable(old(st.world)) ==> Fault(st.oracle, old(st.Now()), st.Now())
  {
    ghost var w, start := st.world, st.Now();
    var vacuum := st.Ask();
    if vacuum.Failed? {
      st.world := Next(st.world, Abort(st.id, Error)).value;
      AbortIdles(w, st.id, st.world);
      FaultAt(st.oracle, start, st.Now(), start.clock);
      return Unknown, 0;
    }
    ghost var c1 := st.clock;
    var key := UploadSnapshot(st);
    if key.None? {
      FaultAt(st.oracle, start, st.Now(), c1);
      return Unknown, 0;
    }
    ghost var x, c2 := st.world, st.clock;
    BeforeSwap(w, x, st.id, pos, st.manifest);
    res, at := SwapSnapshot(st, key.value, pos);
    AfterSwap(w, x, st.world, st.id, res);
    if res.Unknown? && Reachable(w) {
      FaultAt(st.oracle, start, st.Now(), c2);
    }
  }

  lemma BeforeSwap(w: World, x: World, id: nat, pos: int, m: Manifest)
    requires Ran(w, x, id, true) && Holds(w.store, pos, m)
    ensures Holds(x.store, pos, m) && |w.store.hist| <= |x.store.hist| && (Reachable(w) ==> Reachable(x))
  {
    HoldsOn(w, x, id, true, pos, m);
    if Reachable(w) {
      EvolvesGood(w, x);
    }
  }

  lemma AfterSwap(w: World, x: World, v: World, id: nat, res: PutResult)
    requires Ran(w, x, id, true) && Ran(x, v, id, true) && SwapsNotBy(w.store, x.store, id)
    requires res.Refused? ==> SwapsNotBy(x.store, v.store, id)
    ensures Ran(w, v, id, true) && (res.Refused? ==> SwapsNotBy(w.store, v.store, id))
  {
    RanTrans(w, x, v, id, true, true);
    RanExtends(x, v, id, true);
    if res.Refused? {
      SwapsNotByTrans(w.store, x.store, v.store, id);
    }
  }

  /** The stutter: position `at` holds the client's manifest, which replays to the local database
      and to the state right before it, at the same Seq and schema version. */
  ghost predicate Stutters(s: Store, conn: Option<Database>, m: Manifest, at: int) {
    && 0 < at < |s.hist| && s.hist[at] == m && m.log == []
    && conn == StateAt(s, at) == StateAt(s, at - 1)
    && m.seqNo == s.hist[at - 1].seqNo && m.schema == s.hist[at - 1].schema
  }

  lemma CompactionMeans(w: World, id: nat, at: int, m: Manifest)
    requires Reachable(w) && Wrote(w, id, at, m, Event.Compacted(id)) && m.log == []
    requires w.clients[id].op.Idle? && w.clients[id].conn.Some?
    ensures Stutters(w.store, w.clients[id].conn, m, at)
  {
    ReachableIsInv(w);
    assert ClientInv(w.store, w.clients[id]);
    assert EventOk(w.store, at);
    assert Linked(w.store.hist, at);
  }

  /** Nothing to compact: the manifest at `at`, current during the call that began with the store `s`,
      has an empty log. */
  ghost predicate NothingThere(s: Store, t: Store, at: int, m: Manifest) {
    |s.hist| - 1 <= at && Holds(t, at, m) && m.log == []
  }

  /** The call that began with the store `s` wrote no manifest, and lost `rounds` races. */
  ghost predicate LostRaces(s: Store, t: Store, id: nat, rounds: nat) {
    SwapsNotBy(s, t, id) && |s.hist| + rounds <= |t.hist|
  }

  lemma LostAnother(s: Store, x: Store, v: Store, id: nat, rounds: nat)
    requires LostRaces(s, x, id, rounds) && SwapsNotBy(x, v, id) && Extends(x, v) && |x.hist| < |v.hist|
    ensures LostRaces(s, v, id, rounds + 1)
  {
    SwapsNotByTrans(s, x, v, id);
  }

  /** One iteration: refresh, and if there is something to compact, try once. */
  method CompactRound(st: Db) returns (outcome: Option<CompactOutcome>, ghost at: int)
    requires st.Agrees() && st.Me().op.Idle?
    modifies st
    ensures st.Agrees() && st.Me().op.Idle? && Ran(old(st.world), st.world, st.id, true) && st.clock >= old(st.clock)
    ensures outcome.None? ==> LostRaces(old(st.world).store, st.world.store, st.id, 1)
    ensures outcome.Some? ==> !outcome.value.CompactConflict?
    ensures outcome == Some(NothingToCompact) ==>
              && NothingThere(old(st.world).store, st.world.store, at, st.manifest)
              && SwapsNotBy(old(st.world).store, st.world.store, st.id)
              && (Reachable(old(st.world)) ==> st.conn == StateAt(st.world.store, at))
    ensures Reachable(old(st.world)) && outcome == Some(CompactOutcome.Compacted) ==>
              && Wrote(st.world, st.id, at, st.manifest, Event.Compacted(st.id)) && |old(st.world).store.hist| <= at
              && Stutters(st.world.store, st.conn, st.manifest, at)
    ensures Reachable(old(st.world)) && outcome == Some(CompactError) ==>
              CannotRefresh(st.oracle, old(st.Now()), st.Now(), old(st.Me()).schemaVer)
  {
    ghost var start := st.Now();
    var ok;
    ok, at := st.RefreshManifest(ForCompact);
    if !ok || st.manifest.log == [] {
      return Some(if ok then NothingToCompact else CompactError), at;
    }
    ghost var here := st.Now();
    if Reachable(start.world) {
      EvolvesGood(start.world, here.world);
    }
    RanExtends(start.world, here.world, st.id, true);
    var res;
    ghost var pos := at;
    res, at := CompactOnce(st, pos);
    RanTrans(start.world, here.world, st.world, st.id, true, true);
    RanExtends(here.world, st.world, st.id, true);
    match res
    case Won =>
      if Reachable(start.world) {
        EvolvesGood(start.world, st.world);
        CompactionMeans(st.world, st.id, at, st.manifest);
      }
      outcome := Some(CompactOutcome.Compacted);
    case Unknown =>
      outcome := Some(CompactError);
      if Reachable(start.world) {
        FaultGrows(st.oracle, start, here, st.Now(), st.Now());
      }
    case Refused =>
      SwapsNotByTrans(start.world.store, here.world.store, st.world.store, st.id);
      outcome := None;
  }

  /** `compactLocked`.  For any number of lost rounds and every interleaving the run is safe, and in a
      good world a compaction that reports success was a stutter step of this client.  There is nothing
      to compact only if the log of a manifest that was stored during the call is empty; a conflict
      means that this client swapped nothing and lost every round it was allowed; and an error has a
      reason. */
  method CompactLocked(st: Db) returns (outcome: CompactOutcome, ghost at: int)
    requires st.Agrees() && st.Me().op.Idle?
    modifies st
    ensures st.Agrees() && st.Me().op.Idle? && Ran(old(st.world), st.world, st.id, true)
    ensures Reachable(old(st.world)) && outcome.Compacted? ==>
              && Wrote(st.world, st.id, at, st.manifest, Event.Compacted(st.id)) && |old(st.world).store.hist| <= at
              && Stutters(st.world.store, st.conn, st.manifest, at)
    ensures outcome.NothingToCompact? ==>
              && NothingThere(old(st.world).store, st.world.store, at, st.manifest)
              && SwapsNotBy(old(st.world).store, st.world.store, st.id)
              && (Reachable(old(st.world)) ==> st.conn == StateAt(st.world.store, at))
    ensures outcome.CompactConflict? ==> LostRaces(old(st.world).store, st.world.store, st.id, st.maxRetries)
    ensures Reachable(old(st.world)) && outcome.CompactError? ==>
              CannotRefresh(st.oracle, old(st.Now()), st.Now(), old(st.Me()).schemaVer)
  {
    ghost var start, schemaVer := st.Now(), st.Me().schemaVer;
    RanRefl(st.world, st.id);
    at := 0;
    for attempt := 0 to st.maxRetries
      invariant st.Agrees() && st.Me().op.Idle? && Ran(start.world, st.world, st.id, true) && start.clock <= st.clock
      invariant schemaVer == st.Me().schemaVer
      invariant LostRaces(start.world.store, st.world.store, st.id, attempt)
    {
      ghost var here := st.Now();
      if Reachable(start.world) {
        EvolvesGood(start.world, here.world);
      }
      var done;
      done, at := CompactRound(st);
      RanTrans(start.world, here.world, st.world, st.id, true, true);
      RanExtends(here.world, st.world, st.id, true);
      if done.Some? {
        if done.value.NothingToCompact? {
          SwapsNotByTrans(start.world.store, here.world.store, st.world.store, st.id);
        }
        if done.value.CompactError? && Reachable(start.world) {
          RanExtends(start.world, here.world, st.id, true);
          CannotRefreshSince(st.oracle, start, here, st.Now(), schemaVer);
        }
        return done.value, at;
      }
      LostAnother(start.world.store, here.world.store, st.world.store, st.id, attempt);
    }
    outcome := CompactConflict;
  }

  // ---------------------------------------------------------------- pullpush.go

  datatype PushOutcome = PushDone | PushStale | PushError

  lemma PushLoadStep(w: World, x: World, id: nat, expected: int, v: World)
    requires Waited(w, x, id) && x.store.hist != [] && x.clients[id].op.Idle?
               && Next(x, PushLoad(id, expected)) == Some(v)
    ensures Ran(w, v, id, true) && v.store == x.store
    ensures var n := |x.store.hist| - 1;
            var m := x.store.hist[n];
            v.clients[id] == if expected >= 0 && m.seqNo != expected then x.clients[id]
                             else x.clients[id].(op := Pushing(m, Md5(m), n, expected))
  {
    RanStep(w, x, PushLoad(id, expected), v, id);
  }

  /** Some manifest that was stored since `s` is at another Seq than the caller expects. */
  ghost predicate OtherSeq(s: Store, t: Store, expected: int) {
    expected >= 0 && exists i :: |s.hist| - 1 <= i < |t.hist| && 0 <= i && t.hist[i].seqNo != expected
  }

  /** Load the manifest and check its Seq against the one Pull returned. */
  method PushStart(st: Db, expected: int) returns (res: Option<Manifest>, outcome: PushOutcome, ghost pos: int)
    requires st.Agrees() && st.Me().op.Idle?
    modifies st
    ensures st.Agrees() && Ran(old(st.world), st.world, st.id, true) && st.clock > old(st.clock)
    ensures SwapsNotBy(old(st.world).store, st.world.store, st.id)
    ensures res.None? ==> st.Me().op.Idle? && !outcome.PushDone?
    ensures res.None? && outcome.PushStale? ==> OtherSeq(old(st.world).store, st.world.store, expected)
    ensures res.None? && outcome.PushError? ==> st.oracle(old(st.clock)).Failed? || old(st.world).store.hist == []
    ensures res.Some? ==> (expected >= 0 ==> res.value.seqNo == expected) && st.Me().op.Pushing?
    ensures res.Some? ==> var op := st.Me().op; op == Pushing(res.value, Md5(res.value), op.pAt, expected)
    ensures res.Some? ==> |old(st.world).store.hist| - 1 <= pos && Holds(st.world.store, pos, res.value)
  {
    ghost var w := st.world;
    st.Interfere();
    ghost var x := st.world;
    pos := |x.store.hist| - 1;
    var r := st.Ask();
    if r.Failed? || st.world.store.hist == [] {
      return None, PushError, pos;
    }
    var m := st.world.store.hist[|st.world.store.hist| - 1];
    st.world := Next(st.world, PushLoad(st.id, expected)).value;
    PushLoadStep(w, x, st.id, expected, st.world);
    if expected >= 0 && m.seqNo != expected {
      return None, PushStale, pos;
    }
    return Some(m), PushError, pos;
  }

  lemma PushUploadStep(w: World, x: World, id: nat, file: Database, n: nat, r: Reply, v: World)
    requires Waited(w, x, id) && x.clients[id].op.Pushing? && Next(x, PushUpload(id, file, n, r)) == Some(v)
    ensures Ran(w, v, id, true) && v.store.events == x.store.events
    ensures r.Answered? ==> SnapKey(n) in v.store.content && v.store.content[SnapKey(n)] == SnapBlob(file)
    ensures var op := x.clients[id].op;
            v.clients[id] == x.clients[id].(op := if r.Answered?
                then PushReady(op.pm, op.petag, op.pAt, op.expected, SnapKey(n)) else Idle)
  {
    RanStep(w, x, PushUpload(id, file, n, r), v, id);
  }

  method PushFile(st: Db, file: Database) returns (key: Option<Key>)
    requires st.Agrees() && st.Me().op.Pushing?
    modifies st
    ensures st.Agrees() && Ran(old(st.world), st.world, st.id, true)
    ensures key.None? ==> st.Me().op.Idle?
    ensures var op := old(st.Me()).op;
            key.Some? ==> st.Me().op == PushReady(op.pm, op.petag, op.pAt, op.expected, key.value)
                          && key.value in st.world.store.content && st.world.store.content[key.value] == SnapBlob(file)
    ensures SwapsNotBy(old(st.world).store, st.world.store, st.id)
    ensures st.clock > old(st.clock) && (key.None? ==> st.oracle(old(st.clock)).Failed?)
  {
    ghost var w := st.world;
    st.Interfere();
    ghost var x := st.world;
    var n := FreshSnapshotId(st.world.store.content);
    var r := st.Ask();
    st.world := Next(st.world, PushUpload(st.id, file, n, r)).value;
    PushUploadStep(w, x, st.id, file, n, r, st.world);
    key := if r.Answered? then Some(SnapKey(n)) else None;
  }

  /** Position `at` is the push of `file`, directly on the manifest `m` that the push loaded. */
  ghost predicate PushedOnto(s: Store, at: int, m: Manifest, file: Database, expected: int, id: nat) {
    0 < at < |s.hist| && at < |s.events| && s.events[at] == Pushed(file, expected, id) && s.hist[at - 1] == m
  }

  lemma PushCasStep(w: World, x: World, id: nat, m: Manifest, file: Database, r: Reply, v: World)
    requires Waited(w, x, id) && x.clients[id].op.PushReady? && Next(x, Cas(id, r)) == Some(v)
    requires x.clients[id].op.pm == m && x.clients[id].op.petag == Md5(m)
    requires x.clients[id].op.key in x.store.content && x.store.content[x.clients[id].op.key] == SnapBlob(file)
    ensures Ran(w, v, id, true) && v.clients[id] == x.clients[id].(op := Idle)
    ensures match PutOutcome(x.store, PushManifest(x.clients[id], file), PutCondition(Md5(m), false), r)
            case Won => |x.store.hist| == |x.store.events| ==>
              PushedOnto(v.store, |x.store.hist|, m, file, x.clients[id].op.expected, id)
            case Refused => v.store == x.store && !Meets(v.store, PutCondition(Md5(m), false))
            case Unknown => true
  {
    RanStep(w, x, Cas(id, r), v, id);
  }

  /** In a reachable world the manifest of a push is valid. */
  lemma PushIsValid(w: World, x: World, id: nat, file: Database)
    requires Reachable(w) && Waited(w, x, id) && x.clients[id].op.PushReady?
    ensures ValidManifest(Stamped(PushManifest(x.clients[id], file)))
  {
    EvolvesGood(w, x);
    ReachableIsInv(x);
    assert ClientInv(x.store, x.clients[id]);
    assert ValidManifest(x.store.hist[x.clients[id].op.pAt]);
  }

  /** CAS the pushed snapshot in: Seq and schema version as loaded, empty log. */
  method CasPush(st: Db, m: Manifest, file: Database, key: Key, expected: int, ghost pos: int)
      returns (res: PutResult, ghost at: int)
    requires Holds(st.world.store, pos, m)
    requires st.Agrees() && st.Me().op.PushReady? && key in st.world.store.content
               && st.world.store.content[key] == SnapBlob(file)
    requires var op := st.Me().op; op == PushReady(m, Md5(m), op.pAt, expected, key)
    modifies st
    ensures st.Agrees() && Ran(old(st.world), st.world, st.id, true) && st.Me().op.Idle? && st.clock > old(st.clock)
    ensures Reachable(old(st.world)) && res.Won? ==>
              PushedOnto(st.world.store, at, m, file, expected, st.id) && |old(st.world).store.hist| <= at
    ensures res.Refused? ==>
              SwapsNotBy(old(st.world).store, st.world.store, st.id) && pos < |st.world.store.hist| - 1
    ensures res.Unknown? && Reachable(old(st.world)) ==> st.oracle(old(st.clock)).Failed?
  {
    ghost var w := st.world;
    st.Interfere();
    ghost var x := st.world;
    SameLength(w, x);
    at := |x.store.hist|;
    if Reachable(w) {
      PushIsValid(w, x, st.id, file);
    }
    var r := st.Ask();
    res := CasPushNow(st, w, m, file, key, expected, r);
    if res.Refused? {
      RefusedMeansLater(st.world.store, pos, m);
    }
  }

  /** The store's answer to the push's write. */
  method CasPushNow(st: Db, ghost w: World, m: Manifest, file: Database, key: Key, expected: int, r: Reply)
      returns (res: PutResult)
    requires st.Agrees() && Waited(w, st.world, st.id) && key in st.world.store.content
               && st.world.store.content[key] == SnapBlob(file)
    requires var op := st.Me().op; op.PushReady? && op == PushReady(m, Md5(m), op.pAt, expected, key)
    modifies st`world
    ensures st.Agrees() && Ran(w, st.world, st.id, true) && st.Me().op.Idle?
    ensures var n := |old(st.world).store.hist|; res.Won? && n == |old(st.world).store.events| ==>
              PushedOnto(st.world.store, n, m, file, expected, st.id)
    ensures res.Refused? ==>
              st.world.store == old(st.world).store && !Meets(st.world.store, PutCondition(Md5(m), false))
    ensures res.Unknown? ==> r.Failed? || !ValidManifest(Stamped(PushManifest(old(st.Me()), file)))
  {
    ghost var x := st.world;
    var m2 := WithSnapshot(m, SnapRef(key, m.seqNo, file));
    assert m2 == PushManifest(st.Me(), file);
    res := PutOutcome(st.world.store, m2, PutCondition(Md5(m), false), r);
    st.world := Next(st.world, Cas(st.id, r)).value;
    PushCasStep(w, x, st.id, m, file, r, st.world);
  }

  /** The push took effect at `at`: the database is the file, Seq and schema version are untouched,
      and the state it replaced is the one it checked. */
  ghost predicate PushReplaced(s: Store, at: int, file: Database, expected: int) {
    && 0 < at < |s.hist| && StateAt(s, at) == Some(file)
    && s.hist[at].seqNo == s.hist[at - 1].seqNo && s.hist[at].schema == s.hist[at - 1].schema
    && (expected >= 0 ==> s.hist[at - 1].seqNo == expected)
  }

  lemma PushMeans(w: World, v: World, at: int, m: Manifest, file: Database, expected: int, id: nat)
    requires Reachable(w) && Ran(w, v, id, true) && PushedOnto(v.store, at, m, file, expected, id)
    ensures PushReplaced(v.store, at, file, expected)
  {
    EvolvesGood(w, v);
    ReachableIsInv(v);
    assert EventOk(v.store, at);
    assert Linked(v.store.hist, at);
  }

  /** What the answers of a push mean that began with the store `s`: stale, that nothing of it is in
      history and that the caller's Seq is not the one stored, or somebody else wrote a manifest in the
      meantime; an error, that there is no database or the store failed. */
  ghost predicate PushEnds(s: Store, t: Store, id: nat, expected: int, fault: bool, outcome: PushOutcome) {
    && (outcome.PushStale? ==> SwapsNotBy(s, t, id) && (OtherSeq(s, t, expected) || |s.hist| < |t.hist|))
    && (outcome.PushError? ==> s.hist == [] || fault)
  }

  /** The upload and the CAS of a push that has loaded `m` at position `pos`. */
  method PushLoaded(st: Db, file: Database, expected: int, m: Manifest, ghost pos: int)
      returns (outcome: PushOutcome, ghost at: int)
    requires st.Agrees() && Holds(st.world.store, pos, m)
    requires var op := st.Me().op; op.Pushing? && op == Pushing(m, Md5(m), op.pAt, expected)
    modifies st
    ensures st.Agrees() && st.Me().op.Idle? && Ran(old(st.world), st.world, st.id, true) && st.clock >= old(st.clock)
    ensures outcome.PushDone? && Reachable(old(st.world)) ==>
              && PushReplaced(st.world.store, at, file, expected)
              && PushedOnto(st.world.store, at, m, file, expected, st.id) && |old(st.world).store.hist| <= at
    ensures outcome.PushStale? ==>
              SwapsNotBy(old(st.world).store, st.world.store, st.id) && pos < |st.world.store.hist| - 1
    ensures outcome.PushError? && Reachable(old(st.world)) ==> Fault(st.oracle, old(st.Now()), st.Now())
  {
    ghost var w, start := st.world, st.Now();
    var key := PushFile(st, file);
    if key.None? {
      FaultAt(st.oracle, start, st.Now(), start.clock);
      return PushError, 0;
    }
    ghost var x, c1 := st.world, st.clock;
    BeforeSwap(w, x, st.id, pos, m);
    var res;
    res, at := CasPush(st, m, file, key.value, expected, pos);
    AfterSwap(w, x, st.world, st.id, res);
    if Reachable(w) {
      match res
      case Won => PushMeans(w, st.world, at, m, file, expected, st.id);
      case Refused =>
      case Unknown => FaultAt(st.oracle, start, st.Now(), c1);
    }
    outcome := if res.Won? then PushDone else if res.Refused? then PushStale else PushError;
  }

  /** `Push`.  Success in a reachable world means that the pushed file became the database, on the
      very manifest the push loaded and checked: nothing of any kind committed between its load and
      its CAS.  A push that is answered as stale is nowhere in history, and one that is answered with
      an error met one. */
  method Push(st: Db, file: Database, expected: int) returns (outcome: PushOutcome, ghost at: int, m: Option<Manifest>)
    requires st.Agrees() && st.Me().op.Idle?
    modifies st
    ensures st.Agrees() && st.Me().op.Idle? && Ran(old(st.world), st.world, st.id, true)
    ensures outcome.PushDone? && Reachable(old(st.world)) ==>
              && PushReplaced(st.world.store, at, file, expected)
              && m.Some? && PushedOnto(st.world.store, at, m.value, file, expected, st.id)
              && |old(st.world).store.hist| <= at
    ensures Reachable(old(st.world)) || !outcome.PushError? ==>
              PushEnds(old(st.world).store, st.world.store, st.id, expected,
                       Fault(st.oracle, old(st.Now()), st.Now()), outcome)
  {
    ghost var start := st.Now();
    ghost var pos;
    at := 0;
    m, outcome, pos := PushStart(st, expected);
    if m.None? {
      return;
    }
    ghost var here := st.Now();
    RanExtends(start.world, here.world, st.id, true);
    if Reachable(start.world) {
      EvolvesGood(start.world, here.world);
    }
    outcome, at := PushLoaded(st, file, expected, m.value, pos);
    RanTrans(start.world, here.world, st.world, st.id, true, true);
    if outcome.PushStale? {
      RanExtends(here.world, st.world, st.id, true);
      SwapsNotByTrans(start.world.store, here.world.store, st.world.store, st.id);
    }
    if outcome.PushError? && Reachable(start.world) {
      FaultGrows(st.oracle, start, here, st.Now(), st.Now());
    }
  }

  lemma PulledFrom(s: Store, m: Manifest, base: Database, at: int)
    requires StoreInv(s) && Holds(s, at, m) && SnapshotOf(s.content, m) == Some(base)
    ensures ApplyEntries(s.content, base, Need(m.log, m.snapshot.seqNo)).Some?
    ensures ApplyEntries(s.content, base, Need(m.log, m.snapshot.seqNo)) == StateAt(s, at)
  {
    NeedOfValid(m, m.snapshot.seqNo);
    assert m.log[0..] == m.log;
    assert EventOk(s, at);
  }

  /** The snapshot and the log of a stored manifest are the state at its position. */
  lemma PullApplies(w: World, x: World, v: World, m: Manifest, base: Database, at: int)
    requires Reachable(w) && Evolves(w, v, true) && Extends(x.store, v.store)
    requires Holds(v.store, at, m) && SnapshotOf(x.store.content, m) == Some(base)
    ensures ApplyEntries(v.store.content, base, Need(m.log, m.snapshot.seqNo)).Some?
    ensures ApplyEntries(v.store.content, base, Need(m.log, m.snapshot.seqNo)) == StateAt(v.store, at)
  {
    EvolvesGood(w, v);
    ReachableIsInv(v);
    PulledFrom(v.store, m, base, at);
  }

  /** Download the snapshot of `m`, which is at history position `at`, and apply its log. */
  method Materialize(st: Db, ghost start: Moment, m: Manifest, ghost at: int) returns (file: Option<Database>)
    requires st.Agrees() && Waited(start.world, st.world, st.id) && Holds(st.world.store, at, m)
    requires start.clock <= st.clock
    modifies st
    ensures st.Agrees() && Waited(start.world, st.world, st.id) && Holds(st.world.store, at, m)
    ensures start.clock <= st.clock
    ensures Reachable(start.world) && file.Some? ==> file == StateAt(st.world.store, at)
    ensures Reachable(start.world) && file.None? ==> Trouble(st.oracle, start, st.Now(), at)
  {
    ghost var here := st.Now();
    var base := st.GetSnapshot(m, at);
    WaitedTrans(start.world, here.world, st.world, st.id);
    if base.None? {
      if Reachable(start.world) {
        TroubleSince(st.oracle, start, here, st.Now(), at);
      }
      return None;
    }
    ghost var there := st.Now();
    var db, s, ok, k := st.ApplyLog(base.value, m.log, m.snapshot.seqNo, at);
    WaitedTrans(start.world, there.world, st.world, st.id);
    if Reachable(start.world) {
      PullApplies(start.world, there.world, st.world, m, base.value, at);
    }
    if !ok {
      if Reachable(start.world) {
        TroubleSince(st.oracle, start, there, st.Now(), at);
      }
      return None;
    }
    assert Need(m.log, m.snapshot.seqNo)[..k] == Need(m.log, m.snapshot.seqNo);
    return Some(db);
  }

  /** `Pull`: the file is a state that was current at some moment of the call, and the Seq returned
      is the Seq of that state. */
  method Pull(st: Db) returns (file: Option<Database>, seqNo: int, ghost at: int)
    requires st.Agrees()
    modifies st
    ensures st.Agrees() && Waited(old(st.world), st.world, st.id) && st.clock >= old(st.clock)
    ensures Reachable(old(st.world)) && file.Some? ==>
              && 0 <= at < |st.world.store.hist| && |old(st.world).store.hist| - 1 <= at
              && file == StateAt(st.world.store, at) && seqNo == st.world.store.hist[at].seqNo
    ensures Reachable(old(st.world)) && file.None? ==>
              || Trouble(st.oracle, old(st.Now()), st.Now(), |old(st.world).store.hist| - 1)
              || old(st.world).store.hist == []
  {
    ghost var start := st.Now();
    st.Interfere();
    var r := st.Ask();
    if r.Failed? || st.world.store.hist == [] {
      assert start.clock <= start.clock < st.clock;
      return None, 0, 0;
    }
    at := |st.world.store.hist| - 1;
    var m := st.world.store.hist[|st.world.store.hist| - 1];
    seqNo := m.seqNo;
    file := Materialize(st, start, m, at);
    if Reachable(start.world) && file.None? {
      TroubleFrom(st.oracle, start, st.Now(), at, |start.world.store.hist| - 1);
    }
  }

  lemma NothingDiscarded(w: World, p: int, j: int)
    requires Reachable(w) && 0 <= p < j < |w.store.hist| && j < |w.store.events|
    requires w.store.events[j].Pushed? && w.store.events[j].expected == w.store.hist[p].seqNo
    ensures forall k :: p < k < j ==> k < |w.store.events| && !w.store.events[k].Txn?
  {
    var w0 :| Starts(w0, w);
    var acts :| Leads(w0, acts, w, true);
    PushGuard(w0, acts, w, p, j);
  }

  /** Pull, edit, push: a push guarded by the Seq its pull returned discards no changeset that was
      committed after the pulled state. */
  method PullEditPush(st: Db, edit: Database -> Database)
      returns (outcome: PushOutcome, ghost pulled: int, ghost at: int)
    requires st.Agrees() && st.Me().op.Idle? && Reachable(st.world)
    modifies st
    ensures st.Agrees() && st.Me().op.Idle? && Ran(old(st.world), st.world, st.id, true)
    ensures outcome.PushDone? ==>
              && 0 <= pulled < at < |st.world.store.hist| == |st.world.store.events|
              && StateAt(st.world.store, pulled).Some?
              && StateAt(st.world.store, at) == Some(edit(StateAt(st.world.store, pulled).value))
              && forall k :: pulled < k < at ==> !st.world.store.events[k].Txn?
  {
    ghost var w := st.world;
    var file, seqNo;
    file, seqNo, pulled := Pull(st);
    at := 0;
    if file.None? {
      return PushError, pulled, at;
    }
    ghost var x := st.world;
    EvolvesGood(w, x);
    var m;
    outcome, at, m := Push(st, edit(file.value), seqNo);
    RanTrans(w, x, st.world, st.id, true, true);
    if outcome.PushDone? {
      PulledThenPushed(w, x, st.world, st.id, pulled, at, edit(file.value), m.value);
    }
  }

  lemma PulledThenPushed(w: World, x: World, v: World, id: nat, p: int, at: int, file: Database, m: Manifest)
    requires Reachable(x) && Ran(x, v, id, true) && 0 <= p < |x.store.hist|
    requires PushReplaced(v.store, at, file, x.store.hist[p].seqNo)
               && PushedOnto(v.store, at, m, file, x.store.hist[p].seqNo, id)
    requires at >= |x.store.hist|
    ensures p < at < |v.store.hist| == |v.store.events| && StateAt(v.store, p) == StateAt(x.store, p)
    ensures forall k :: p < k < at ==> !v.store.events[k].Txn?
  {
    EvolvesGood(x, v);
    RanExtends(x, v, id, true);
    ReachableIsInv(x);
    ReachableIsInv(v);
    StatesFrame(x.store, v.store);
    NothingDiscarded(v, p, at);
  }
}
