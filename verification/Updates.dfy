/** `doUpdate`, the commit loop, as the source runs it: capture under a savepoint, upload, CAS, and
    on a lost CAS either rebase in place or roll back, resync and run the transaction again. */
module Updates {
  import opened Basics
  import opened Changesets
  import opened Transactions
  import opened Manifests
  import opened Protocol
  import opened Steps
  import opened Invariant
  import opened Theorems
  import opened Session

  /** The open savepoint, and the changeset captured and uploaded under it. */
  datatype Savepoint = Savepoint(csKey: Key, cs: Changeset, save: Database, saveSeq: int)

  datatype Captured = Uploaded(p: Savepoint) | Ended(outcome: Outcome)

  predicate Describes(u: Upd, call: nat, p: Savepoint, fn: Transaction) {
    && u.call == call && u.key == p.csKey && u.cs == p.cs && u.save == p.save && u.saveSeq == p.saveSeq
    && fn(u.save) == Some(u.after)
  }

  predicate HasEnded(w: World, id: nat, call: nat, outcome: Outcome) {
    id in w.clients && w.clients[id].op.Idle? && call in w.results && w.results[call] == outcome
  }

  // ---------------------------------------------------------------- fresh names

  function IdOf(k: Key): nat {
    if k.SnapKey? || k.CsKey? then k.id else 0
  }

  lemma {:induction false} SomeIdIsUnused(ks: set<Key>) returns (n: nat)
    ensures forall k :: k in ks ==> IdOf(k) < n
    decreases |ks|
  {
    n := 0;
    if ks != {} {
      var k :| k in ks;
      n := SomeIdIsUnused(ks - {k});
      n := if IdOf(k) < n then n else IdOf(k) + 1;
    }
  }

  /** A UUID: any id never used in a changeset name of this epoch. */
  method FreshChangesetId(content: map<Key, Blob>, epoch: Key) returns (n: nat)
    ensures CsKey(epoch, n) !in content
  {
    ghost var b := SomeIdIsUnused(content.Keys);
    assert IdOf(CsKey(epoch, b)) == b;
    n :| CsKey(epoch, n) !in content;
  }

  // ---------------------------------------------------------------- single steps

  predicate SameManifest(st: Db, m: Manifest, etag: ETag, key: Key)
    reads st
  {
    st.manifest == m && st.etag == etag && st.snapshotKey == key
  }

  lemma AbortCapturing(w: World, x: World, id: nat, outcome: Outcome, v: World)
    requires Waited(w, x, id) && x.clients[id].op.Capturing? && Next(x, Abort(id, outcome)) == Some(v)
    ensures Ran(w, v, id, true) && v == Finish(x, id, x.clients[id], x.clients[id].op.call, outcome)
  {
    RanStep(w, x, Abort(id, outcome), v, id);
  }

  /** The call ends with no savepoint open. */
  method EndCall(st: Db, ghost call: nat, outcome: Outcome)
    requires st.Agrees() && st.Me().op.Capturing? && st.Me().op.call == call && !outcome.Committed?
    modifies st
    ensures st.Agrees() && Ran(old(st.world), st.world, st.id, true) && st.conn == old(st.conn)
    ensures HasEnded(st.world, st.id, call, outcome) && st.world.store == old(st.world).store
    ensures st.clock == old(st.clock)
  {
    WaitedRefl(st.world, st.id);
    var v := Next(st.world, Abort(st.id, outcome)).value;
    AbortCapturing(st.world, st.world, st.id, outcome, v);
    st.world := v;
  }

  lemma DeleteOrphanStep(w: World, x: World, id: nat, v: World)
    requires Waited(w, x, id) && x.clients[id].op.Capturing? && Next(x, DeleteOrphan(id)) == Some(v)
    ensures Ran(w, v, id, true)
    ensures v.clients[id] == x.clients[id].(op := Capturing(x.clients[id].op.call, None))
    ensures x.clients[id].op.orphan.Some? && x.clients[id].op.orphan.value !in v.store.live
  {
    RanStep(w, x, DeleteOrphan(id), v, id);
  }

  /** The blob a lost attempt left is gone, unless the store failed. */
  ghost predicate Dropped(oracle: nat -> Reply, a: Moment, b: Moment, orphan: Option<Key>) {
    orphan.Some? ==> orphan.value !in b.world.store.live || Fault(oracle, a, b)
  }

  /** Best-effort delete of the blob a previous attempt left behind. */
  method DropOrphan(st: Db, ghost call: nat, orphan: Option<Key>)
    requires st.Agrees() && st.Me().op == Capturing(call, orphan)
    modifies st
    ensures st.Agrees() && Ran(old(st.world), st.world, st.id, true) && st.conn == old(st.conn)
    ensures st.Me().op.Capturing? && st.Me().op.call == call
    ensures st.localSeq == old(st.localSeq) && SameManifest(st, old(st.manifest), old(st.etag), old(st.snapshotKey))
    ensures st.clock >= old(st.clock) && Dropped(st.oracle, old(st.Now()), st.Now(), orphan)
  {
    RanRefl(st.world, st.id);
    if orphan.None? {
      return;
    }
    ghost var w := st.world;
    st.Interfere();
    var r := st.Ask();
    if r.Answered? {
      var v := Next(st.world, DeleteOrphan(st.id)).value;
      DeleteOrphanStep(w, st.world, st.id, v);
      st.world := v;
    }
  }

  lemma CaptureStep(w: World, x: World, id: nat, after: Database, n: nat, r: Reply, v: World)
    requires Waited(w, x, id) && x.clients[id].op.Capturing? && Next(x, Capture(id, after, n, r)) == Some(v)
    ensures Ran(w, v, id, true)
    ensures var cl := x.clients[id];
            && cl.conn.Some?
            && (r.Answered? ==> v.clients[id] == cl.(conn := Some(after),
                 op := CasReady(Upd(cl.op.call, CsKey(Epoch(cl.m), n), Diff(cl.conn.value, after), cl.conn.value,
                     cl.localSeq, cl.connAt, after))))
            && (r.Failed? ==>
                  v.clients[id] == cl.(op := Idle) && cl.op.call in v.results && v.results[cl.op.call] == Error)
  {
    RanStep(w, x, Capture(id, after, n, r), v, id);
  }

  /** Diff what fn did, name it under the current epoch, upload it. */
  method UploadChangeset(st: Db, ghost call: nat, fn: Transaction, after: Database) returns (c: Captured)
    requires st.Agrees() && st.Me().op.Capturing? && st.Me().op.call == call
    requires st.conn.Some? && fn(st.conn.value) == Some(after) && after != st.conn.value
    modifies st
    ensures st.Agrees() && Ran(old(st.world), st.world, st.id, true)
    ensures c.Uploaded? ==>
              && st.Me().op.CasReady? && st.conn == Some(after)
              && Describes(st.Me().op.u, call, c.p, fn) && st.localSeq == c.p.saveSeq
    ensures c.Ended? ==> HasEnded(st.world, st.id, call, c.outcome) && c.outcome == Error && st.conn == old(st.conn)
    ensures st.clock > old(st.clock) && (c.Ended? ==> st.oracle(old(st.clock)).Failed?)
    ensures SameManifest(st, old(st.manifest), old(st.etag), old(st.snapshotKey))
  {
    ghost var w := st.world;
    st.Interfere();
    var epoch := Epoch(st.manifest);
    var n := FreshChangesetId(st.world.store.content, epoch);
    var r := st.Ask();
    var p := Savepoint(CsKey(epoch, n), Diff(st.conn.value, after), st.conn.value, st.localSeq);
    var v := Next(st.world, Capture(st.id, after, n, r)).value;
    CaptureStep(w, st.world, st.id, after, n, r, v);
    st.world := v;
    if r.Failed? {
      return Ended(Error);
    }
    st.conn := Some(after);
    return Uploaded(p);
  }

  /** Phase 1 of an attempt: SAVEPOINT, run fn, capture, clean up, upload. */
  method CaptureAndUpload(st: Db, ghost call: nat, orphan: Option<Key>, fn: Transaction) returns (c: Captured)
    requires st.Agrees() && st.Me().op == Capturing(call, orphan) && st.conn.Some?
    modifies st
    ensures st.Agrees() && Ran(old(st.world), st.world, st.id, true)
    ensures c.Uploaded? ==>
              && st.Me().op.CasReady? && st.conn.Some?
              && Describes(st.Me().op.u, call, c.p, fn) && st.localSeq == c.p.saveSeq
    ensures c.Ended? ==> HasEnded(st.world, st.id, call, c.outcome) && st.conn == old(st.conn)
    ensures c == Ended(NothingToCommit) <==> fn(old(st.conn).value) == old(st.conn)
    ensures c.Ended? ==> c.outcome == Error || c.outcome == NothingToCommit
    ensures st.clock >= old(st.clock)
    ensures c == Ended(NothingToCommit) || fn(old(st.conn).value).None? ==> st.world.store == old(st.world).store
    ensures c == Ended(Error) ==> fn(old(st.conn).value).None? || Fault(st.oracle, old(st.Now()), st.Now())
    ensures c.Uploaded? ==> SameManifest(st, old(st.manifest), old(st.etag), old(st.snapshotKey))
  {
    ghost var w := st.world;
    match fn(st.conn.value)
    case None =>
      EndCall(st, call, Error);
      c := Ended(Error);
    case Some(after) =>
      if after == st.conn.value {
        EndCall(st, call, NothingToCommit);
        c := Ended(NothingToCommit);
      } else {
        DropOrphan(st, call, orphan);
        ghost var x := st.world;
        c := UploadChangeset(st, call, fn, after);
        RanTrans(w, x, st.world, st.id, true, true);
      }
  }

  // ---------------------------------------------------------------- phase 2: the CAS

  /** The call's transaction is in history, run on the state it was captured on. */
  ghost predicate CommitsOf(s: Store, call: nat, fn: Transaction, i: int) {
    CommittedBy(s, call, i) && fn(s.events[i].before) == Some(s.events[i].after)
  }

  /** ... as the last thing that happened, under the manifest the client now holds. */
  ghost predicate JustCommitted(st: Db, call: nat, fn: Transaction)
    reads st
  {
    && CommitsOf(st.world.store, call, fn, |st.world.store.events| - 1)
    && st.world.store.hist != [] && st.world.store.hist[|st.world.store.hist| - 1] == st.manifest
  }

  predicate UpdHeld(cl: Client, u: Upd) {
    cl.op == CasReady(u) || cl.op == CasLost(u) || (cl.op.Rebasing? && cl.op.u == u)
  }

  lemma CommitWon(w: World, x: World, id: nat, u: Upd, r: Reply, v: World)
    requires Waited(w, x, id) && x.clients[id].op == CasReady(u) && Next(x, Cas(id, r)) == Some(v)
    requires PutOutcome(x.store, CommitManifest(x.clients[id], u), PutCondition(x.clients[id].etag, false), r).Won?
    ensures Ran(w, v, id, true) && HasEnded(v, id, u.call, Committed)
    ensures v.store.events == x.store.events + [CommitEvent(u)]
    ensures v.store.hist == x.store.hist + [Stamped(CommitManifest(x.clients[id], u))]
    ensures var cl, m := x.clients[id], Stamped(CommitManifest(x.clients[id], u));
            v.clients[id] == cl.(m := m, etag := Md5(m), mAt := |x.store.hist|, localSeq := cl.m.seqNo + 1,
                connAt := |x.store.hist|, op := Idle)
  {
    RanStep(w, x, Cas(id, r), v, id);
  }

  lemma CommitIsLast(s: Store, t: Store, u: Upd, call: nat, p: Savepoint, fn: Transaction)
    requires t.events == s.events + [CommitEvent(u)] && Describes(u, call, p, fn)
    ensures CommitsOf(t, call, fn, |t.events| - 1)
  {
  }

  lemma CommitRefused(w: World, x: World, id: nat, u: Upd, r: Reply, v: World)
    requires Waited(w, x, id) && x.clients[id].op == CasReady(u) && Next(x, Cas(id, r)) == Some(v)
    requires PutOutcome(x.store, CommitManifest(x.clients[id], u), PutCondition(x.clients[id].etag, false), r).Refused?
    ensures Ran(w, v, id, true) && v.clients[id] == x.clients[id].(op := CasLost(u))
    ensures !Meets(v.store, PutCondition(x.clients[id].etag, false))
  {
    RanStep(w, x, Cas(id, r), v, id);
  }

  lemma CommitUnknown(w: World, x: World, id: nat, u: Upd, r: Reply, v: World)
    requires Waited(w, x, id) && x.clients[id].op == CasReady(u) && Next(x, Cas(id, r)) == Some(v)
    requires PutOutcome(x.store, CommitManifest(x.clients[id], u), PutCondition(x.clients[id].etag, false), r).Unknown?
    ensures Ran(w, v, id, Safe(x, Cas(id, r))) && HasEnded(v, id, u.call, Error)
    ensures v.clients[id] == Rollback(x.restoreSeqOnRollback, x.clients[id], u).(op := Idle)
  {
    RanStep(w, x, Cas(id, r), v, id);
  }

  /** The answer was success: RELEASE, and hold the new manifest. */
  method AfterWon(st: Db, ghost w: World, ghost call: nat, p: Savepoint, fn: Transaction, m: Manifest, r: Reply)
    requires st.Agrees() && Waited(w, st.world, st.id) && st.Me().op.CasReady? && Describes(st.Me().op.u, call, p, fn)
    requires m == CommitManifest(st.Me(), st.Me().op.u)
    requires PutOutcome(st.world.store, m, PutCondition(st.etag, false), r).Won?
    modifies st
    ensures st.Agrees() && Ran(w, st.world, st.id, true) && st.conn == old(st.conn)
    ensures HasEnded(st.world, st.id, call, Committed) && JustCommitted(st, call, fn) && st.manifest == Stamped(m)
    ensures st.clock == old(st.clock)
  {
    ghost var x, u := st.world, st.Me().op.u;
    st.world := Next(st.world, Cas(st.id, r)).value;
    CommitWon(w, x, st.id, u, r, st.world);
    CommitIsLast(x.store, st.world.store, u, call, p, fn);
    st.manifest, st.etag, st.localSeq := Stamped(m), Md5(Stamped(m)), st.manifest.seqNo + 1;
  }

  /** The answer was an error, which may hide a success: ROLLBACK. */
  method AfterUnknown(st: Db, ghost w: World, ghost call: nat, p: Savepoint, fn: Transaction, r: Reply)
      returns (ghost safe: bool)
    requires st.Agrees() && Waited(w, st.world, st.id) && st.Me().op.CasReady? && Describes(st.Me().op.u, call, p, fn)
    requires PutOutcome(st.world.store, CommitManifest(st.Me(), st.Me().op.u), PutCondition(st.etag, false), r).Unknown?
    modifies st
    ensures st.Agrees() && Ran(w, st.world, st.id, safe) && st.conn == Some(p.save)
    ensures st.world.restoreSeqOnRollback || old(st.localSeq) == p.saveSeq ==> safe
    ensures HasEnded(st.world, st.id, call, Error) && st.clock == old(st.clock)
  {
    ghost var x, u := st.world, st.Me().op.u;
    safe := Safe(x, Cas(st.id, r));
    st.world := Next(st.world, Cas(st.id, r)).value;
    CommitUnknown(w, x, st.id, u, r, st.world);
    st.conn := Some(p.save);
    if st.world.restoreSeqOnRollback {
      st.localSeq := p.saveSeq;
    }
  }

  /** In a reachable world the manifest of a commit is valid. */
  lemma CommitIsValid(w: World, x: World, id: nat, u: Upd)
    requires Reachable(w) && Waited(w, x, id) && x.clients[id].op == CasReady(u)
    ensures ValidManifest(Stamped(CommitManifest(x.clients[id], u)))
  {
    EvolvesGood(w, x);
    ReachableIsInv(x);
    assert ClientInv(x.store, x.clients[id]);
    assert ValidManifest(x.store.hist[x.clients[id].mAt]);
    CommitShape(x.clients[id], u);
  }

  /** Phase 2: append our entry to the manifest we hold, on condition that it is still the stored
      one.  An error rolls the savepoint back. */
  method TryCas(st: Db, ghost call: nat, p: Savepoint, fn: Transaction) returns (res: PutResult, ghost safe: bool)
    requires st.Agrees() && st.Me().op.CasReady? && st.conn.Some? && Describes(st.Me().op.u, call, p, fn)
    modifies st
    ensures st.Agrees() && Ran(old(st.world), st.world, st.id, safe) && st.conn.Some?
    ensures st.world.restoreSeqOnRollback || !res.Unknown? || old(st.localSeq) == p.saveSeq ==> safe
    ensures res.Won? ==> HasEnded(st.world, st.id, call, Committed) && st.conn == old(st.conn)
    ensures res.Won? ==> JustCommitted(st, call, fn) && st.manifest.snapshot == old(st.manifest).snapshot
    ensures res.Refused? ==>
              st.Me().op == CasLost(old(st.Me()).op.u) && st.conn == old(st.conn) && st.localSeq == old(st.localSeq)
    ensures res.Refused? ==> SameManifest(st, old(st.manifest), old(st.etag), old(st.snapshotKey))
    ensures res.Refused? ==> !Meets(st.world.store, PutCondition(st.etag, false))
    ensures res.Unknown? ==> HasEnded(st.world, st.id, call, Error) && st.conn == Some(p.save)
    ensures st.clock > old(st.clock)
    ensures Reachable(old(st.world)) && res.Unknown? ==> st.oracle(old(st.clock)).Failed?
  {
    ghost var w := st.world;
    st.Interfere();
    var r := st.Ask();
    if Reachable(w) {
      CommitIsValid(w, st.world, st.id, st.Me().op.u);
    }
    res, safe := CasNow(st, w, call, p, fn, r);
  }

  /** The store's answer to the commit's write. */
  method CasNow(st: Db, ghost w: World, ghost call: nat, p: Savepoint, fn: Transaction, r: Reply)
      returns (res: PutResult, ghost safe: bool)
    requires st.Agrees() && Waited(w, st.world, st.id) && st.Me().op.CasReady? && st.conn.Some?
    requires Describes(st.Me().op.u, call, p, fn)
    modifies st
    ensures st.Agrees() && Ran(w, st.world, st.id, safe) && st.conn.Some? && st.clock == old(st.clock)
    ensures st.world.restoreSeqOnRollback || !res.Unknown? || old(st.localSeq) == p.saveSeq ==> safe
    ensures res.Won? ==> HasEnded(st.world, st.id, call, Committed) && st.conn == old(st.conn)
    ensures res.Won? ==> JustCommitted(st, call, fn) && st.manifest.snapshot == old(st.manifest).snapshot
    ensures res.Refused? ==>
              st.Me().op == CasLost(old(st.Me()).op.u) && st.conn == old(st.conn) && st.localSeq == old(st.localSeq)
    ensures res.Refused? ==> SameManifest(st, old(st.manifest), old(st.etag), old(st.snapshotKey))
    ensures res.Refused? ==> !Meets(st.world.store, PutCondition(st.etag, false))
    ensures res.Unknown? ==> HasEnded(st.world, st.id, call, Error) && st.conn == Some(p.save)
    ensures res.Unknown? ==> r.Failed? || !ValidManifest(Stamped(CommitManifest(old(st.Me()), old(st.Me()).op.u)))
  {
    var m := AppendLog(st.manifest, LogEntry(p.csKey, st.manifest.seqNo + 1, |p.cs|));
    ghost var u := st.Me().op.u;
    assert m == CommitManifest(st.Me(), u);
    res, safe := PutOutcome(st.world.store, m, PutCondition(st.etag, false), r), true;
    match res
    case Won => AfterWon(st, w, call, p, fn, m, r);
    case Unknown => safe := AfterUnknown(st, w, call, p, fn, r);
    case Refused => AfterRefused(st, w, r);
  }

  /** The answer was 412: nothing changed. */
  method AfterRefused(st: Db, ghost w: World, r: Reply)
    requires st.Agrees() && Waited(w, st.world, st.id) && st.Me().op.CasReady?
    requires PutOutcome(st.world.store, CommitManifest(st.Me(), st.Me().op.u), PutCondition(st.etag, false), r).Refused?
    modifies st`world
    ensures st.Agrees() && Ran(w, st.world, st.id, true) && st.Me().op == CasLost(old(st.Me()).op.u)
    ensures !Meets(st.world.store, PutCondition(st.etag, false))
  {
    ghost var x, u := st.world, st.Me().op.u;
    st.world := Next(st.world, Cas(st.id, r)).value;
    CommitRefused(w, x, st.id, u, r, st.world);
  }

  lemma AbortAttempt(w: World, x: World, id: nat, u: Upd, outcome: Outcome, v: World)
    requires Waited(w, x, id) && UpdHeld(x.clients[id], u) && Next(x, Abort(id, outcome)) == Some(v)
    ensures Ran(w, v, id, Safe(x, Abort(id, outcome))) && HasEnded(v, id, u.call, outcome)
    ensures v.clients[id] == Rollback(x.restoreSeqOnRollback, x.clients[id], u).(op := Idle)
  {
    RanStep(w, x, Abort(id, outcome), v, id);
  }

  /** The deferred release with an error: ROLLBACK. */
  method EndAttempt(st: Db, ghost call: nat, p: Savepoint, fn: Transaction, ghost u: Upd, outcome: Outcome)
      returns (ghost safe: bool)
    requires st.Agrees() && UpdHeld(st.Me(), u) && Describes(u, call, p, fn) && !outcome.Committed?
    modifies st
    ensures st.Agrees() && Ran(old(st.world), st.world, st.id, safe)
    ensures st.world.restoreSeqOnRollback || old(st.localSeq) == p.saveSeq ==> safe
    ensures HasEnded(st.world, st.id, call, outcome) && st.conn == Some(p.save) && st.clock == old(st.clock)
  {
    WaitedRefl(st.world, st.id);
    safe := Safe(st.world, Abort(st.id, outcome));
    var v := Next(st.world, Abort(st.id, outcome)).value;
    AbortAttempt(st.world, st.world, st.id, u, outcome, v);
    st.world := v;
    st.conn := Some(p.save);
    if st.world.restoreSeqOnRollback {
      st.localSeq := p.saveSeq;
    }
  }

  // ---------------------------------------------------------------- phase 3: after a lost CAS

  datatype Retry = KeepChanges | StartOver | GaveUp

  /** Rolled back onto the savepoint, with `m2` adopted and a sync due. */
  ghost predicate Resyncing(st: Db, call: nat, key: Key)
    reads st
  {
    st.Agrees() && st.Me().op == Syncing(ForUpdate(call, Some(key)))
  }

  ghost predicate Rebases(st: Db, u: Upd, m2: Manifest, todo: seq<LogEntry>)
    reads st
  {
    && st.Agrees() && st.conn.Some? && st.Me().op.Rebasing?
    && st.Me().op.u == u && st.Me().op.m2 == m2 && st.Me().op.etag2 == Md5(m2) && st.Me().op.todo == todo
  }

  lemma ReloadStep(w: World, x: World, id: nat, u: Upd, m2: Manifest, v: World)
    requires Waited(w, x, id) && x.clients[id].op == CasLost(u) && Next(x, Reload(id)) == Some(v)
    requires x.store.hist != [] && m2 == x.store.hist[|x.store.hist| - 1]
    ensures Ran(w, v, id, true) && v.clients[id] == Reloaded(x, x.clients[id], u, m2, |x.store.hist| - 1)
    ensures v.store == x.store
  {
    RanStep(w, x, Reload(id), v, id);
  }

  lemma SwappedSince(s: Store, t: Store, cl: Client, u: Upd, m: Manifest, at: int)
    requires StoreInv(t) && UpdateOk(s, cl, u) && Extends(s, t) && Holds(t, at, m) && |s.hist| - 1 <= at
    ensures m.snapshot.seqNo > cl.localSeq ==> m.snapshot.key != cl.snapshotKey
  {
    if m.snapshot.key == cl.snapshotKey {
      SameEpochIsPrefix(t.hist, cl.mAt, at);
      assert ValidManifest(t.hist[cl.mAt]);
    }
  }

  /** In a reachable world only a snapshot swap makes the reload start over. */
  lemma MovedMeansSwapped(w: World, v: World, id: nat, u: Upd, m: Manifest, at: int)
    requires Reachable(w) && Ran(w, v, id, true) && w.clients[id].op == CasLost(u)
    requires Holds(v.store, at, m) && |w.store.hist| - 1 <= at
    ensures m.snapshot.seqNo > w.clients[id].localSeq ==> m.snapshot.key != w.clients[id].snapshotKey
  {
    EvolvesGood(w, v);
    RanExtends(w, v, id, true);
    LostUpdateOk(w, id, u);
    ReachableStoreInv(v);
    SwappedSince(w.store, v.store, w.clients[id], u, m, at);
  }

  lemma LostUpdateOk(w: World, id: nat, u: Upd)
    requires Reachable(w) && id in w.clients && w.clients[id].op == CasLost(u)
    ensures UpdateOk(w.store, w.clients[id], u)
  {
    ReachableIsInv(w);
    assert ClientInv(w.store, w.clients[id]);
  }

  /** The first half of `rollbackAndResync`: ROLLBACK, and hold the reloaded manifest. */
  method Adopt(st: Db, p: Savepoint, m: Manifest)
    modifies st`conn, st`manifest, st`etag, st`localSeq
    ensures st.conn == Some(p.save) && st.manifest == m && st.etag == Md5(m)
    ensures st.localSeq == if st.world.restoreSeqOnRollback then p.saveSeq else old(st.localSeq)
  {
    st.conn, st.manifest, st.etag := Some(p.save), m, Md5(m);
    if st.world.restoreSeqOnRollback {
      st.localSeq := p.saveSeq;
    }
  }

  /** A manifest that was there stays there. */
  lemma StillStored(w: World, v: World, id: nat, u: Upd)
    requires Reachable(w) && Ran(w, v, id, true) && w.clients[id].op == CasLost(u)
    ensures v.store.hist != []
  {
    LostUpdateOk(w, id, u);
    RanExtends(w, v, id, true);
  }

  /** Reload the manifest.  If its snapshot is not ours, roll back and adopt it. */
  method ReloadManifest(st: Db, ghost call: nat, p: Savepoint, fn: Transaction, ghost u: Upd)
      returns (m2: Option<Manifest>, moved: bool, ghost at: int)
    requires st.Agrees() && st.Me().op == CasLost(u) && st.conn.Some? && Describes(u, call, p, fn)
    modifies st
    ensures Ran(old(st.world), st.world, st.id, true)
    ensures m2.Some? ==> Holds(st.world.store, at, m2.value) && |old(st.world).store.hist| - 1 <= at
    ensures m2.Some? && moved ==> st.manifest == m2.value
    ensures m2.Some? ==>
              (moved <==> m2.value.snapshot.seqNo > old(st.localSeq) || m2.value.snapshot.key != st.snapshotKey)
    ensures m2.None? || !moved ==> st.localSeq == old(st.localSeq)
    ensures st.snapshotKey == old(st.snapshotKey) && (m2.Some? && !moved ==> m2.value.snapshot.key == st.snapshotKey)
    ensures m2.None? ==> st.Agrees() && st.Me().op == CasLost(u)
    ensures m2.Some? && moved ==> Resyncing(st, call, p.csKey)
    ensures m2.Some? && !moved ==> Rebases(st, u, m2.value, Need(m2.value.log, st.localSeq))
    ensures st.clock > old(st.clock)
    ensures m2.None? ==> st.oracle(old(st.clock)).Failed? || st.world.store.hist == []
  {
    ghost var w := st.world;
    st.Interfere();
    var r := st.Ask();
    if r.Failed? || st.world.store.hist == [] {
      return None, false, 0;
    }
    at := |st.world.store.hist| - 1;
    var m;
    m, moved := AfterReload(st, w, call, p, fn, u);
    m2 := Some(m);
  }

  /** The manifest is loaded: is its snapshot ours? */
  method AfterReload(st: Db, ghost w: World, ghost call: nat, p: Savepoint, fn: Transaction, ghost u: Upd)
      returns (m: Manifest, moved: bool)
    requires st.Agrees() && Waited(w, st.world, st.id) && st.world.store.hist != []
    requires st.Me().op == CasLost(u) && st.conn.Some? && Describes(u, call, p, fn)
    modifies st
    ensures Ran(w, st.world, st.id, true) && Holds(st.world.store, |old(st.world).store.hist| - 1, m)
    ensures moved <==> m.snapshot.seqNo > old(st.localSeq) || m.snapshot.key != st.snapshotKey
    ensures st.snapshotKey == old(st.snapshotKey) && st.clock == old(st.clock)
    ensures moved ==> st.manifest == m && Resyncing(st, call, p.csKey)
    ensures !moved ==> st.localSeq == old(st.localSeq) && Rebases(st, u, m, Need(m.log, st.localSeq))
  {
    ghost var x := st.world;
    m := st.world.store.hist[|st.world.store.hist| - 1];
    moved := m.snapshot.seqNo > st.localSeq || m.snapshot.key != st.snapshotKey;
    st.world := Next(st.world, Reload(st.id)).value;
    ReloadStep(w, x, st.id, u, m, st.world);
    if moved {
      Adopt(st, p, m);
    }
  }

  lemma RebaseStep(w: World, x: World, id: nat, cs: Changeset, v: World)
    requires Waited(w, x, id) && x.clients[id].op.Rebasing? && Next(x, RebaseEntry(id)) == Some(v)
    requires x.clients[id].op.todo != [] && EntryChanges(x.store.content, x.clients[id].op.todo[0]) == Some(cs)
    ensures Ran(w, v, id, Safe(x, RebaseEntry(id)))
    ensures x.clients[id].conn.Some? && v.clients[id] == RebasedBy(x, x.clients[id], cs)
    ensures Apply(x.clients[id].conn.value, cs).Some? ==> Safe(x, RebaseEntry(id))
  {
    RanStep(w, x, RebaseEntry(id), v, id);
  }

  datatype Rebase = Applied | Conflicting | Unfetched

  /** `applyMissingEntry` inside the savepoint: fetch one entry of theirs and apply it over our
      changes; on a conflict roll everything back and adopt `m2`. */
  method ApplyMissing(st: Db, ghost call: nat, p: Savepoint, fn: Transaction, ghost u: Upd, m2: Manifest, e: LogEntry,
                      ghost rest: seq<LogEntry>, ghost at: int)
      returns (res: Rebase, ghost safe: bool)
    requires Describes(u, call, p, fn) && Rebases(st, u, m2, [e] + rest) && NamedAt(st.world.store, at, [e])
    modifies st
    ensures Ran(old(st.world), st.world, st.id, safe)
    ensures res.Applied? ==> Rebases(st, u, m2, rest) && st.localSeq == old(st.localSeq)
    ensures res.Conflicting? ==> Resyncing(st, call, p.csKey) && st.manifest == m2
    ensures res.Unfetched? ==> Rebases(st, u, m2, [e] + rest) && st.localSeq == old(st.localSeq)
    ensures st.snapshotKey == old(st.snapshotKey)
    ensures st.world.restoreSeqOnRollback || !res.Conflicting? || old(st.localSeq) == p.saveSeq ==> safe
    ensures st.clock >= old(st.clock)
    ensures Reachable(old(st.world)) && res.Unfetched? ==> Trouble(st.oracle, old(st.Now()), st.Now(), at)
  {
    ghost var w := st.world;
    var body := st.GetChangeset(e, at);
    if body.None? {
      return Unfetched, true;
    }
    assert ([e] + rest)[1..] == rest;
    res, safe := ApplyFetched(st, w, call, p, fn, u, m2, body.value);
  }

  /** A conflict: roll everything back and adopt `m2`. */
  method RollbackAndAdopt(st: Db, ghost w: World, ghost call: nat, p: Savepoint, fn: Transaction, ghost u: Upd,
                          m2: Manifest, cs: Changeset)
      returns (ghost safe: bool)
    requires Describes(u, call, p, fn) && st.Agrees() && Waited(w, st.world, st.id)
    requires st.Me().op.Rebasing? && st.Me().op.todo != [] && Rebases(st, u, m2, st.Me().op.todo)
    requires EntryChanges(st.world.store.content, st.Me().op.todo[0]) == Some(cs) && Apply(st.conn.value, cs).None?
    modifies st
    ensures Ran(w, st.world, st.id, safe) && st.snapshotKey == old(st.snapshotKey)
    ensures Resyncing(st, call, p.csKey) && st.manifest == m2 && st.clock == old(st.clock)
    ensures st.world.restoreSeqOnRollback || old(st.localSeq) == p.saveSeq ==> safe
  {
    ghost var x := st.world;
    safe := Safe(x, RebaseEntry(st.id));
    st.world := Next(st.world, RebaseEntry(st.id)).value;
    RebaseStep(w, x, st.id, cs, st.world);
    Adopt(st, p, m2);
  }

  method ApplyFetched(st: Db, ghost w: World, ghost call: nat, p: Savepoint, fn: Transaction, ghost u: Upd,
                      m2: Manifest, cs: Changeset)
      returns (res: Rebase, ghost safe: bool)
    requires Describes(u, call, p, fn) && st.Agrees() && Waited(w, st.world, st.id)
    requires st.Me().op.Rebasing? && st.Me().op.todo != [] && Rebases(st, u, m2, st.Me().op.todo)
    requires EntryChanges(st.world.store.content, st.Me().op.todo[0]) == Some(cs)
    modifies st
    ensures Ran(w, st.world, st.id, safe) && !res.Unfetched? && st.snapshotKey == old(st.snapshotKey)
    ensures st.clock == old(st.clock)
    ensures res.Applied? ==> Rebases(st, u, m2, old(st.Me()).op.todo[1..]) && st.localSeq == old(st.localSeq)
    ensures res.Conflicting? ==> Resyncing(st, call, p.csKey) && st.manifest == m2
    ensures st.world.restoreSeqOnRollback || !res.Conflicting? || old(st.localSeq) == p.saveSeq ==> safe
  {
    match Apply(st.conn.value, cs) {
      case Some(db) =>
        ghost var x := st.world;
        st.world := Next(st.world, RebaseEntry(st.id)).value;
        RebaseStep(w, x, st.id, cs, st.world);
        st.conn := Some(db);
        res, safe := Applied, true;
      case None =>
        safe := RollbackAndAdopt(st, w, call, p, fn, u, m2, cs);
        res := Conflicting;
    }
  }

  lemma RebaseDoneStep(w: World, id: nat, u: Upd, m2: Manifest, v: World)
    requires id in w.clients && w.clients[id].op.Rebasing? && Next(w, RebaseDone(id)) == Some(v)
    requires w.clients[id].op.u == u && w.clients[id].op.m2 == m2
    ensures Ran(w, v, id, true)
    ensures var cl := w.clients[id];
            v.clients[id] == cl.(m := m2, etag := cl.op.etag2, mAt := cl.op.m2At, localSeq := m2.seqNo,
                op := CasReady(u))
  {
    WaitedRefl(w, id);
    RanStep(w, w, RebaseDone(id), v, id);
  }

  /** Every entry is in: adopt `m2` and keep the savepoint for another CAS. */
  method FinishRebase(st: Db, ghost u: Upd, m2: Manifest)
    requires Rebases(st, u, m2, [])
    modifies st
    ensures Ran(old(st.world), st.world, st.id, true)
    ensures st.Agrees() && st.conn.Some? && st.Me().op == CasReady(u)
    ensures st.manifest == m2 && st.snapshotKey == old(st.snapshotKey) && st.clock == old(st.clock)
  {
    ghost var w := st.world;
    st.world := Next(st.world, RebaseDone(st.id)).value;
    RebaseDoneStep(w, st.id, u, m2, st.world);
    st.manifest, st.etag, st.localSeq := m2, Md5(m2), m2.seqNo;
  }

  /** The rebase loop over `m2.Log`. */
  method RebaseOnto(st: Db, ghost call: nat, p: Savepoint, fn: Transaction, ghost u: Upd, m2: Manifest, ghost at: int)
      returns (res: Rebase, ghost safe: bool)
    requires Describes(u, call, p, fn) && Rebases(st, u, m2, Need(m2.log, st.localSeq)) && Holds(st.world.store, at, m2)
    modifies st
    ensures Ran(old(st.world), st.world, st.id, safe)
    ensures res.Applied? ==> st.Agrees() && st.conn.Some? && st.Me().op == CasReady(u)
    ensures res.Conflicting? ==> Resyncing(st, call, p.csKey)
    ensures st.snapshotKey == old(st.snapshotKey) && (!res.Unfetched? ==> st.manifest == m2)
    ensures res.Unfetched? ==> st.Agrees() && UpdHeld(st.Me(), u) && st.localSeq == old(st.localSeq)
    ensures st.world.restoreSeqOnRollback || !res.Conflicting? || old(st.localSeq) == p.saveSeq ==> safe
    ensures st.clock >= old(st.clock)
    ensures Reachable(old(st.world)) && res.Unfetched? ==> Trouble(st.oracle, old(st.Now()), st.Now(), at)
  {
    ghost var start, w := st.Now(), st.world;
    RanRefl(w, st.id);
    safe := true;
    ghost var key := st.snapshotKey;
    var from := st.localSeq;
    var i := 0;
    assert m2.log[0..] == m2.log;
    while i < |m2.log|
      invariant 0 <= i <= |m2.log| && safe && st.localSeq == from && st.snapshotKey == key
      invariant Rebases(st, u, m2, Need(m2.log[i..], from))
      invariant Ran(w, st.world, st.id, true) && st.clock >= start.clock && Holds(st.world.store, at, m2)
    {
      var e := m2.log[i];
      assert m2.log[i..][0] == e && m2.log[i..][1..] == m2.log[i + 1..];
      if e.seqNo > from {
        ghost var here := st.Now();
        res, safe := ApplyMissing(st, call, p, fn, u, m2, e, Need(m2.log[i + 1..], from), at);
        RanTrans(w, here.world, st.world, st.id, true, safe);
        HoldsOn(here.world, st.world, st.id, safe, at, m2);
        if !res.Applied? {
          if res.Unfetched? && Reachable(w) {
            TroubleSince(st.oracle, start, here, st.Now(), at);
          }
          return;
        }
      }
      i := i + 1;
    }
    ghost var x := st.world;
    FinishRebase(st, u, m2);
    RanTrans(w, x, st.world, st.id, true, true);
    res := Applied;
  }

  /** The sync half of `rollbackAndResync`. */
  method SyncAgain(st: Db, ghost call: nat, key: Key, ghost at: int) returns (retry: Retry)
    requires Resyncing(st, call, key) && Holds(st.world.store, at, st.manifest)
    modifies st
    ensures st.Agrees() && Ran(old(st.world), st.world, st.id, true)
    ensures retry.StartOver? ==> st.conn.Some? && st.Me().op == Capturing(call, Some(key))
    ensures retry.StartOver? ==> st.manifest == old(st.manifest) && st.snapshotKey == st.manifest.snapshot.key
    ensures retry.GaveUp? ==> HasEnded(st.world, st.id, call, Error)
    ensures !retry.KeepChanges? && st.clock >= old(st.clock)
    ensures Reachable(old(st.world)) && retry.GaveUp? ==> Trouble(st.oracle, old(st.Now()), st.Now(), at)
  {
    var ok := st.SyncToManifest(ForUpdate(call, Some(key)), at);
    retry := if ok then StartOver else GaveUp;
  }

  /** Phase 3: reload; rebase in place if the snapshot is still ours and nothing conflicts, else
      roll back, resync and start over. */
  method AfterLostCas(st: Db, ghost call: nat, p: Savepoint, fn: Transaction, ghost u: Upd)
      returns (retry: Retry, ghost safe: bool, moved: bool, ghost at: int)
    requires st.Agrees() && st.Me().op == CasLost(u) && st.conn.Some? && Describes(u, call, p, fn)
    modifies st
    ensures st.Agrees() && Ran(old(st.world), st.world, st.id, safe)
    ensures st.world.restoreSeqOnRollback || old(st.localSeq) == p.saveSeq ==> safe
    ensures retry.KeepChanges? ==> st.conn.Some? && st.Me().op == CasReady(u)
    ensures retry.StartOver? ==> st.conn.Some? && st.Me().op == Capturing(call, Some(p.csKey))
    ensures !retry.GaveUp? ==>
              st.snapshotKey == st.manifest.snapshot.key && (!moved ==> st.snapshotKey == old(st.snapshotKey))
    ensures !retry.GaveUp? ==> Holds(st.world.store, at, st.manifest) && |old(st.world).store.hist| - 1 <= at
    ensures !retry.GaveUp? && moved && Reachable(old(st.world)) ==> st.snapshotKey != old(st.snapshotKey)
    ensures retry.KeepChanges? ==> safe && !moved
    ensures retry.GaveUp? ==> HasEnded(st.world, st.id, call, Error)
    ensures st.clock >= old(st.clock)
    ensures Reachable(old(st.world)) && safe && retry.GaveUp? ==>
              Trouble(st.oracle, old(st.Now()), st.Now(), |old(st.world).store.hist| - 1)
  {
    ghost var start := st.Now();
    var m2;
    m2, moved, at := ReloadManifest(st, call, p, fn, u);
    if m2.None? {
      ghost var here := st.world;
      if Reachable(start.world) {
        StillStored(start.world, here, st.id, u);
      }
      safe := EndAttempt(st, call, p, fn, u, Error);
      RanTrans(start.world, here, st.world, st.id, true, safe);
      return GaveUp, safe, false, at;
    }
    ghost var here := st.Now();
    if Reachable(start.world) {
      MovedMeansSwapped(start.world, here.world, st.id, u, m2.value, at);
    }
    if moved {
      safe := true;
      retry := SyncAgain(st, call, p.csKey, at);
    } else {
      retry, safe := RebaseOrResync(st, call, p, fn, u, m2.value, at);
    }
    RanTrans(start.world, here.world, st.world, st.id, true, safe);
    HoldsOn(here.world, st.world, st.id, safe, at, m2.value);
    if Reachable(start.world) && safe && retry.GaveUp? {
      TroubleSince(st.oracle, start, here, st.Now(), at);
      TroubleFrom(st.oracle, start, st.Now(), at, |start.world.store.hist| - 1);
    }
  }

  method RebaseOrResync(st: Db, ghost call: nat, p: Savepoint, fn: Transaction, ghost u: Upd, m2: Manifest,
                        ghost at: int)
      returns (retry: Retry, ghost safe: bool)
    requires Describes(u, call, p, fn) && Rebases(st, u, m2, Need(m2.log, st.localSeq))
    requires m2.snapshot.key == st.snapshotKey && Holds(st.world.store, at, m2)
    modifies st
    ensures st.Agrees() && Ran(old(st.world), st.world, st.id, safe)
    ensures !retry.GaveUp? ==> st.manifest == m2 && st.snapshotKey == old(st.snapshotKey)
    ensures retry.KeepChanges? ==> safe
    ensures st.world.restoreSeqOnRollback || old(st.localSeq) == p.saveSeq ==> safe
    ensures retry.KeepChanges? ==> st.conn.Some? && st.Me().op == CasReady(u)
    ensures retry.StartOver? ==> st.conn.Some? && st.Me().op == Capturing(call, Some(p.csKey))
    ensures retry.GaveUp? ==> HasEnded(st.world, st.id, call, Error)
    ensures st.clock >= old(st.clock)
    ensures Reachable(old(st.world)) && safe && retry.GaveUp? ==> Trouble(st.oracle, old(st.Now()), st.Now(), at)
  {
    ghost var start := st.Now();
    var res;
    res, safe := RebaseOnto(st, call, p, fn, u, m2, at);
    ghost var here, before := st.Now(), safe;
    match res
    case Applied =>
      retry := KeepChanges;
    case Conflicting =>
      HoldsOn(start.world, here.world, st.id, safe, at, m2);
      retry := SyncAgain(st, call, p.csKey, at);
      RanTrans(start.world, here.world, st.world, st.id, before, true);
      if Reachable(start.world) && safe && retry.GaveUp? {
        TroubleSince(st.oracle, start, here, st.Now(), at);
      }
    case Unfetched =>
      safe := EndAttempt(st, call, p, fn, u, Error);
      RanTrans(start.world, here.world, st.world, st.id, before, safe);
      retry := GaveUp;
      if Reachable(start.world) {
        EvolvesRefl(start.world);
        TroubleGrows(st.oracle, start, start, here, st.Now(), true, safe, at, at);
      }
  }

  // ---------------------------------------------------------------- the loop

  /** Since position `at` somebody else committed a changeset. */
  ghost predicate ForeignCommit(s: Store, at: int, call: nat) {
    exists k :: 0 <= at < k < |s.events| && s.events[k].Txn? && s.events[k].call != call
  }

  /** Since position `at` the snapshot was swapped. */
  ghost predicate SwapSince(s: Store, at: int) {
    exists k :: 0 <= at < k < |s.hist| && s.hist[k].snapshot.key != s.hist[at].snapshot.key
  }

  lemma ForeignCommitStays(w: World, v: World, id: nat, safe: bool, at: int, call: nat)
    requires Ran(w, v, id, safe)
    ensures ForeignCommit(w.store, at, call) ==> ForeignCommit(v.store, at, call)
    ensures SwapSince(w.store, at) ==> SwapSince(v.store, at)
  {
    RanExtends(w, v, id, safe);
    if ForeignCommit(w.store, at, call) {
      var k :| 0 <= at < k < |w.store.events| && w.store.events[k].Txn? && w.store.events[k].call != call;
      assert v.store.events[k] == w.store.events[k];
    }
    if SwapSince(w.store, at) {
      var k :| 0 <= at < k < |w.store.hist| && w.store.hist[k].snapshot.key != w.store.hist[at].snapshot.key;
      assert v.store.hist[k] == w.store.hist[k];
    }
  }

  lemma Overtaken(s: Store, cl: Client, u: Upd, pos: int)
    requires StoreInv(s) && UpdateOk(s, cl, u) && Holds(s, pos, cl.m) && !Meets(s, PutCondition(cl.etag, false))
    ensures pos < |s.hist| - 1
  {
  }

  /** A refused CAS means that the manifest it was for is not the last one. */
  lemma RefusedMeansOvertaken(x: World, id: nat, u: Upd, pos: int)
    requires Reachable(x) && id in x.clients && x.clients[id].op == CasLost(u)
    requires Holds(x.store, pos, x.clients[id].m) && !Meets(x.store, PutCondition(x.clients[id].etag, false))
    ensures pos < |x.store.hist| - 1
  {
    LostUpdateOk(x, id, u);
    ReachableStoreInv(x);
    Overtaken(x.store, x.clients[id], u, pos);
  }

  lemma LaterInEpochIsCommit(s: Store, call: nat, pos: int, at: int)
    requires StoreInv(s) && NeverCommitted(s, call) && 0 <= pos < at < |s.hist|
    requires s.hist[pos].snapshot.key == s.hist[at].snapshot.key
    ensures ForeignCommit(s, pos, call)
  {
    SameEpochIsPrefix(s.hist, pos, at);
    assert EventOk(s, at);
    assert !CommittedBy(s, call, at);
  }

  /** A clean rebase goes past a commit of somebody else. */
  lemma RebaseMeansForeignCommit(y: World, id: nat, call: nat, pos: int, at: int)
    requires Reachable(y) && id in y.clients && Active(y.clients[id]) == Some(call)
    requires 0 <= pos < at < |y.store.hist| && y.store.hist[pos].snapshot.key == y.store.hist[at].snapshot.key
    ensures ForeignCommit(y.store, pos, call)
  {
    StillRunning(y, id, call);
    LaterInEpochIsCommit(y.store, call, pos, at);
  }

  lemma StillRunning(x: World, id: nat, call: nat)
    requires Reachable(x) && id in x.clients && Active(x.clients[id]) == Some(call)
    ensures StoreInv(x.store) && NeverCommitted(x.store, call)
  {
    ReachableIsInv(x);
    assert ActiveOk(x, id);
  }

  /** Phases 2 and 3, from the manifest at position `pos`.  GaveUp comes with the outcome of the call;
      otherwise the client now holds the manifest at the later position `at`. */
  method CasOrRetry(st: Db, ghost call: nat, p: Savepoint, fn: Transaction, ghost pos: int)
      returns (retry: Retry, outcome: Outcome, ghost safe: bool, moved: bool, ghost at: int)
    requires st.Agrees() && st.Me().op.CasReady? && st.conn.Some? && Describes(st.Me().op.u, call, p, fn)
    requires Holds(st.world.store, pos, st.manifest) && st.snapshotKey == st.manifest.snapshot.key
    modifies st
    ensures st.Agrees() && Ran(old(st.world), st.world, st.id, safe) && st.clock >= old(st.clock)
    ensures st.world.restoreSeqOnRollback || old(st.localSeq) == p.saveSeq ==> safe
    ensures retry.KeepChanges? ==> st.conn.Some? && st.Me().op == CasReady(old(st.Me()).op.u) && safe && !moved
    ensures retry.StartOver? ==> st.conn.Some? && st.Me().op == Capturing(call, Some(p.csKey))
    ensures retry.GaveUp? ==> HasEnded(st.world, st.id, call, outcome)
    ensures !retry.GaveUp? ==>
              st.snapshotKey == st.manifest.snapshot.key && (!moved ==> st.snapshotKey == old(st.snapshotKey))
    ensures !retry.GaveUp? ==> Holds(st.world.store, at, st.manifest)
    ensures Reachable(old(st.world)) && !retry.GaveUp? ==>
              pos < at && (moved ==> st.manifest.snapshot.key != old(st.manifest).snapshot.key)
    ensures retry.GaveUp? && outcome.Committed? ==>
              JustCommitted(st, call, fn) && !moved && st.manifest.snapshot == old(st.manifest).snapshot
    ensures retry.GaveUp? ==> outcome.Committed? || outcome.Error?
    ensures Reachable(old(st.world)) && safe && retry.GaveUp? && outcome.Error? ==>
              Trouble(st.oracle, old(st.Now()), st.Now(), pos)
  {
    ghost var start, u := st.Now(), st.Me().op.u;
    var res;
    ghost var first, second;
    res, first := TryCas(st, call, p, fn);
    if !res.Refused? {
      return GaveUp, if res.Won? then Committed else Error, first, false, pos;
    }
    ghost var here := st.Now();
    HoldsOn(start.world, here.world, st.id, true, pos, st.manifest);
    if Reachable(start.world) {
      EvolvesGood(start.world, here.world);
      RefusedMeansOvertaken(here.world, st.id, u, pos);
    }
    outcome := Error;
    retry, second, moved, at := AfterLostCas(st, call, p, fn, u);
    RanTrans(start.world, here.world, st.world, st.id, first, second);
    safe := first && second;
    if Reachable(start.world) && safe && retry.GaveUp? {
      TroubleSince(st.oracle, start, here, st.Now(), |here.world.store.hist| - 1);
      TroubleFrom(st.oracle, start, st.Now(), |here.world.store.hist| - 1, pos);
    }
  }

  /** An early return: the deferred release rolls back if a savepoint is open. */
  method Stop(st: Db, ghost call: nat, open: bool, p: Savepoint, fn: Transaction, outcome: Outcome)
      returns (ghost safe: bool)
    requires st.Agrees() && !outcome.Committed?
    requires !open ==> st.Me().op.Capturing? && st.Me().op.call == call
    requires open ==> st.Me().op.CasReady? && Describes(st.Me().op.u, call, p, fn)
    modifies st
    ensures st.Agrees() && Ran(old(st.world), st.world, st.id, safe) && st.clock == old(st.clock)
    ensures st.world.restoreSeqOnRollback || !open || old(st.localSeq) == p.saveSeq ==> safe
    ensures HasEnded(st.world, st.id, call, outcome)
    ensures !open ==> st.world.store == old(st.world).store
  {
    safe := true;
    if open {
      safe := EndAttempt(st, call, p, fn, st.Me().op.u, outcome);
    } else {
      EndCall(st, call, outcome);
    }
  }

  /** Out of retries: clean up the last orphan and report a conflict. */
  method Exhausted(st: Db, ghost call: nat, orphan: Option<Key>, open: bool, p: Savepoint, fn: Transaction)
      returns (ghost safe: bool)
    requires st.Agrees()
    requires !open ==> st.Me().op == Capturing(call, orphan)
    requires open ==> st.Me().op.CasReady? && Describes(st.Me().op.u, call, p, fn)
    modifies st
    ensures st.Agrees() && Ran(old(st.world), st.world, st.id, safe) && st.clock >= old(st.clock)
    ensures st.world.restoreSeqOnRollback || !open || old(st.localSeq) == p.saveSeq ==> safe
    ensures HasEnded(st.world, st.id, call, Conflict)
    ensures !open ==> Dropped(st.oracle, old(st.Now()), st.Now(), orphan)
  {
    ghost var w := st.world;
    RanRefl(w, st.id);
    if !open {
      DropOrphan(st, call, orphan);
    }
    ghost var x := st.world;
    safe := Stop(st, call, open, p, fn, Conflict);
    RanTrans(w, x, st.world, st.id, true, safe);
  }

  /** The ghost books of a call: the position of the manifest it holds, how many CASes it lost, whether
      all its steps were safe, whether it rebased, and whether a reload found another snapshot. */
  datatype Books = Books(pos: int, rounds: nat, safe: bool, rebased: bool, moved: bool)

  /** What the loop of `doUpdate` keeps: either nothing is captured and the connection is in step,
      or a savepoint is open with its changeset uploaded. */
  ghost predicate Looping(st: Db, call: nat, open: bool, orphan: Option<Key>, p: Savepoint, fn: Transaction,
                          rebased: bool)
    reads st
  {
    && st.Agrees() && st.conn.Some?
    && (!open ==> st.Me().op == Capturing(call, orphan))
    && (open ==> st.Me().op.CasReady? && Describes(st.Me().op.u, call, p, fn) && (rebased || st.localSeq == p.saveSeq))
  }

  /** What the books of a call say about the store: a clean rebase went past somebody else's commit,
      and a reload that started over found another snapshot. */
  ghost predicate FlagsMean(s: Store, at: int, call: nat, b: Books) {
    (b.rebased ==> ForeignCommit(s, at, call)) && (b.moved && b.safe ==> SwapSince(s, at))
  }

  lemma FlagsStay(w: World, v: World, id: nat, at: int, call: nat, b: Books, s: bool)
    requires Ran(w, v, id, s) && FlagsMean(w.store, at, call, b)
    ensures FlagsMean(v.store, at, call, b.(safe := b.safe && s))
  {
    ForeignCommitStays(w, v, id, s, at, call);
  }

  lemma Earlier(s: Store, at: int, pos: int, call: nat)
    requires 0 <= at <= pos && ForeignCommit(s, pos, call)
    ensures ForeignCommit(s, at, call)
  {
    var k :| pos < k < |s.events| && s.events[k].Txn? && s.events[k].call != call;
  }

  lemma SwapAtEither(s: Store, at: int, pos: int, pos2: int)
    requires 0 <= at <= pos < pos2 < |s.hist| && s.hist[pos].snapshot.key != s.hist[pos2].snapshot.key
    ensures SwapSince(s, at)
  {
    var k := if s.hist[pos2].snapshot.key != s.hist[at].snapshot.key then pos2 else pos;
    assert at < k && s.hist[k].snapshot.key != s.hist[at].snapshot.key;
  }

  /** The books after one more lost round, which left the client at `pos`. */
  function NextBooks(b: Books, pos: int, kept: bool, swapped: bool, s: bool): Books {
    Books(pos, b.rounds + 1, b.safe && s, b.rebased || kept, b.moved || swapped)
  }

  lemma FlagsAfterRound(x: World, v: World, id: nat, call: nat, at: int, b: Books, pos2: int, kept: bool, swapped: bool)
    requires Reachable(x) && Reachable(v) && Ran(x, v, id, true) && Active(v.clients[id]) == Some(call)
    requires 0 <= at <= b.pos < pos2 < |v.store.hist| && b.pos < |x.store.hist|
    requires kept ==> v.store.hist[pos2].snapshot.key == x.store.hist[b.pos].snapshot.key
    requires swapped ==> v.store.hist[pos2].snapshot.key != x.store.hist[b.pos].snapshot.key
    requires FlagsMean(x.store, at, call, b)
    ensures FlagsMean(v.store, at, call, NextBooks(b, pos2, kept, swapped, true))
  {
    ForeignCommitStays(x, v, id, true, at, call);
    RanExtends(x, v, id, true);
    if kept {
      RebaseMeansForeignCommit(v, id, call, b.pos, pos2);
      Earlier(v.store, at, b.pos, call);
    }
    if swapped {
      SwapAtEither(v.store, at, b.pos, pos2);
    }
  }

  /** The books `b` of a call that began in `w` with the manifest at `at`, and is now in `v` with the
      manifest `m`.  Every lost round took it at least one position on. */
  ghost predicate Booked(w: World, v: World, id: nat, call: nat, at: int, m: Manifest, b: Books) {
    && Ran(w, v, id, b.safe) && (w.restoreSeqOnRollback || !b.rebased ==> b.safe)
    && Holds(v.store, b.pos, m) && (Reachable(w) && b.safe ==> 0 <= at && at + b.rounds <= b.pos)
    && (Reachable(w) ==> FlagsMean(v.store, at, call, b))
  }

  /** A stretch in which the client keeps its manifest. */
  lemma BookedOn(w: World, x: World, v: World, id: nat, call: nat, at: int, m: Manifest, b: Books, s: bool)
    requires Booked(w, x, id, call, at, m, b) && Ran(x, v, id, s)
    requires w.restoreSeqOnRollback || !b.rebased ==> s
    ensures Booked(w, v, id, call, at, m, b.(safe := b.safe && s))
  {
    RanTrans(w, x, v, id, b.safe, s);
    HoldsOn(x, v, id, s, b.pos, m);
    if Reachable(w) {
      FlagsStay(x, v, id, at, call, b, s);
    }
  }

  lemma BookedRefl(w: World, id: nat, call: nat, at: int, m: Manifest)
    requires id in w.clients && Holds(w.store, at, m)
    ensures Booked(w, w, id, call, at, m, Books(at, 0, true, false, false))
  {
    RanRefl(w, id);
  }

  /** One more round of the loop, from the manifest `m` to `m2` at `pos2`. */
  lemma BookedRound(w: World, x: World, v: World, id: nat, call: nat, at: int, m: Manifest, b: Books, pos2: int,
                    m2: Manifest, s: bool, kept: bool, swapped: bool)
    requires Booked(w, x, id, call, at, m, b) && Ran(x, v, id, s) && Holds(v.store, pos2, m2)
    requires (w.restoreSeqOnRollback || !b.rebased ==> s) && (kept ==> s && !swapped)
    requires Active(v.clients[id]) == Some(call)
    requires Reachable(x) ==> b.pos < pos2 && (swapped ==> m2.snapshot.key != m.snapshot.key)
    requires kept ==> m2.snapshot.key == m.snapshot.key
    ensures Booked(w, v, id, call, at, m2, NextBooks(b, pos2, kept, swapped, s))
  {
    RanTrans(w, x, v, id, b.safe, s);
    if Reachable(w) {
      if b.safe && s {
        EvolvesGood(w, x);
        EvolvesGood(w, v);
        FlagsAfterRound(x, v, id, call, at, b, pos2, kept, swapped);
      } else {
        FlagsStay(x, v, id, at, call, b, s);
      }
    }
  }

  // ---------------------------------------------------------------- what an ending means

  /** The database `conn` is a state of the database at position `at` or later. */
  ghost predicate SeenSince(s: Store, at: int, conn: Option<Database>) {
    conn.Some? && exists q :: at <= q < |s.hist| && StateAt(s, q) == conn
  }

  /** What a call that reports no commit may rely on, for a call that began at moment `a` with the
      manifest at `at`: a conflict means that it lost every CAS it was allowed; nothing to commit, that
      fn changes nothing in a state that was current during the call; and an error, that fn failed on
      such a state or that a store access failed. */
  ghost predicate EndingMeans(oracle: nat -> Reply, a: Moment, b: Moment, at: int, retries: nat,
                              conn: Option<Database>, fn: Transaction, outcome: Outcome) {
    && (outcome.Conflict? ==> at + retries < |b.world.store.hist|)
    && (outcome.NothingToCommit? ==> SeenSince(b.world.store, at, conn) && fn(conn.value) == conn)
    && (outcome.Error? ==>
          || Trouble(oracle, a, b, at)
          || (SeenSince(b.world.store, at, conn) && fn(conn.value).None?))
  }

  /** At the top of the loop the connection is the state at the position of the manifest held. */
  lemma InStep(x: World, id: nat, at: int, pos: int, m: Manifest)
    requires Reachable(x) && id in x.clients && x.clients[id].op.Capturing? && x.clients[id].m == m
    requires Holds(x.store, pos, m) && at <= pos
    ensures SeenSince(x.store, at, x.clients[id].conn)
  {
    ReachableIsInv(x);
    assert ClientInv(x.store, x.clients[id]);
    assert StateAt(x.store, pos) == x.clients[id].conn;
  }

  lemma EndedInStep(oracle: nat -> Reply, a: Moment, x: Moment, b: Moment, at: int, retries: nat,
                    conn: Option<Database>, fn: Transaction, outcome: Outcome)
    requires a.clock <= x.clock && SeenSince(x.world.store, at, conn) && (outcome.NothingToCommit? || outcome.Error?)
    requires outcome.NothingToCommit? ==> fn(conn.value) == conn
    requires outcome.Error? ==> fn(conn.value).None? || Fault(oracle, x, b)
    requires outcome.NothingToCommit? || fn(conn.value).None? ==> b.world.store == x.world.store
    ensures EndingMeans(oracle, a, b, at, retries, conn, fn, outcome)
  {
    if outcome.Error? && fn(conn.value).Some? {
      var i :| x.clock <= i < b.clock && oracle(i).Failed?;
      assert a.clock <= i < b.clock;
    }
  }

  // ---------------------------------------------------------------- the loop

  /** What holds at the top of the loop, for a call that began at `start` with the manifest at `at`,
      whose snapshot is `key`. */
  ghost predicate AtTop(st: Db, start: Moment, call: nat, fn: Transaction, at: int, key: Key, open: bool,
                        orphan: Option<Key>, p: Savepoint, b: Books)
    reads st
  {
    && Looping(st, call, open, orphan, p, fn, b.rebased) && start.clock <= st.clock
    && st.snapshotKey == st.manifest.snapshot.key && (!b.moved ==> st.snapshotKey == key)
    && Booked(start.world, st.world, st.id, call, at, st.manifest, b)
  }

  /** What holds when the call has ended. */
  ghost predicate AtEnd(st: Db, start: Moment, call: nat, fn: Transaction, at: int, key: Key, outcome: Outcome,
                        b: Books)
    reads st
  {
    && st.Agrees() && Ran(start.world, st.world, st.id, b.safe)
    && (start.world.restoreSeqOnRollback || !b.rebased ==> b.safe) && start.clock <= st.clock
    && (Reachable(start.world) ==> FlagsMean(st.world.store, at, call, b))
    && HasEnded(st.world, st.id, call, outcome)
    && (outcome.Committed? ==> JustCommitted(st, call, fn) && (!b.moved ==> st.manifest.snapshot.key == key))
    && (outcome.NothingToCommit? ==> st.conn.Some? && fn(st.conn.value) == st.conn)
    && (Reachable(start.world) && b.safe ==>
          EndingMeans(st.oracle, start, st.Now(), at, st.maxRetries, st.conn, fn, outcome))
  }

  /** The context is cancelled between two rounds. */
  method Cancelled(st: Db, ghost start: Moment, ghost call: nat, fn: Transaction, ghost at: int, ghost key: Key,
                   open: bool, orphan: Option<Key>, p: Savepoint, ghost b: Books)
      returns (ghost b2: Books)
    requires AtTop(st, start, call, fn, at, key, open, orphan, p, b) && Fault(st.oracle, start, st.Now())
    modifies st
    ensures AtEnd(st, start, call, fn, at, key, Error, b2)
  {
    ghost var x, m := st.world, st.manifest;
    ghost var s := Stop(st, call, open, p, fn, Error);
    BookedOn(start.world, x, st.world, st.id, call, at, m, b, s);
    b2 := b.(safe := b.safe && s);
  }

  /** The loop has run its course. */
  method OutOfRetries(st: Db, ghost start: Moment, ghost call: nat, fn: Transaction, ghost at: int, ghost key: Key,
                      open: bool, orphan: Option<Key>, p: Savepoint, ghost b: Books)
      returns (ghost b2: Books)
    requires AtTop(st, start, call, fn, at, key, open, orphan, p, b) && b.rounds == st.maxRetries
    modifies st
    ensures AtEnd(st, start, call, fn, at, key, Conflict, b2)
  {
    ghost var x, m := st.world, st.manifest;
    ghost var s := Exhausted(st, call, orphan, open, p, fn);
    BookedOn(start.world, x, st.world, st.id, call, at, m, b, s);
    b2 := b.(safe := b.safe && s);
  }

  /** Phase 1, if nothing is captured. */
  method CaptureIfNeeded(st: Db, ghost start: Moment, ghost call: nat, fn: Transaction, ghost at: int, ghost key: Key,
                         open: bool, orphan: Option<Key>, p: Savepoint, ghost b: Books)
      returns (ended: Option<Outcome>, p2: Savepoint)
    requires AtTop(st, start, call, fn, at, key, open, orphan, p, b)
    modifies st
    ensures ended.None? ==> AtTop(st, start, call, fn, at, key, true, None, p2, b)
    ensures ended.Some? ==> AtEnd(st, start, call, fn, at, key, ended.value, b)
  {
    if open {
      return None, p;
    }
    ghost var here, m := st.Now(), st.manifest;
    if Reachable(start.world) && b.safe {
      EvolvesGood(start.world, here.world);
      InStep(here.world, st.id, at, b.pos, m);
    }
    var c := CaptureAndUpload(st, call, orphan, fn);
    BookedOn(start.world, here.world, st.world, st.id, call, at, m, b, true);
    if c.Uploaded? {
      return None, c.p;
    }
    if Reachable(start.world) && b.safe {
      EndedInStep(st.oracle, start, here, st.Now(), at, st.maxRetries, st.conn, fn, c.outcome);
    }
    return Some(c.outcome), p;
  }

  /** Phases 2 and 3 once something is captured. */
  method CasOnce(st: Db, ghost start: Moment, ghost call: nat, fn: Transaction, ghost at: int, ghost key: Key,
                 p: Savepoint, ghost b: Books)
      returns (ended: Option<Outcome>, open: bool, orphan: Option<Key>, ghost b2: Books)
    requires AtTop(st, start, call, fn, at, key, true, None, p, b)
    modifies st
    ensures ended.None? ==> AtTop(st, start, call, fn, at, key, open, orphan, p, b2) && b2.rounds == b.rounds + 1
    ensures ended.Some? ==> AtEnd(st, start, call, fn, at, key, ended.value, b2)
  {
    ghost var here, m := st.Now(), st.manifest;
    var retry, outcome, swapped;
    ghost var s, pos2;
    retry, outcome, s, swapped, pos2 := CasOrRetry(st, call, p, fn, b.pos);
    open := retry.KeepChanges?;
    orphan := if retry.StartOver? then Some(p.csKey) else None;
    if retry.GaveUp? {
      b2 := b.(safe := b.safe && s);
      BookedOn(start.world, here.world, st.world, st.id, call, at, m, b, s);
      if Reachable(start.world) && b2.safe && outcome.Error? {
        TroubleSince(st.oracle, start, here, st.Now(), b.pos);
        TroubleFrom(st.oracle, start, st.Now(), b.pos, at);
      }
      ended := Some(outcome);
    } else {
      b2 := NextBooks(b, pos2, open, swapped, s);
      BookedRound(start.world, here.world, st.world, st.id, call, at, m, b, pos2, st.manifest, s, open, swapped);
      ended := None;
    }
  }

  /** One iteration of the loop: wait if it is a retry, capture if needed, CAS. */
  method Attempt(st: Db, ghost start: Moment, ghost call: nat, fn: Transaction, ghost at: int, ghost key: Key,
                 open: bool, orphan: Option<Key>, p: Savepoint, ghost b: Books, again: bool)
      returns (ended: Option<Outcome>, open2: bool, orphan2: Option<Key>, p2: Savepoint, ghost b2: Books)
    requires AtTop(st, start, call, fn, at, key, open, orphan, p, b)
    modifies st
    ensures ended.None? ==> AtTop(st, start, call, fn, at, key, open2, orphan2, p2, b2) && b2.rounds == b.rounds + 1
    ensures ended.Some? ==> AtEnd(st, start, call, fn, at, key, ended.value, b2)
  {
    open2, orphan2, p2, b2 := open, orphan, p, b;
    if again {
      var r := st.Ask();
      if r.Failed? {
        b2 := Cancelled(st, start, call, fn, at, key, open, orphan, p, b);
        return Some(Error), open, orphan, p, b2;
      }
    }
    ended, p2 := CaptureIfNeeded(st, start, call, fn, at, key, open, orphan, p, b);
    if ended.None? {
      ended, open2, orphan2, b2 := CasOnce(st, start, call, fn, at, key, p2, b);
    }
  }

  /** `doUpdate`, from the manifest at history position `at`.  Whatever the other clients do at every
      store access, the call is a run of the protocol in which this client performs one Update; it
      ends, with its outcome on record.  If it reports success, fn's effect on the state it was
      captured on is the last thing in history; if it reports that there is nothing to commit, fn
      changes nothing in the database it leaves.  The run is safe unless `localSeq` is not restored and
      the call rebased over somebody else's commit; a safe run from a reachable world reports no
      conflict and no error without a reason. */
  method DoUpdate(st: Db, ghost call: nat, fn: Transaction, ghost at: int) returns (outcome: Outcome, ghost b: Books)
    requires st.Agrees() && st.Me().op == Capturing(call, None) && st.conn.Some?
    requires st.snapshotKey == st.manifest.snapshot.key && Holds(st.world.store, at, st.manifest)
    modifies st
    ensures st.Agrees() && Ran(old(st.world), st.world, st.id, b.safe) && st.clock >= old(st.clock)
    ensures st.world.restoreSeqOnRollback || !b.rebased ==> b.safe
    ensures Reachable(old(st.world)) ==> FlagsMean(st.world.store, at, call, b)
    ensures HasEnded(st.world, st.id, call, outcome)
    ensures outcome.Committed? ==> JustCommitted(st, call, fn)
    ensures outcome.Committed? && !b.moved ==> st.manifest.snapshot.key == old(st.manifest).snapshot.key
    ensures outcome.NothingToCommit? ==> st.conn.Some? && fn(st.conn.value) == st.conn
    ensures Reachable(old(st.world)) && b.safe ==>
              EndingMeans(st.oracle, old(st.Now()), st.Now(), at, st.maxRetries, st.conn, fn, outcome)
  {
    ghost var start, key := st.Now(), st.snapshotKey;
    b := Books(at, 0, true, false, false);
    BookedRefl(st.world, st.id, call, at, st.manifest);
    var open, orphan, p := false, None, Savepoint(NoKey, map[], map[], 0);
    for attempt := 0 to st.maxRetries
      invariant AtTop(st, start, call, fn, at, key, open, orphan, p, b) && b.rounds == attempt
    {
      var ended;
      ended, open, orphan, p, b := Attempt(st, start, call, fn, at, key, open, orphan, p, b, attempt > 0);
      if ended.Some? {
        return ended.value, b;
      }
    }
    b := OutOfRetries(st, start, call, fn, at, key, open, orphan, p, b);
    outcome := Conflict;
  }

  /** What a successful call means in a good world: exactly one history position holds it, its
      changeset is what fn did to the state it was captured on, and the state right before it became
      the state right after it through that changeset; that is what running fn there gives, if fn was
      captured there or depended only on the cells it wrote. */
  ghost predicate CommittedExactlyOnce(s: Store, call: nat, fn: Transaction, i: int) {
    && 0 < i < |s.hist| && CommitsOf(s, call, fn, i)
    && (forall j :: CommittedBy(s, call, j) ==> j == i)
    && StateAt(s, i - 1).Some? && StateAt(s, i) == Apply(StateAt(s, i - 1).value, s.events[i].cs)
    && SameShape(s.events[i].before, s.events[i].after) && s.events[i].cs == Diff(s.events[i].before, s.events[i].after)
    && (s.events[i].base == i - 1 || WriteLocalAt(fn, s.events[i].before) ==> IsSerial(s, i, fn))
  }

  lemma CommitMeans(s: Store, call: nat, fn: Transaction, i: int)
    requires StoreInv(s) && CommitsOf(s, call, fn, i)
    ensures CommittedExactlyOnce(s, call, fn, i)
  {
    assert EventOk(s, i) && EventOk(s, i - 1);
    ReplayRecaptures(s.events[i].before, s.events[i].cs);
    CommitIsSerial(s, i, fn);
    assert UniqueCommits(s.events);
  }

  /** What each outcome of a call means in a good world. */
  ghost predicate OutcomeMeans(w: World, call: nat, fn: Transaction, outcome: Outcome) {
    && (outcome.Committed? ==> exists i :: CommittedExactlyOnce(w.store, call, fn, i))
    && (outcome.Conflict? || outcome.NothingToCommit? ==> NeverCommitted(w.store, call))
  }

  lemma OutcomeIsRight(w: World, id: nat, call: nat, fn: Transaction, outcome: Outcome)
    requires Reachable(w) && HasEnded(w, id, call, outcome)
    requires outcome.Committed? ==> exists i :: CommitsOf(w.store, call, fn, i)
    ensures OutcomeMeans(w, call, fn, outcome)
  {
    ReachableIsInv(w);
    assert ResultOk(w, call);
    if outcome.Committed? {
      var i :| CommitsOf(w.store, call, fn, i);
      CommitMeans(w.store, call, fn, i);
    }
  }

  /** The schema version of the commit at `i`, of a call that loaded and checked position `at`: it is
      still the client's exactly when no migration landed in between, and always unless a reload found
      another snapshot; which it did exactly when the commit is on another snapshot. */
  ghost predicate SchemaOfCommit(s: Store, at: int, i: int, schemaVer: int, moved: bool) {
    && 0 <= at < i < |s.hist| == |s.events|
    && (s.hist[i].schema == schemaVer <==> forall k :: at < k <= i ==> !s.events[k].Migrated?)
    && (!moved ==> s.hist[i].schema == schemaVer)
    && (moved <==> s.hist[i].snapshot.key != s.hist[at].snapshot.key)
  }

  ghost predicate CommittedAt(s: Store, call: nat, fn: Transaction, at: int, i: int, schemaVer: int, moved: bool) {
    CommittedExactlyOnce(s, call, fn, i) && SchemaOfCommit(s, at, i, schemaVer, moved)
  }

  /** Exactly one commit, and what is known about its schema version. */
  ghost predicate CommittedOnce(s: Store, call: nat, fn: Transaction, at: int, schemaVer: int, moved: bool) {
    exists i :: CommittedAt(s, call, fn, at, i, schemaVer, moved)
  }

  /** `moved` means what it says for the commit at the end of history. */
  ghost predicate MovedMeans(s: Store, at: int, moved: bool) {
    0 <= at < |s.hist| &&
    if moved then SwapSince(s, at) else s.hist[|s.hist| - 1].snapshot.key == s.hist[at].snapshot.key
  }

  lemma MovedIff(s: Store, at: int, moved: bool)
    requires StoreInv(s) && MovedMeans(s, at, moved)
    ensures moved <==> s.hist[|s.hist| - 1].snapshot.key != s.hist[at].snapshot.key
  {
    var i := |s.hist| - 1;
    if s.hist[i].snapshot.key == s.hist[at].snapshot.key {
      SameEpochIsPrefix(s.hist, at, i);
    }
  }

  lemma CommitSchema(s: Store, t: Store, at: int, call: nat, schemaVer: int, moved: bool)
    requires StoreInv(s) && StoreInv(t) && Extends(s, t) && NeverCommitted(s, call)
    requires 0 <= at < |s.hist| && s.hist[at].schema == schemaVer
    requires CommittedBy(t, call, |t.events| - 1) && MovedMeans(t, at, moved)
    ensures SchemaOfCommit(t, at, |t.events| - 1, schemaVer, moved)
  {
    var i := |t.events| - 1;
    if i < |s.events| {
      assert CommittedBy(s, call, i);
    }
    SchemaSteps(t, at, i);
    MovedIff(t, at, moved);
    if !moved {
      SameEpochIsPrefix(t.hist, at, i);
    }
  }

  lemma CommitTruth(s: Store, t: Store, call: nat, fn: Transaction, at: int, schemaVer: int, moved: bool)
    requires StoreInv(s) && StoreInv(t) && Extends(s, t) && NeverCommitted(s, call)
    requires 0 <= at < |s.hist| && s.hist[at].schema == schemaVer
    requires CommitsOf(t, call, fn, |t.events| - 1) && MovedMeans(t, at, moved)
    ensures CommittedOnce(t, call, fn, at, schemaVer, moved)
  {
    CommitSchema(s, t, at, call, schemaVer, moved);
    CommitMeans(t, call, fn, |t.events| - 1);
    assert CommittedAt(t, call, fn, at, |t.events| - 1, schemaVer, moved);
  }

  /** Reaching back to the world `x` in which the call had just synced. */
  lemma UpdateMeans(x: World, v: World, id: nat, call: nat, fn: Transaction, at: int, m: Manifest, moved: bool)
    requires Reachable(x) && Reachable(v) && Ran(x, v, id, true) && Active(x.clients[id]) == Some(call)
    requires Holds(x.store, at, m) && CommitsOf(v.store, call, fn, |v.store.events| - 1)
               && MovedMeans(v.store, at, moved)
    ensures CommittedOnce(v.store, call, fn, at, m.schema, moved)
  {
    StillRunning(x, id, call);
    ReachableStoreInv(v);
    RanExtends(x, v, id, true);
    CommitTruth(x.store, v.store, call, fn, at, m.schema, moved);
  }

  /** The whole truth about a call, for every outcome. */
  ghost predicate Truth(w: World, call: nat, fn: Transaction, outcome: Outcome, at: int, schemaVer: int, moved: bool) {
    && OutcomeMeans(w, call, fn, outcome)
    && (outcome.Committed? ==> CommittedOnce(w.store, call, fn, at, schemaVer, moved))
  }

  lemma UpdateTruth(x: World, v: World, id: nat, call: nat, fn: Transaction, outcome: Outcome, at: int, m: Manifest,
                    moved: bool)
    requires Reachable(x) && Ran(x, v, id, true) && Active(x.clients[id]) == Some(call)
    requires HasEnded(v, id, call, outcome) && Holds(x.store, at, m)
    requires outcome.Committed? ==>
               CommitsOf(v.store, call, fn, |v.store.events| - 1) && MovedMeans(v.store, at, moved)
    ensures Truth(v, call, fn, outcome, at, m.schema, moved)
  {
    EvolvesGood(x, v);
    OutcomeIsRight(v, id, call, fn, outcome);
    if outcome.Committed? {
      UpdateMeans(x, v, id, call, fn, at, m, moved);
    }
  }

  /** The `doUpdate` half of `Update`, after a refresh that loaded history position `at`. */
  method UpdateFrom(st: Db, ghost call: nat, fn: Transaction, ghost at: int) returns (outcome: Outcome, ghost b: Books)
    requires st.Agrees() && st.Me().op == Capturing(call, None) && st.conn.Some?
    requires st.snapshotKey == st.manifest.snapshot.key && Holds(st.world.store, at, st.manifest)
    modifies st
    ensures st.Agrees() && Ran(old(st.world), st.world, st.id, b.safe) && HasEnded(st.world, st.id, call, outcome)
    ensures outcome.Committed? ==> JustCommitted(st, call, fn)
    ensures outcome.NothingToCommit? ==> st.conn.Some? && fn(st.conn.value) == st.conn
    ensures (st.world.restoreSeqOnRollback || !b.rebased ==> b.safe) && st.clock >= old(st.clock)
    ensures Reachable(old(st.world)) && b.rebased ==> ForeignCommit(st.world.store, at, call)
    ensures Reachable(old(st.world)) && b.safe ==>
              && Truth(st.world, call, fn, outcome, at, old(st.manifest).schema, b.moved)
              && EndingMeans(st.oracle, old(st.Now()), st.Now(), at, st.maxRetries, st.conn, fn, outcome)
  {
    ghost var x, m := st.world, st.manifest;
    outcome, b := DoUpdate(st, call, fn, at);
    if Reachable(x) && b.safe {
      TruthOfFlags(x, st.world, st.id, call, fn, outcome, at, m, st.manifest, b);
    }
  }

  lemma TruthOfFlags(x: World, v: World, id: nat, call: nat, fn: Transaction, outcome: Outcome, at: int, m: Manifest,
                     held: Manifest, b: Books)
    requires Reachable(x) && Ran(x, v, id, true) && Active(x.clients[id]) == Some(call) && b.safe
    requires HasEnded(v, id, call, outcome) && Holds(x.store, at, m) && FlagsMean(v.store, at, call, b)
    requires outcome.Committed? ==>
               && CommitsOf(v.store, call, fn, |v.store.events| - 1)
               && v.store.hist != [] && v.store.hist[|v.store.hist| - 1] == held
               && (!b.moved ==> held.snapshot.key == m.snapshot.key)
    ensures Truth(v, call, fn, outcome, at, m.schema, b.moved)
  {
    HoldsOn(x, v, id, true, at, m);
    UpdateTruth(x, v, id, call, fn, outcome, at, m, b.moved);
  }

  lemma EndingSince(oracle: nat -> Reply, a: Moment, x: Moment, b: Moment, at: int, retries: nat,
                    conn: Option<Database>, fn: Transaction, outcome: Outcome)
    requires Reachable(a.world) && Evolves(a.world, x.world, true) && a.clock <= x.clock
    requires EndingMeans(oracle, x, b, at, retries, conn, fn, outcome)
    ensures EndingMeans(oracle, a, b, at, retries, conn, fn, outcome)
  {
    if outcome.Error? && Trouble(oracle, x, b, at) {
      TroubleSince(oracle, a, x, b, at);
    }
  }

  /** `Update` without the auto-compaction hook: refresh, which checked the schema version at position
      `at`, then `doUpdate`.  A call that got past the refresh ends with its outcome on record: success
      with fn's effect as the last thing in history, nothing to commit with a database in which fn
      changes nothing; whatever the others do and however `localSeq` is treated.  From a reachable
      world the outcome is the whole truth about history, and one that is no success has a reason,
      unless `localSeq` is not restored and somebody else committed during the call. */
  method Update(st: Db, fn: Transaction)
      returns (outcome: Outcome, ghost call: Option<nat>, ghost b: Books, ghost at: int)
    requires st.Agrees() && st.Me().op.Idle?
    modifies st
    ensures st.Agrees() && st.Me().op.Idle? && Ran(old(st.world), st.world, st.id, b.safe)
    ensures call.None? ==> outcome.Error?
    ensures call.Some? ==> HasEnded(st.world, st.id, call.value, outcome) && |old(st.world).store.hist| - 1 <= at
    ensures outcome.Committed? ==> call.Some? && JustCommitted(st, call.value, fn)
    ensures outcome.NothingToCommit? ==> st.conn.Some? && fn(st.conn.value) == st.conn
    ensures (st.world.restoreSeqOnRollback || !b.rebased ==> b.safe) && st.clock >= old(st.clock)
    ensures Reachable(old(st.world)) && b.rebased ==> call.Some? && ForeignCommit(st.world.store, at, call.value)
    ensures Reachable(old(st.world)) && b.safe && call.Some? ==>
              && Truth(st.world, call.value, fn, outcome, at, old(st.Me()).schemaVer, b.moved)
              && EndingMeans(st.oracle, old(st.Now()), st.Now(), at, st.maxRetries, st.conn, fn, outcome)
    ensures Reachable(old(st.world)) && call.None? ==>
              CannotRefresh(st.oracle, old(st.Now()), st.Now(), old(st.Me()).schemaVer)
  {
    ghost var start := st.Now();
    var ok;
    ok, at := st.RefreshManifest(ForUpdate(0, None));
    if !ok {
      return Error, None, Books(at, 0, true, false, false), at;
    }
    call := Some(st.Me().op.call);
    ghost var here := st.Now();
    if Reachable(start.world) {
      EvolvesGood(start.world, here.world);
    }
    outcome, b := UpdateFrom(st, call.value, fn, at);
    RanTrans(start.world, here.world, st.world, st.id, true, b.safe);
    if Reachable(start.world) && b.safe {
      EndingSince(st.oracle, start, here, st.Now(), at, st.maxRetries, st.conn, fn, outcome);
    }
  }
}
