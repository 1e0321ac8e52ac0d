/** Every action keeps the invariant, except one that rolls a savepoint back after a clean rebase
    without restoring `localSeq`, while the entries rolled back do not cancel out; that one always
    breaks it. */
module Steps {
  import opened Basics
  import opened Changesets
  import opened Manifests
  import opened Protocol
  import opened Invariant

  // ---------------------------------------------------------------- which actions are safe

  /** The rollback puts `localSeq` back; or no clean rebase happened inside this savepoint; or the
      entries rebased cancel out, so that the database before them is also the one after them. */
  predicate SafeRollback(s: Store, restore: bool, cl: Client, u: Upd) {
    restore || cl.localSeq == u.saveSeq || StateAt(s, cl.mAt) == Some(u.save)
  }

  /** Does this action roll the savepoint back and keep the connection? */
  predicate RollsBack(w: World, a: Action)
    requires a.c in w.clients
  {
    var cl := w.clients[a.c];
    match a
    case Abort(_, _) => cl.op.CasReady? || cl.op.CasLost? || cl.op.Rebasing?
    case Cas(_, r) => cl.op.CasReady?
        && PutOutcome(w.store, CommitManifest(cl, cl.op.u), PutCondition(cl.etag, false), r).Unknown?
    case RebaseEntry(_) =>
      && cl.op.Rebasing? && cl.op.todo != [] && cl.conn.Some?
      && EntryChanges(w.store.content, cl.op.todo[0]).Some?
      && Apply(cl.conn.value, EntryChanges(w.store.content, cl.op.todo[0]).value).None?
    case _ => false
  }

  predicate Safe(w: World, a: Action) {
    a.c in w.clients && RollsBack(w, a) ==>
      SafeRollback(w.store, w.restoreSeqOnRollback, w.clients[a.c], w.clients[a.c].op.u)
  }

  // ---------------------------------------------------------------- bookkeeping of names and calls

  ghost predicate OnlyClient(w: World, v: World, c: nat) {
    && c in w.clients && v.clients.Keys == w.clients.Keys
    && forall d :: d in w.clients && d != c ==> v.clients[d] == w.clients[d]
  }

  lemma OthersKept(w: World, v: World, c: nat)
    requires StoreInv(w.store) && ClientsInv(w) && OnlyClient(w, v, c) && Extends(w.store, v.store)
    requires ClientInv(v.store, v.clients[c])
    ensures ClientsInv(v)
  {
    forall d | d in v.clients ensures ClientInv(v.store, v.clients[d]) {
      if d != c {
        ClientFrame(w.store, v.store, w.clients[d]);
      }
    }
  }

  lemma FreshIsUnreferenced(s: Store, k: Key)
    requires StoreInv(s) && k !in s.content
    ensures Unreferenced(s, k)
  {
    forall i | 0 <= i < |s.hist| ensures !Mentions(s.hist[i], k) {
      assert WellKeyed(s.content, s.hist[i]);
      forall j | 0 <= j < |s.hist[i].log| ensures s.hist[i].log[j].key != k {
        assert EntryKeyed(s.content, s.hist[i], j);
      }
    }
  }

  lemma OwnedKept(w: World, v: World, c: nat)
    requires StoreInv(w.store) && OwnedInv(w) && OnlyClient(w, v, c) && Extends(w.store, v.store)
    requires v.store.hist == w.store.hist
    requires var o := Owned(v.clients[c]);
             o.None? || o == Owned(w.clients[c])
                 || (o.value !in w.store.content && o.value in v.store.content && o.value != InitKey)
    ensures OwnedInv(v)
  {
    var o := Owned(v.clients[c]);
    if o.Some? && o.value !in w.store.content {
      FreshIsUnreferenced(w.store, o.value);
    }
    forall d | d in v.clients ensures OwnedOk(v.store, v.clients[d]) {
      assert OwnedOk(w.store, w.clients[d]);
    }
    forall d, e | d in v.clients && e in v.clients && d != e && Owned(v.clients[d]).Some?
      ensures Owned(v.clients[d]) != Owned(v.clients[e])
    {
      assert OwnedOk(w.store, w.clients[d]) && OwnedOk(w.store, w.clients[e]);
    }
  }

  /** A landed manifest names only what was named before and the blob its writer owned. */
  lemma OwnedLanded(w: World, v: World, c: nat, m: Manifest)
    requires OwnedInv(w) && OnlyClient(w, v, c)
    requires v.store.hist == w.store.hist + [m] && v.store.content == w.store.content
    requires forall k :: Mentions(m, k) ==> Owned(w.clients[c]) == Some(k) || k == InitKey || !Unreferenced(w.store, k)
    requires Owned(v.clients[c]).None?
    ensures OwnedInv(v)
  {
    forall d | d in v.clients ensures OwnedOk(v.store, v.clients[d]) {
      assert OwnedOk(w.store, w.clients[d]);
      if d != c && Owned(w.clients[d]).Some? {
        var k := Owned(w.clients[d]).value;
        assert !Mentions(m, k);
        forall i | 0 <= i < |v.store.hist| ensures !Mentions(v.store.hist[i], k) {
          if i < |w.store.hist| {
            assert !Mentions(w.store.hist[i], k);
          }
        }
      }
    }
  }

  lemma CallKept(w: World, v: World, c: nat)
    requires CallInv(w) && OnlyClient(w, v, c) && Extends(w.store, v.store)
    requires v.store.events == w.store.events && v.results == w.results && v.calls == w.calls
    requires Active(v.clients[c]).None? || Active(v.clients[c]) == Active(w.clients[c])
    ensures CallInv(v)
  {
    NeverKept(w.store, v.store);
    forall d | d in v.clients ensures ActiveOk(v, d) {
      assert ActiveOk(w, d);
    }
    forall n | n in v.results ensures ResultOk(v, n) {
      ResultKept(w, v, n);
    }
  }

  lemma NeverKept(s: Store, t: Store)
    requires t.events == s.events
    ensures forall n :: NeverCommitted(s, n) ==> NeverCommitted(t, n)
  {
    forall n | NeverCommitted(s, n) ensures NeverCommitted(t, n) {
      forall i | 0 <= i < |t.events| ensures !CommittedBy(t, n, i) {
        assert !CommittedBy(s, n, i);
      }
    }
  }

  lemma CommittedKept(s: Store, t: Store, n: nat)
    requires |s.events| <= |t.events| && forall i :: 0 <= i < |s.events| ==> t.events[i] == s.events[i]
    requires exists i :: CommittedBy(s, n, i)
    ensures exists i :: CommittedBy(t, n, i)
  {
    var i :| CommittedBy(s, n, i);
    assert CommittedBy(t, n, i);
  }

  lemma ResultKept(w: World, v: World, n: nat)
    requires n in w.results && ResultOk(w, n)
    requires n in v.results && v.results[n] == w.results[n] && v.calls >= w.calls
    requires Extends(w.store, v.store)
    requires NeverCommitted(w.store, n) ==> NeverCommitted(v.store, n)
    ensures ResultOk(v, n)
  {
    if w.results[n].Committed? {
      CommittedKept(w.store, v.store, n);
    }
  }

  lemma CallStarted(w: World, v: World, c: nat)
    requires CallInv(w) && OnlyClient(w, v, c)
    requires v.store == w.store && v.results == w.results && v.calls == w.calls + 1
    requires Active(v.clients[c]) == Some(w.calls)
    ensures CallInv(v)
  {
    forall i | 0 <= i < |v.store.events| ensures !CommittedBy(v.store, w.calls, i) {}
    forall n | n in v.results ensures ResultOk(v, n) && n != w.calls {
      assert ResultOk(w, n);
    }
    forall d | d in v.clients ensures ActiveOk(v, d) {
      assert ActiveOk(w, d);
    }
    forall d, e | d in v.clients && e in v.clients && d != e && Active(v.clients[d]).Some?
      ensures Active(v.clients[d]) != Active(v.clients[e])
    {
      assert ActiveOk(w, d) && ActiveOk(w, e);
    }
  }

  /** A call ends, with or without a commit of its own having landed. */
  lemma CallFinished(w: World, v: World, c: nat, call: nat, outcome: Outcome)
    requires CallInv(w) && OnlyClient(w, v, c) && Extends(w.store, v.store)
    requires Active(w.clients[c]) == Some(call) && Active(v.clients[c]).None?
    requires v.results == w.results[call := outcome] && v.calls == w.calls
    requires v.store.events == w.store.events ||
             (exists ev: Event :: v.store.events == w.store.events + [ev] && ev.Txn? && ev.call == call)
    requires outcome.Committed? ==> v.store.events != w.store.events
    requires outcome.Conflict? || outcome.NothingToCommit? ==> v.store.events == w.store.events
    ensures CallInv(v)
  {
    assert ActiveOk(w, c);
    forall n | n != call && NeverCommitted(w.store, n) ensures NeverCommitted(v.store, n) {
      forall i | 0 <= i < |v.store.events| ensures !CommittedBy(v.store, n, i) {
        if i < |w.store.events| {
          assert !CommittedBy(w.store, n, i);
        }
      }
    }
    forall d | d in v.clients ensures ActiveOk(v, d) {
      assert ActiveOk(w, d);
    }
    forall n | n in v.results ensures ResultOk(v, n) {
      if n != call {
        ResultKept(w, v, n);
      } else if v.store.events == w.store.events {
        NeverKept(w.store, v.store);
      } else {
        assert CommittedBy(v.store, call, |w.store.events|);
      }
    }
  }

  lemma CallLanded(w: World, v: World, c: nat, ev: Event)
    requires CallInv(w) && OnlyClient(w, v, c) && Extends(w.store, v.store) && !ev.Txn?
    requires v.store.events == w.store.events + [ev] && v.results == w.results && v.calls == w.calls
    requires Active(v.clients[c]).None?
    ensures CallInv(v)
  {
    forall n | NeverCommitted(w.store, n) ensures NeverCommitted(v.store, n) {
      forall i | 0 <= i < |v.store.events| ensures !CommittedBy(v.store, n, i) {
        if i < |w.store.events| {
          assert !CommittedBy(w.store, n, i);
        }
      }
    }
    forall d | d in v.clients ensures ActiveOk(v, d) {
      assert ActiveOk(w, d);
    }
    forall n | n in v.results ensures ResultOk(v, n) {
      ResultKept(w, v, n);
    }
  }

  /** May a client in state `cl` become `x` without a manifest write? */
  ghost predicate KeepsNames(s: Store, t: Store, cl: Client, x: Client) {
    && (Owned(x).None? || Owned(x) == Owned(cl)
        || (Owned(x).value !in s.content && Owned(x).value in t.content && Owned(x).value != InitKey))
    && (Active(x).None? || Active(x) == Active(cl))
  }

  /** A step that commits nothing. */
  lemma Moves(w: World, c: nat, s: Store, x: Client)
    requires Inv(w) && c in w.clients && Extends(w.store, s) && StoreInv(s)
    requires s.hist == w.store.hist && s.events == w.store.events
    requires ClientInv(s, x) && KeepsNames(w.store, s, w.clients[c], x)
    ensures Inv(Move(w, c, s, x))
  {
    var v := Move(w, c, s, x);
    OthersKept(w, v, c);
    OwnedKept(w, v, c);
    CallKept(w, v, c);
  }

  /** A step that ends a call and commits nothing. */
  lemma Ends(w: World, c: nat, s: Store, x: Client, call: nat, outcome: Outcome)
    requires Inv(w) && c in w.clients && Extends(w.store, s) && StoreInv(s)
    requires s.hist == w.store.hist && s.events == w.store.events
    requires ClientInv(s, x.(op := Idle)) && Active(w.clients[c]) == Some(call) && !outcome.Committed?
    ensures Inv(Finish(w.(store := s), c, x, call, outcome))
  {
    var v := Finish(w.(store := s), c, x, call, outcome);
    OthersKept(w, v, c);
    OwnedKept(w, v, c);
    CallFinished(w, v, c, call, outcome);
  }

  // ---------------------------------------------------------------- sync

  /** What `syncToManifest` starts `applyLog` from is faithful and not ahead of the manifest. */
  lemma SyncBaseFaithful(s: Store, cl: Client)
    requires StoreInv(s) && SyncOk(s, cl) && SyncBase(s.content, cl).Some?
    ensures var b := SyncBase(s.content, cl).value;
            && b == cl.(conn := b.conn, localSeq := b.localSeq, snapshotKey := b.snapshotKey, connAt := b.connAt)
            && b.conn.Some? && Faithful(s, b) && 0 <= b.connAt <= cl.mAt && b.snapshotKey == cl.m.snapshot.key
  {
    if NeedsRefresh(cl) {
      EpochStart(s.hist, cl.mAt);
      var i := cl.mAt - |cl.m.log|;
      assert WellKeyed(s.content, s.hist[i]) && ValidManifest(s.hist[i]);
    }
  }

  /** `applyLog` after k entries: the cached database moved k positions along the history. */
  lemma AppliedFaithful(s: Store, b: Client, k: nat)
    requires StoreInv(s) && HasLoaded(s, b.m, b.etag, b.mAt)
    requires b.conn.Some? && Faithful(s, b) && b.connAt <= b.mAt && b.snapshotKey == b.m.snapshot.key
    ensures |Need(b.m.log, b.localSeq)| == b.mAt - b.connAt
    ensures k <= b.mAt - b.connAt ==>
              var x := AppliedEntries(s.content, b, k);
              x.Some? && x.value.conn.Some? && Faithful(s, x.value) && x.value.connAt == b.connAt + k
  {
    var j := if k <= b.mAt - b.connAt then b.connAt + k else b.mAt;
    EpochSlice(s.hist, b.connAt, j, b.mAt);
    StatesWithinEpoch(s, b.connAt, j);
  }

  /** Cache agreement: on both paths a successful sync leaves the replay of the loaded manifest,
      and a failed one leaves nothing or a faithful prefix. */
  lemma SyncAgrees(s: Store, cl: Client, outcome: SyncOutcome)
    requires StoreInv(s) && SyncOk(s, cl) && Synced(s.content, cl, outcome).Some?
    ensures var x := Synced(s.content, cl, outcome).value;
            && x == cl.(conn := x.conn, localSeq := x.localSeq, snapshotKey := x.snapshotKey, connAt := x.connAt)
            && Faithful(s, x)
            && (outcome.Completed? ==> AtManifest(s, x) && x.conn == Replay(s.content, x.m))
  {
    if !outcome.DownloadFailed? {
      SyncBaseFaithful(s, cl);
      var b := SyncBase(s.content, cl).value;
      AppliedFaithful(s, b, if outcome.Completed? then |Need(b.m.log, b.localSeq)| else outcome.applied);
    }
  }

  lemma SyncedClient(s: Store, cl: Client, outcome: SyncOutcome, x: Client)
    requires StoreInv(s) && cl.op.Syncing? && ClientInv(s, cl) && Synced(s.content, cl, outcome) == Some(x)
    ensures ClientInv(s, x.(op := Idle))
    ensures outcome.Completed? ==>
              var y := x.(op := AfterSync(x, cl.op.purpose));
              && ClientInv(s, y)
              && (Owned(y).None? || Owned(y) == Owned(cl))
              && (Active(y).None? || Active(y) == Active(cl))
  {
    SyncAgrees(s, cl, outcome);
  }

  lemma StepSync(w: World, c: nat, cl: Client, outcome: SyncOutcome, v: World)
    requires Inv(w) && c in w.clients && w.clients[c] == cl && NextSync(w, c, cl, outcome) == Some(v)
    ensures Inv(v)
  {
    var x, p := Synced(w.store.content, cl, outcome).value, cl.op.purpose;
    SyncedClient(w.store, cl, outcome, x);
    if outcome.Completed? {
      Moves(w, c, w.store, x.(op := AfterSync(x, p)));
    } else if p.ForUpdate? {
      Ends(w, c, w.store, x, p.call, Error);
    } else {
      Moves(w, c, w.store, x.(op := Idle));
    }
  }

  lemma StepLoad(w: World, c: nat, cl: Client, p: Purpose, v: World)
    requires Inv(w) && c in w.clients && w.clients[c] == cl && NextLoad(w, c, cl, p) == Some(v)
    ensures Inv(v)
  {
    OthersKept(w, v, c);
    OwnedKept(w, v, c);
    if p.ForUpdate? {
      CallStarted(w, v, c);
    } else {
      CallKept(w, v, c);
    }
  }

  // ---------------------------------------------------------------- update

  lemma CaptureStep(s: Store, cl: Client, after: Database, key: Key, t: Store)
    requires StoreInv(s) && cl.op.Capturing? && ClientInv(s, cl) && SameShape(cl.conn.value, after)
    requires key.CsKey? && key.epoch == Epoch(cl.m) && key !in s.content
    requires t == PutBlob(s, key, CsBlob(Diff(cl.conn.value, after)), Answered)
    ensures ClientInv(t, cl.(
          conn := Some(after),
          op := CasReady(Upd(cl.op.call, key, Diff(cl.conn.value, after), cl.conn.value, cl.localSeq, cl.connAt,
              after))))
  {
    CaptureReplays(cl.conn.value, after);
    PutBlobExtends(s, key, CsBlob(Diff(cl.conn.value, after)), Answered);
    StatesFrame(s, t);
  }

  lemma StepCapture(w: World, c: nat, cl: Client, after: Database, id: nat, r: Reply, v: World)
    requires Inv(w) && c in w.clients && w.clients[c] == cl && NextCapture(w, c, cl, after, id, r) == Some(v)
    ensures Inv(v)
  {
    var key, cs := CsKey(Epoch(cl.m), id), Diff(cl.conn.value, after);
    PutBlobExtends(w.store, key, CsBlob(cs), r);
    if r.Answered? {
      CaptureStep(w.store, cl, after, key, v.store);
      Moves(w, c, v.store, v.clients[c]);
    } else {
      ClientFrame(w.store, v.store, cl);
      Ends(w, c, v.store, cl, cl.op.call, Error);
    }
  }

  /** Where a conditional write with our ETag goes through, nobody wrote since we loaded. */
  lemma MatchIsLatest(s: Store, m: Manifest, etag: ETag, at: int)
    requires StoreInv(s) && HasLoaded(s, m, etag, at) && Meets(s, PutCondition(etag, false))
    ensures at == |s.hist| - 1
  {
    NoAba(s.hist, at, |s.hist| - 1);
  }

  lemma CommitExtends(s: Store, cl: Client, u: Upd)
    requires StoreInv(s) && UpdateOk(s, cl, u) && cl.mAt == |s.hist| - 1
    ensures var m := Stamped(CommitManifest(cl, u));
            && ValidManifest(m) && Disciplined(s.hist + [m]) && WellKeyed(s.content, m)
            && m.log[|m.log| - 1].key == u.key && m.snapshot.key == cl.snapshotKey
  {
    CommitShape(cl, u);
    CommitDisciplined(s.hist, cl, u);
    CommitKeyed(s.content, cl, u);
  }

  lemma CommitDisciplined(hist: seq<Manifest>, cl: Client, u: Upd)
    requires Disciplined(hist) && hist != [] && cl.m == hist[|hist| - 1] && u.key != NoKey
    ensures Disciplined(hist + [Stamped(CommitManifest(cl, u))])
  {
    CommitShape(cl, u);
    ExtendHistory(hist, Stamped(CommitManifest(cl, u)));
  }

  lemma CommitShape(cl: Client, u: Upd)
    requires ValidManifest(cl.m) && cl.m.formatVersion == FORMAT_VERSION && u.key != NoKey
    ensures var m := Stamped(CommitManifest(cl, u));
            && ValidManifest(m) && Appends(cl.m, m) && m.formatVersion == FORMAT_VERSION
            && m.log != [] && m.log[|m.log| - 1].key == u.key && m.snapshot == cl.m.snapshot
  {
    AppendIsDisciplined(cl.m, LogEntry(u.key, cl.m.seqNo + 1, |u.cs|));
  }

  lemma CommitKeyed(content: map<Key, Blob>, cl: Client, u: Upd)
    requires WellKeyed(content, cl.m) && cl.snapshotKey == cl.m.snapshot.key
    requires u.key.CsKey? && u.key.epoch == cl.snapshotKey && u.key in content && content[u.key].CsBlob?
    ensures WellKeyed(content, Stamped(CommitManifest(cl, u)))
  {
    var m := Stamped(CommitManifest(cl, u));
    forall j | 0 <= j < |m.log| ensures EntryKeyed(content, m, j) {
      if j < |cl.m.log| {
        assert EntryKeyed(content, cl.m, j);
      }
    }
  }

  lemma CommitMentions(s: Store, cl: Client, u: Upd)
    requires HasLoaded(s, cl.m, cl.etag, cl.mAt)
    ensures forall k :: Mentions(Stamped(CommitManifest(cl, u)), k) ==> k == u.key || !Unreferenced(s, k)
  {
    var m := Stamped(CommitManifest(cl, u));
    forall k | Mentions(m, k) && k != u.key ensures !Unreferenced(s, k) {
      if m.snapshot.key != k {
        var j :| 0 <= j < |m.log| && m.log[j].key == k;
        assert cl.m.log[j].key == k;
      }
      assert Mentions(s.hist[cl.mAt], k);
    }
  }

  lemma CommitReplay(content: map<Key, Blob>, cl: Client, u: Upd)
    requires Replay(content, cl.m).Some? && u.key in content && content[u.key] == CsBlob(u.cs)
    ensures Replay(content, Stamped(CommitManifest(cl, u))) == Apply(Replay(content, cl.m).value, u.cs)
  {
    var e := LogEntry(u.key, cl.m.seqNo + 1, |u.cs|);
    assert CommitManifest(cl, u) == AppendLog(cl.m, e);
    AppendReplay(content, cl.m, e, u.cs);
  }

  lemma CommitEventOk(s: Store, t: Store, cl: Client, u: Upd)
    requires StoreInv(s) && UpdateOk(s, cl, u) && cl.connAt == cl.mAt == |s.hist| - 1
    requires t == s.(hist := s.hist + [Stamped(CommitManifest(cl, u))], events := s.events + [CommitEvent(u)])
    ensures EventOk(t, |s.hist|) && StateAt(t, |s.hist|) == cl.conn
  {
    CommitExtends(s, cl, u);
    StatesFrame(s, t);
    CommitReplay(s.content, cl, u);
  }

  lemma CommitIsNew(s: Store, u: Upd)
    requires StoreInv(s) && Unreferenced(s, u.key) && NeverCommitted(s, u.call)
    ensures forall i :: 0 <= i < |s.events| && s.events[i].Txn? ==>
              s.events[i].call != u.call && s.events[i].key != u.key
  {
    forall i | 0 <= i < |s.events| && s.events[i].Txn? ensures s.events[i].call != u.call && s.events[i].key != u.key {
      assert EventOk(s, i) && !CommittedBy(s, u.call, i);
      assert !Mentions(s.hist[i], u.key);
    }
  }

  /** The store after our append: the new manifest replays to exactly `conn`. */
  lemma CommitLands(s: Store, t: Store, cl: Client, u: Upd)
    requires StoreInv(s) && UpdateOk(s, cl, u) && cl.connAt == cl.mAt == |s.hist| - 1
    requires Unreferenced(s, u.key) && NeverCommitted(s, u.call)
    requires t == s.(hist := s.hist + [Stamped(CommitManifest(cl, u))], events := s.events + [CommitEvent(u)])
    ensures Extends(s, t) && StoreInv(t) && StateAt(t, |s.hist|) == cl.conn
  {
    CommitExtends(s, cl, u);
    CommitEventOk(s, t, cl, u);
    CommitIsNew(s, u);
    LandKeeps(s, Stamped(CommitManifest(cl, u)), CommitEvent(u));
  }

  /** What (snapshotKey, localSeq) name is one position, so the history variable adds nothing. */
  lemma TruthfulAt(s: Store, cl: Client, i: int)
    requires StoreInv(s) && 0 <= i < |s.hist| && cl.conn.Some?
    requires s.hist[i].snapshot.key == cl.snapshotKey && s.hist[i].seqNo == cl.localSeq
    ensures Truthful(s, cl) <==> StateAt(s, i) == cl.conn
  {
    if StateAt(s, i) == cl.conn {
      assert IsAt(s, i, cl.snapshotKey, cl.localSeq, cl.conn);
    }
    if Truthful(s, cl) {
      var j :| IsAt(s, j, cl.snapshotKey, cl.localSeq, cl.conn);
      if i <= j {
        SeqAndSnapshotPinPosition(s.hist, i, j);
      } else {
        SeqAndSnapshotPinPosition(s.hist, j, i);
      }
    }
  }

  /** Without a clean rebase the savepoint was taken at the position `localSeq` still names. */
  lemma NoRebaseNoMove(s: Store, cl: Client, u: Upd)
    requires StoreInv(s) && UpdateOk(s, cl, u) && cl.localSeq == u.saveSeq
    ensures StateAt(s, cl.mAt) == Some(u.save)
  {
    if u.saveAt <= cl.mAt {
      SeqAndSnapshotPinPosition(s.hist, u.saveAt, cl.mAt);
    } else {
      SeqAndSnapshotPinPosition(s.hist, cl.mAt, u.saveAt);
    }
  }

  /** Exactly when a rollback leaves a cache that is what (snapshotKey, localSeq) say. */
  lemma RollbackFaithful(s: Store, restore: bool, cl: Client, u: Upd)
    requires StoreInv(s) && UpdateOk(s, cl, u)
    ensures var x := Rollback(restore, cl, u);
            && (Truthful(s, x) <==> SafeRollback(s, restore, cl, u))
            && (Faithful(s, x) <==> SafeRollback(s, restore, cl, u))
  {
    TruthfulAt(s, Rollback(restore, cl, u), if restore then u.saveAt else cl.mAt);
    if cl.localSeq == u.saveSeq {
      NoRebaseNoMove(s, cl, u);
    }
  }

  lemma WonClient(s: Store, t: Store, cl: Client, u: Upd)
    requires StoreInv(s) && UpdateOk(s, cl, u) && cl.connAt == cl.mAt == |s.hist| - 1
    requires t == s.(hist := s.hist + [Stamped(CommitManifest(cl, u))], events := s.events + [CommitEvent(u)])
    requires StateAt(t, |s.hist|) == cl.conn
    ensures var m := Stamped(CommitManifest(cl, u));
            ClientInv(t, cl.(m := m, etag := Md5(m), mAt := |s.hist|, localSeq := cl.m.seqNo + 1, connAt := |s.hist|,
                op := Idle))
  {
  }

  function WithManifest(s: Store, m: Manifest, ev: Event): Store {
    s.(hist := s.hist + [m], events := s.events + [ev])
  }

  /** A call's append lands, and the call ends (knowing it or not). */
  lemma LandsTxn(w: World, c: nat, m: Manifest, ev: Event, x: Client, outcome: Outcome)
    requires Inv(w) && c in w.clients
    requires StoreInv(WithManifest(w.store, m, ev)) && ClientInv(WithManifest(w.store, m, ev), x.(op := Idle))
    requires ev.Txn? && Active(w.clients[c]) == Some(ev.call) && (outcome.Committed? || outcome.Error?)
    requires forall k :: Mentions(m, k) ==> Owned(w.clients[c]) == Some(k) || !Unreferenced(w.store, k)
    ensures Inv(Finish(w.(store := WithManifest(w.store, m, ev)), c, x, ev.call, outcome))
  {
    var v := Finish(w.(store := WithManifest(w.store, m, ev)), c, x, ev.call, outcome);
    OthersKept(w, v, c);
    OwnedLanded(w, v, c, m);
    CallFinished(w, v, c, ev.call, outcome);
  }

  /** A new snapshot lands. */
  lemma LandsSwap(w: World, c: nat, m: Manifest, ev: Event, x: Client)
    requires Inv(w) && c in w.clients
    requires StoreInv(WithManifest(w.store, m, ev)) && ClientInv(WithManifest(w.store, m, ev), x)
    requires !ev.Txn? && m.log == [] && (Owned(w.clients[c]) == Some(m.snapshot.key) || m.snapshot.key == InitKey)
    requires Owned(x).None? && Active(x).None?
    ensures Inv(Move(w, c, WithManifest(w.store, m, ev), x))
  {
    var v := Move(w, c, WithManifest(w.store, m, ev), x);
    OthersKept(w, v, c);
    OwnedLanded(w, v, c, m);
    CallLanded(w, v, c, ev);
  }

  /** The client's part of Inv: an unfaithful idle client refutes it. */
  lemma Refuted(v: World, c: nat)
    requires c in v.clients && !ClientInv(v.store, v.clients[c])
    ensures !Inv(v)
  {
  }

  /** Our append landed: the store, and what its writer may become. */
  lemma CommitLanded(s: Store, cl: Client, u: Upd, restore: bool)
    requires StoreInv(s) && UpdateOk(s, cl, u) && cl.connAt == cl.mAt
    requires Unreferenced(s, u.key) && NeverCommitted(s, u.call)
    requires Meets(s, PutCondition(cl.etag, false))
    ensures var m := Stamped(CommitManifest(cl, u));
            var t := WithManifest(s, m, CommitEvent(u));
            && StoreInv(t)
            && ClientInv(t, cl.(m := m, etag := Md5(m), mAt := |s.hist|, localSeq := cl.m.seqNo + 1,
                connAt := |s.hist|, op := Idle))
            && (Faithful(t, Rollback(restore, cl, u)) <==> SafeRollback(s, restore, cl, u))
            && (Truthful(t, Rollback(restore, cl, u)) <==> SafeRollback(s, restore, cl, u))
            && forall k :: Mentions(m, k) ==> k == u.key || !Unreferenced(s, k)
  {
    var t := WithManifest(s, Stamped(CommitManifest(cl, u)), CommitEvent(u));
    MatchIsLatest(s, cl.m, cl.etag, cl.mAt);
    CommitMentions(s, cl, u);
    CommitLands(s, t, cl, u);
    WonClient(s, t, cl, u);
    StatesFrame(s, t);
    RollbackFaithful(t, restore, cl, u);
  }

  function CommittedClient(s: Store, cl: Client, u: Upd): Client {
    var m := Stamped(CommitManifest(cl, u));
    cl.(m := m, etag := Md5(m), mAt := |s.hist|, localSeq := cl.m.seqNo + 1, connAt := |s.hist|)
  }

  /** The world after an append that landed, known or not. */
  lemma CommitLandedShape(w: World, c: nat, cl: Client, u: Upd, r: Reply)
    requires cl.op == CasReady(u) && Lands(w.store, CommitManifest(cl, u), PutCondition(cl.etag, false), r)
    ensures var t := WithManifest(w.store, Stamped(CommitManifest(cl, u)), CommitEvent(u));
            NextCommit(w, c, cl, r) ==
              if r.Answered? then Finish(w.(store := t), c, CommittedClient(w.store, cl, u), u.call, Committed)
              else Finish(w.(store := t), c, Rollback(w.restoreSeqOnRollback, cl, u), u.call, Error)
  {
  }

  lemma StepCommitWon(w: World, c: nat, cl: Client, u: Upd)
    requires Inv(w) && c in w.clients && w.clients[c] == cl && cl.op == CasReady(u)
    requires Lands(w.store, CommitManifest(cl, u), PutCondition(cl.etag, false), Answered)
    ensures Inv(NextCommit(w, c, cl, Answered))
  {
    assert OwnedOk(w.store, cl) && ActiveOk(w, c) && ClientInv(w.store, cl);
    CommitLanded(w.store, cl, u, w.restoreSeqOnRollback);
    LandsTxn(w, c, Stamped(CommitManifest(cl, u)), CommitEvent(u), CommittedClient(w.store, cl, u), Committed);
    CommitLandedShape(w, c, cl, u, Answered);
  }

  lemma StepCommitHidden(w: World, c: nat, cl: Client, u: Upd)
    requires Inv(w) && c in w.clients && w.clients[c] == cl && cl.op == CasReady(u)
    requires Lands(w.store, CommitManifest(cl, u), PutCondition(cl.etag, false), Failed(true))
    ensures Inv(NextCommit(w, c, cl, Failed(true))) <==> SafeRollback(w.store, w.restoreSeqOnRollback, cl, u)
  {
    assert OwnedOk(w.store, cl) && ActiveOk(w, c) && ClientInv(w.store, cl);
    CommitLanded(w.store, cl, u, w.restoreSeqOnRollback);
    CommitLandedShape(w, c, cl, u, Failed(true));
    if SafeRollback(w.store, w.restoreSeqOnRollback, cl, u) {
      LandsTxn(w, c, Stamped(CommitManifest(cl, u)), CommitEvent(u), Rollback(w.restoreSeqOnRollback, cl, u), Error);
    } else {
      Refuted(NextCommit(w, c, cl, Failed(true)), c);
    }
  }

  /** Any end of a call that rolls back without a manifest write. */
  lemma StepRollback(w: World, c: nat, cl: Client, u: Upd, outcome: Outcome)
    requires Inv(w) && c in w.clients && w.clients[c] == cl && !outcome.Committed?
    requires (cl.op.CasReady? || cl.op.CasLost? || cl.op.Rebasing?) && cl.op.u == u
    ensures var v := Finish(w, c, Rollback(w.restoreSeqOnRollback, cl, u), u.call, outcome);
            Inv(v) <==> SafeRollback(w.store, w.restoreSeqOnRollback, cl, u)
  {
    var v := Finish(w, c, Rollback(w.restoreSeqOnRollback, cl, u), u.call, outcome);
    RollbackFaithful(w.store, w.restoreSeqOnRollback, cl, u);
    if SafeRollback(w.store, w.restoreSeqOnRollback, cl, u) {
      Ends(w, c, w.store, Rollback(w.restoreSeqOnRollback, cl, u), u.call, outcome);
    } else {
      Refuted(v, c);
    }
  }

  /** A commit's CAS rolls back exactly when its answer is an error. */
  lemma SafeCas(w: World, c: nat, cl: Client, u: Upd, r: Reply)
    requires c in w.clients && w.clients[c] == cl && cl.op == CasReady(u)
    ensures Safe(w, Cas(c, r)) <==>
              (PutOutcome(w.store, CommitManifest(cl, u), PutCondition(cl.etag, false), r).Unknown? ==>
                 SafeRollback(w.store, w.restoreSeqOnRollback, cl, u))
  {
  }

  lemma CommitLost(w: World, c: nat, cl: Client, u: Upd, r: Reply)
    requires cl.op == CasReady(u) && !Lands(w.store, CommitManifest(cl, u), PutCondition(cl.etag, false), r)
    ensures NextCommit(w, c, cl, r) ==
              if PutOutcome(w.store, CommitManifest(cl, u), PutCondition(cl.etag, false), r).Unknown?
              then Finish(w, c, Rollback(w.restoreSeqOnRollback, cl, u), u.call, Error)
              else Move(w, c, w.store, cl.(op := CasLost(u)))
  {
  }

  lemma LostClient(s: Store, cl: Client, u: Upd)
    requires ClientInv(s, cl) && cl.op == CasReady(u)
    ensures ClientInv(s, cl.(op := CasLost(u))) && KeepsNames(s, s, cl, cl.(op := CasLost(u)))
  {
  }

  lemma StepCommitLost(w: World, c: nat, cl: Client, u: Upd, r: Reply)
    requires Inv(w) && c in w.clients && w.clients[c] == cl && cl.op == CasReady(u)
    requires !Lands(w.store, CommitManifest(cl, u), PutCondition(cl.etag, false), r)
    ensures Inv(NextCommit(w, c, cl, r)) <==>
              (PutOutcome(w.store, CommitManifest(cl, u), PutCondition(cl.etag, false), r).Unknown? ==>
                 SafeRollback(w.store, w.restoreSeqOnRollback, cl, u))
  {
    CommitLost(w, c, cl, u, r);
    if PutOutcome(w.store, CommitManifest(cl, u), PutCondition(cl.etag, false), r).Unknown? {
      StepRollback(w, c, cl, u, Error);
    } else {
      assert ClientInv(w.store, cl);
      LostClient(w.store, cl, u);
      Moves(w, c, w.store, cl.(op := CasLost(u)));
    }
  }

  lemma StepCommit(w: World, c: nat, cl: Client, r: Reply)
    requires Inv(w) && c in w.clients && w.clients[c] == cl && cl.op.CasReady?
    ensures Inv(NextCommit(w, c, cl, r)) <==> Safe(w, Cas(c, r))
  {
    var u := cl.op.u;
    SafeCas(w, c, cl, u, r);
    if Lands(w.store, CommitManifest(cl, u), PutCondition(cl.etag, false), r) {
      if r.Answered? {
        StepCommitWon(w, c, cl, u);
      } else {
        StepCommitHidden(w, c, cl, u);
      }
    } else {
      StepCommitLost(w, c, cl, u, r);
    }
  }

  // ---------------------------------------------------------------- rebase

  lemma ResyncClient(w: World, cl: Client, u: Upd, m2: Manifest, etag2: ETag, m2At: int)
    requires StoreInv(w.store) && UpdateOk(w.store, cl, u) && HasLoaded(w.store, m2, etag2, m2At)
    requires u.saveAt <= m2At && cl.mAt <= m2At
    ensures ClientInv(w.store, Resync(w, cl, u, m2, etag2, m2At))
       <==> (m2.snapshot.key != cl.snapshotKey || SafeRollback(w.store, w.restoreSeqOnRollback, cl, u))
  {
    RollbackFaithful(w.store, w.restoreSeqOnRollback, cl, u);
  }

  lemma ReloadClient(w: World, cl: Client, u: Upd, n: int)
    requires StoreInv(w.store) && UpdateOk(w.store, cl, u) && cl.connAt == cl.mAt && cl.op == CasLost(u)
    requires n == |w.store.hist| - 1
    ensures var x := Reloaded(w, cl, u, w.store.hist[n], n);
            ClientInv(w.store, x) && KeepsNames(w.store, w.store, cl, x)
  {
    var m2 := w.store.hist[n];
    if m2.snapshot.key == cl.snapshotKey {
      EpochSlice(w.store.hist, cl.mAt, cl.mAt, n);
    } else {
      ResyncClient(w, cl, u, m2, Md5(m2), n);
    }
  }

  lemma StepReload(w: World, c: nat, cl: Client, v: World)
    requires Inv(w) && c in w.clients && w.clients[c] == cl && NextReload(w, c, cl) == Some(v)
    ensures Inv(v)
  {
    var n := |w.store.hist| - 1;
    ReloadClient(w, cl, cl.op.u, n);
    Moves(w, c, w.store, Reloaded(w, cl, cl.op.u, w.store.hist[n], n));
  }

  /** One entry of theirs on top of ours: clean means both orders meet. */
  lemma RebasedFurther(s: Store, cl: Client, u: Upd, e: LogEntry, theirs: Changeset, db: Database, x: Client)
    requires StoreInv(s) && UpdateOk(s, cl, u)
    requires x == cl.(conn := Some(db), connAt := cl.connAt + 1, op := x.op)
    requires cl.connAt + 1 < |s.hist| && s.hist[cl.connAt + 1].snapshot.key == cl.snapshotKey
    requires |s.hist[cl.connAt].log| < |s.hist[cl.connAt + 1].log|
               && s.hist[cl.connAt + 1].log[|s.hist[cl.connAt].log|..] == [e]
    requires EntryChanges(s.content, e) == Some(theirs) && Apply(cl.conn.value, theirs) == Some(db)
    ensures UpdateOk(s, x, u)
  {
    var i := cl.connAt;
    StatesWithinEpoch(s, i, i + 1);
    var base := StateAt(s, i).value;
    assert ApplyEntries(s.content, base, [e]) == ApplyEntry(s.content, base, e);
    RebaseOne(base, u.cs, theirs);
  }

  lemma CleanRebaseClient(s: Store, cl: Client, theirs: Changeset, db: Database)
    requires StoreInv(s) && cl.op.Rebasing? && ClientInv(s, cl) && cl.op.todo != []
    requires EntryChanges(s.content, cl.op.todo[0]) == Some(theirs) && Apply(cl.conn.value, theirs) == Some(db)
    ensures var Rebasing(u, m2, etag2, m2At, todo) := cl.op;
            ClientInv(s, cl.(conn := Some(db), connAt := cl.connAt + 1, op := Rebasing(u, m2, etag2, m2At, todo[1..])))
  {
    var Rebasing(u, m2, etag2, m2At, todo) := cl.op;
    var x := cl.(conn := Some(db), connAt := cl.connAt + 1, op := Rebasing(u, m2, etag2, m2At, todo[1..]));
    NextPosition(s.hist, cl.connAt, m2At);
    RebasedFurther(s, cl, u, todo[0], theirs, db, x);
    assert x.op.todo == m2.log[|s.hist[x.connAt].log|..];
  }

  lemma StepRebaseEntry(w: World, c: nat, cl: Client, v: World)
    requires Inv(w) && c in w.clients && w.clients[c] == cl && NextRebaseEntry(w, c, cl) == Some(v)
    ensures Inv(v) <==> Safe(w, RebaseEntry(c))
  {
    var theirs := EntryChanges(w.store.content, cl.op.todo[0]).value;
    assert v == Move(w, c, w.store, RebasedBy(w, cl, theirs));
    match Apply(cl.conn.value, theirs)
    case Some(db) =>
      StepCleanRebase(w, c, cl, theirs, db);
      assert Inv(v) && Safe(w, RebaseEntry(c));
    case None =>
      StepResync(w, c, cl);
      assert RollsBack(w, RebaseEntry(c));
  }

  lemma StepCleanRebase(w: World, c: nat, cl: Client, theirs: Changeset, db: Database)
    requires Inv(w) && c in w.clients && w.clients[c] == cl && cl.op.Rebasing? && cl.op.todo != []
    requires EntryChanges(w.store.content, cl.op.todo[0]) == Some(theirs) && cl.conn.Some?
               && Apply(cl.conn.value, theirs) == Some(db)
    ensures var Rebasing(u, m2, etag2, m2At, todo) := cl.op;
            Inv(Move(w, c, w.store, cl.(conn := Some(db), connAt := cl.connAt + 1,
                op := Rebasing(u, m2, etag2, m2At, todo[1..]))))
  {
    var Rebasing(u, m2, etag2, m2At, todo) := cl.op;
    CleanRebaseClient(w.store, cl, theirs, db);
    Moves(w, c, w.store, cl.(conn := Some(db), connAt := cl.connAt + 1, op := Rebasing(u, m2, etag2, m2At, todo[1..])));
  }

  lemma StepResync(w: World, c: nat, cl: Client)
    requires Inv(w) && c in w.clients && w.clients[c] == cl && cl.op.Rebasing?
    ensures var x := Resync(w, cl, cl.op.u, cl.op.m2, cl.op.etag2, cl.op.m2At);
            Inv(Move(w, c, w.store, x)) <==> SafeRollback(w.store, w.restoreSeqOnRollback, cl, cl.op.u)
  {
    var x := Resync(w, cl, cl.op.u, cl.op.m2, cl.op.etag2, cl.op.m2At);
    ResyncClient(w, cl, cl.op.u, cl.op.m2, cl.op.etag2, cl.op.m2At);
    if SafeRollback(w.store, w.restoreSeqOnRollback, cl, cl.op.u) {
      Moves(w, c, w.store, x);
    } else {
      Refuted(Move(w, c, w.store, x), c);
    }
  }

  lemma RebaseDoneClient(s: Store, cl: Client)
    requires StoreInv(s) && cl.op.Rebasing? && ClientInv(s, cl) && cl.op.todo == []
    ensures var Rebasing(u, m2, etag2, m2At, _) := cl.op;
            ClientInv(s, cl.(m := m2, etag := etag2, mAt := m2At, localSeq := m2.seqNo, op := CasReady(u)))
  {
    SameEpochIsPrefix(s.hist, cl.connAt, cl.op.m2At);
  }

  lemma StepRebaseDone(w: World, c: nat, cl: Client, v: World)
    requires Inv(w) && c in w.clients && w.clients[c] == cl && NextRebaseDone(w, c, cl) == Some(v)
    ensures Inv(v)
  {
    RebaseDoneClient(w.store, cl);
    Moves(w, c, w.store, v.clients[c]);
  }
}
