/** The invariant of the protocol: what every reachable store satisfies, and what every client
    knows at each point of each operation. */
module Invariant {
  import opened Basics
  import opened Changesets
  import opened Manifests
  import opened Protocol

  // ---------------------------------------------------------------- the store

  predicate EntryKeyed(content: map<Key, Blob>, m: Manifest, j: nat)
    requires j < |m.log|
  {
    var k := m.log[j].key;
    k.CsKey? && k.epoch == m.snapshot.key && k in content && content[k].CsBlob?
  }

  /** Everything a manifest names exists, and its log lies in its own epoch. */
  ghost predicate WellKeyed(content: map<Key, Blob>, m: Manifest) {
    && (m.snapshot.key.SnapKey? || m.snapshot.key.InitKey?)
    && m.snapshot.key in content && content[m.snapshot.key].SnapBlob?
    && forall j :: 0 <= j < |m.log| ==> EntryKeyed(content, m, j)
  }

  ghost predicate EventOk(s: Store, i: int)
    requires 0 <= i < |s.hist| == |s.events|
  {
    var ev := s.events[i];
    && (ev.Created? <==> i == 0)
    && StateAt(s, i).Some? && StateAt(s, i) == Effect(StateAt(s, i - 1), ev)
    && (ev.Txn? <==> i > 0 && s.hist[i].log != [])
    && (ev.Txn? ==>
          && s.hist[i].log[|s.hist[i].log| - 1].key == ev.key
          && 0 <= ev.base < i && s.hist[ev.base].snapshot.key == s.hist[i].snapshot.key
          && StateAt(s, ev.base) == Some(ev.before)
          && Minimal(ev.cs) && Apply(ev.before, ev.cs) == Some(ev.after))
    && (ev.Pushed? ==>
          s.hist[i].schema == s.hist[i - 1].schema && (ev.expected >= 0 ==> s.hist[i - 1].seqNo == ev.expected))
    && (ev.Compacted? ==> s.hist[i].schema == s.hist[i - 1].schema)
    && (ev.Migrated? ==> s.hist[i - 1].schema < ev.version == s.hist[i].schema)
  }

  ghost predicate UniqueCommits(events: seq<Event>) {
    forall i, j :: 0 <= i < j < |events| && events[i].Txn? && events[j].Txn? ==>
      events[i].call != events[j].call && events[i].key != events[j].key
  }

  ghost predicate StoreInv(s: Store) {
    && |s.hist| == |s.events|
    && Disciplined(s.hist)
    && (forall i :: 0 <= i < |s.hist| ==> WellKeyed(s.content, s.hist[i]))
    && (forall i :: 0 <= i < |s.hist| ==> EventOk(s, i))
    && UniqueCommits(s.events)
    && (InitKey in s.content ==> s.content[InitKey] == SnapBlob(EMPTY_DB))
  }

  // ---------------------------------------------------------------- one client

  /** The history position `i` is snapshot `key` with the log up to `seqNo`, and `db` is its state. */
  ghost predicate IsAt(s: Store, i: int, key: Key, seqNo: int, db: Option<Database>) {
    0 <= i < |s.hist| && s.hist[i].snapshot.key == key && s.hist[i].seqNo == seqNo && db.Some? && StateAt(s, i) == db
  }

  /** The cached database is exactly what (snapshotKey, localSeq) claim. */
  ghost predicate Faithful(s: Store, cl: Client) {
    cl.conn.Some? ==> IsAt(s, cl.connAt, cl.snapshotKey, cl.localSeq, cl.conn)
  }

  /** The same without the history variable: the cached database is that of some position that
      (snapshotKey, localSeq) name. */
  ghost predicate Truthful(s: Store, cl: Client) {
    cl.conn.Some? ==> exists i :: IsAt(s, i, cl.snapshotKey, cl.localSeq, cl.conn)
  }

  ghost predicate HasLoaded(s: Store, m: Manifest, etag: ETag, at: int) {
    0 <= at < |s.hist| && s.hist[at] == m && etag == Md5(m)
  }

  /** The cached database is the replay of the loaded manifest. */
  ghost predicate AtManifest(s: Store, cl: Client) {
    && HasLoaded(s, cl.m, cl.etag, cl.mAt)
    && cl.conn.Some? && Faithful(s, cl) && cl.connAt == cl.mAt
  }

  /** The rebase invariant.  `conn` is the state at history position `connAt` with our changeset
      on top, and our changeset applies to that state; the savepoint still holds the state it was
      captured on. */
  ghost predicate Rebased(s: Store, cl: Client, u: Upd) {
    && IsAt(s, u.saveAt, cl.snapshotKey, u.saveSeq, Some(u.save))
    && Minimal(u.cs) && Apply(u.save, u.cs) == Some(u.after)
    && u.saveAt <= cl.connAt < |s.hist| && s.hist[cl.connAt].snapshot.key == cl.snapshotKey
    && StateAt(s, cl.connAt).Some?
    && cl.conn.Some? && Apply(StateAt(s, cl.connAt).value, u.cs) == cl.conn
    && u.key.CsKey? && u.key.epoch == cl.snapshotKey
    && u.key in s.content && s.content[u.key] == CsBlob(u.cs)
  }

  ghost predicate UpdateOk(s: Store, cl: Client, u: Upd) {
    && HasLoaded(s, cl.m, cl.etag, cl.mAt)
    && cl.snapshotKey == cl.m.snapshot.key && cl.localSeq == cl.m.seqNo
    && Rebased(s, cl, u)
  }

  /** A losing `Up` has run on the cached database: it belongs to no manifest, and the snapshot it
      started from is at a schema version below the attempted one. */
  ghost predicate Dirty(s: Store, cl: Client, last: int) {
    && 0 <= cl.connAt < |s.hist| && s.hist[cl.connAt].snapshot.key == cl.snapshotKey
    && NextVersion(cl.migrations, s.hist[cl.connAt].schema) == Some(last)
  }

  ghost predicate Stored(s: Store, key: Key, db: Database) {
    key.SnapKey? && key in s.content && s.content[key] == SnapBlob(db)
  }

  ghost predicate SyncOk(s: Store, cl: Client) {
    && HasLoaded(s, cl.m, cl.etag, cl.mAt)
    && (cl.conn.None? || cl.snapshotKey != cl.m.snapshot.key || (Faithful(s, cl) && cl.connAt <= cl.mAt))
  }

  ghost predicate Pending(cl: Client, version: int) {
    IncreasingVersions(cl.migrations) && NextVersion(cl.migrations, cl.m.schema) == Some(version)
  }

  ghost predicate ClientInv(s: Store, cl: Client) {
    match cl.op
    case Idle => Faithful(s, cl)
    case Syncing(p) => SyncOk(s, cl) && (p.ForMigration? ==> Pending(cl, p.version))
        && (p.ForUpdate? && p.orphan.Some? ==> p.orphan.value.CsKey?)
    case Capturing(_, orphan) => AtManifest(s, cl) && (orphan.Some? ==> orphan.value.CsKey?)
    case CasReady(u) => UpdateOk(s, cl, u) && cl.connAt == cl.mAt
    case CasLost(u) => UpdateOk(s, cl, u) && cl.connAt == cl.mAt
    case Rebasing(u, m2, etag2, m2At, todo) =>
      && UpdateOk(s, cl, u)
      && HasLoaded(s, m2, etag2, m2At) && m2.snapshot.key == cl.snapshotKey
      && cl.mAt <= cl.connAt <= m2At
      && |s.hist[cl.connAt].log| <= |m2.log| && todo == m2.log[|s.hist[cl.connAt].log|..]
    case Compacting => AtManifest(s, cl)
    case CompactReady(key) => AtManifest(s, cl) && Stored(s, key, cl.conn.value)
    case MigrationTop(last) =>
      IncreasingVersions(cl.migrations) && (Faithful(s, cl) || Dirty(s, cl, last))
    case Migrating(v) => AtManifest(s, cl) && Pending(cl, v)
    case MigrationReady(v, key, before) =>
      && HasLoaded(s, cl.m, cl.etag, cl.mAt) && cl.connAt == cl.mAt && cl.snapshotKey == cl.m.snapshot.key
      && Pending(cl, v)
      && cl.conn.Some? && Stored(s, key, cl.conn.value) && StateAt(s, cl.mAt) == Some(before)
    case Pushing(pm, petag, pAt, expected) =>
      Faithful(s, cl) && HasLoaded(s, pm, petag, pAt) && (expected >= 0 ==> pm.seqNo == expected)
    case PushReady(pm, petag, pAt, expected, key) =>
      && Faithful(s, cl) && HasLoaded(s, pm, petag, pAt) && (expected >= 0 ==> pm.seqNo == expected)
      && key.SnapKey? && key in s.content && s.content[key].SnapBlob?
    case Sweeping(gm) => AtManifest(s, cl) && gm == cl.m
    case Booting(key, db) =>
      && Faithful(s, cl) && key in s.content && s.content[key] == SnapBlob(db)
      && (key.SnapKey? || key.InitKey?)
  }

  // ---------------------------------------------------------------- names and calls

  ghost predicate Unreferenced(s: Store, k: Key) {
    forall i :: 0 <= i < |s.hist| ==> !Mentions(s.hist[i], k)
  }

  ghost predicate OwnedOk(s: Store, cl: Client) {
    Owned(cl).Some? ==> Owned(cl).value in s.content && Owned(cl).value != InitKey && Unreferenced(s, Owned(cl).value)
  }

  ghost predicate OwnedInv(w: World) {
    && (forall c :: c in w.clients ==> OwnedOk(w.store, w.clients[c]))
    && (forall c, d :: c in w.clients && d in w.clients && c != d && Owned(w.clients[c]).Some? ==>
          Owned(w.clients[c]) != Owned(w.clients[d]))
  }

  /** The `doUpdate` call a client is inside. */
  function Active(cl: Client): Option<nat> {
    match cl.op
    case Syncing(p) => if p.ForUpdate? then Some(p.call) else None
    case Capturing(call, _) => Some(call)
    case CasReady(u) => Some(u.call)
    case CasLost(u) => Some(u.call)
    case Rebasing(u, _, _, _, _) => Some(u.call)
    case _ => None
  }

  ghost predicate CommittedBy(s: Store, call: nat, i: int) {
    0 <= i < |s.events| && s.events[i].Txn? && s.events[i].call == call
  }

  ghost predicate NeverCommitted(s: Store, call: nat) {
    forall i :: 0 <= i < |s.events| ==> !CommittedBy(s, call, i)
  }

  ghost predicate ActiveOk(w: World, c: nat)
    requires c in w.clients
  {
    var a := Active(w.clients[c]);
    a.Some? ==> a.value < w.calls && a.value !in w.results && NeverCommitted(w.store, a.value)
  }

  ghost predicate ResultOk(w: World, call: nat)
    requires call in w.results
  {
    && call < w.calls
    && (w.results[call].Committed? ==> exists i :: CommittedBy(w.store, call, i))
    && (w.results[call].Conflict? || w.results[call].NothingToCommit? ==> NeverCommitted(w.store, call))
  }

  ghost predicate CallInv(w: World) {
    && (forall c :: c in w.clients ==> ActiveOk(w, c))
    && (forall c, d :: c in w.clients && d in w.clients && c != d && Active(w.clients[c]).Some? ==>
          Active(w.clients[c]) != Active(w.clients[d]))
    && (forall n :: n in w.results ==> ResultOk(w, n))
    && (forall i :: 0 <= i < |w.store.events| && w.store.events[i].Txn? ==> w.store.events[i].call < w.calls)
  }

  ghost predicate ClientsInv(w: World) {
    forall c :: c in w.clients ==> ClientInv(w.store, w.clients[c])
  }

  ghost predicate Inv(w: World) {
    StoreInv(w.store) && ClientsInv(w) && OwnedInv(w) && CallInv(w)
  }

  // ---------------------------------------------------------------- growth of the store

  lemma {:induction false} EntriesFrame(a: map<Key, Blob>, b: map<Key, Blob>, db: Database, log: seq<LogEntry>)
    requires forall j :: 0 <= j < |log| ==> log[j].key in a && log[j].key in b && a[log[j].key] == b[log[j].key]
    ensures ApplyEntries(a, db, log) == ApplyEntries(b, db, log)
    decreases |log|
  {
    if log != [] {
      assert ApplyEntry(a, db, log[0]) == ApplyEntry(b, db, log[0]);
      if ApplyEntry(a, db, log[0]).Some? {
        EntriesFrame(a, b, ApplyEntry(a, db, log[0]).value, log[1..]);
      }
    }
  }

  lemma ReplayFrame(a: map<Key, Blob>, b: map<Key, Blob>, m: Manifest)
    requires WellKeyed(a, m) && forall k :: k in a ==> k in b && b[k] == a[k]
    ensures WellKeyed(b, m) && Replay(a, m) == Replay(b, m)
  {
    forall j | 0 <= j < |m.log| ensures EntryKeyed(b, m, j) {
      assert EntryKeyed(a, m, j);
    }
    forall j | 0 <= j < |m.log| ensures m.log[j].key in a && a[m.log[j].key] == b[m.log[j].key] {
      assert EntryKeyed(a, m, j);
    }
    EntriesFrame(a, b, a[m.snapshot.key].db, m.log);
  }

  lemma StatesFrame(s: Store, t: Store)
    requires Extends(s, t)
    requires forall i :: 0 <= i < |s.hist| ==> WellKeyed(s.content, s.hist[i])
    ensures forall i :: 0 <= i < |s.hist| ==> WellKeyed(t.content, t.hist[i])
    ensures forall i :: i < |s.hist| ==> StateAt(t, i) == StateAt(s, i)
  {
    forall i | 0 <= i < |s.hist| ensures WellKeyed(t.content, t.hist[i]) && StateAt(t, i) == StateAt(s, i) {
      ReplayFrame(s.content, t.content, s.hist[i]);
    }
  }

  lemma EventFrame(s: Store, t: Store, i: int)
    requires StoreInv(s) && Extends(s, t) && |t.hist| == |t.events| && 0 <= i < |s.hist|
    ensures EventOk(t, i)
  {
    StatesFrame(s, t);
    assert EventOk(s, i);
  }

  /** What a client knows survives whatever the others do to the store. */
  lemma ClientFrame(s: Store, t: Store, cl: Client)
    requires StoreInv(s) && Extends(s, t) && ClientInv(s, cl)
    ensures ClientInv(t, cl)
  {
    StatesFrame(s, t);
  }

  // ---------------------------------------------------------------- replay lemmas

  lemma {:induction false} EntriesConcat(content: map<Key, Blob>, db: Database, a: seq<LogEntry>, b: seq<LogEntry>)
    ensures ApplyEntries(content, db, a + b)
         == (match ApplyEntries(content, db, a) case None => None case Some(d) => ApplyEntries(content, d, b))
    decreases |a|
  {
    if a == [] {
      assert a + b == b;
    } else {
      assert (a + b)[1..] == a[1..] + b;
      if ApplyEntry(content, db, a[0]).Some? {
        EntriesConcat(content, ApplyEntry(content, db, a[0]).value, a[1..], b);
      }
    }
  }

  /** Within an epoch, the state at a later position is the state at an earlier one with the
      entries in between applied. */
  lemma StatesWithinEpoch(s: Store, i: int, j: int)
    requires StoreInv(s) && 0 <= i <= j < |s.hist| && s.hist[i].snapshot.key == s.hist[j].snapshot.key
    ensures |s.hist[i].log| <= |s.hist[j].log|
    ensures StateAt(s, i).Some? && StateAt(s, j).Some?
    ensures ApplyEntries(s.content, StateAt(s, i).value, s.hist[j].log[|s.hist[i].log|..]) == StateAt(s, j)
  {
    SameEpochIsPrefix(s.hist, i, j);
    assert EventOk(s, i) && EventOk(s, j);
    var mi, mj := s.hist[i], s.hist[j];
    assert mj.log == mi.log + mj.log[|mi.log|..];
    EntriesConcat(s.content, s.content[mi.snapshot.key].db, mi.log, mj.log[|mi.log|..]);
  }

  /** Appending an entry to a manifest applies its changeset to what the manifest stood for. */
  lemma AppendReplay(content: map<Key, Blob>, m: Manifest, e: LogEntry, cs: Changeset)
    requires Replay(content, m).Some? && EntryChanges(content, e) == Some(cs)
    ensures Replay(content, Stamped(AppendLog(m, e))) == Apply(Replay(content, m).value, cs)
  {
    EntriesConcat(content, content[m.snapshot.key].db, m.log, [e]);
    var d := Replay(content, m).value;
    assert ApplyEntries(content, d, [e]) == ApplyEntry(content, d, e);
  }

  // ---------------------------------------------------------------- store steps keep StoreInv

  lemma PutBlobExtends(s: Store, k: Key, b: Blob, r: Reply)
    requires StoreInv(s)
    requires k == InitKey ==> b == SnapBlob(EMPTY_DB)
    ensures Extends(s, PutBlob(s, k, b, r)) && StoreInv(PutBlob(s, k, b, r))
  {
    var t := PutBlob(s, k, b, r);
    StatesFrame(s, t);
    forall i | 0 <= i < |t.hist| ensures EventOk(t, i) {
      EventFrame(s, t, i);
    }
  }

  lemma DeleteBlobsKeeps(s: Store, ks: set<Key>)
    requires StoreInv(s)
    ensures Extends(s, DeleteBlobs(s, ks)) && StoreInv(DeleteBlobs(s, ks))
  {
    var t := DeleteBlobs(s, ks);
    StatesFrame(s, t);
    forall i | 0 <= i < |t.hist| ensures EventOk(t, i) {
      EventFrame(s, t, i);
    }
  }

  /** Landing one more manifest. */
  lemma LandKeeps(s: Store, m: Manifest, ev: Event)
    requires StoreInv(s)
    requires Disciplined(s.hist + [m]) && WellKeyed(s.content, m)
    requires ev.Txn? ==> forall i :: 0 <= i < |s.events| && s.events[i].Txn? ==>
               s.events[i].call != ev.call && s.events[i].key != ev.key
    requires var t := s.(hist := s.hist + [m], events := s.events + [ev]); EventOk(t, |s.hist|)
    ensures var t := s.(hist := s.hist + [m], events := s.events + [ev]); Extends(s, t) && StoreInv(t)
  {
    var t := s.(hist := s.hist + [m], events := s.events + [ev]);
    forall i | 0 <= i < |t.hist| ensures EventOk(t, i) {
      if i < |s.hist| {
        EventFrame(s, t, i);
      }
    }
  }
}
