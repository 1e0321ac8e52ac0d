/** What a step may change, for every action: its own client, additions to the store, and a fresh
    name at most.  Nothing here depends on the invariant. */
module Frames {
  import opened Basics
  import opened Changesets
  import opened Manifests
  import opened Protocol

  /** A step of client `c` leaves every other client alone, only adds to the store, and makes `c`
      the owner of nothing but a fresh name. */
  ghost predicate Framed(w: World, v: World, c: nat) {
    && c in w.clients && v.clients.Keys == w.clients.Keys
    && (forall d :: d in w.clients && d != c ==> v.clients[d] == w.clients[d])
    && v.restoreSeqOnRollback == w.restoreSeqOnRollback
    && v.clients[c].migrations == w.clients[c].migrations && v.clients[c].schemaVer == w.clients[c].schemaVer
    && Extends(w.store, v.store)
    && (Owned(v.clients[c]).None? || Owned(v.clients[c]) == Owned(w.clients[c])
        || Owned(v.clients[c]).value !in w.store.content)
  }

  /** ... and writes no manifest. */
  ghost predicate Quiet(w: World, v: World, c: nat) {
    Framed(w, v, c) && v.store.hist == w.store.hist && v.store.events == w.store.events
  }

  /** The client that swapped the snapshot. */
  function SwapAuthor(ev: Event): Option<nat> {
    if ev.Compacted? || ev.Pushed? || ev.Migrated? then Some(ev.author) else None
  }

  /** Every snapshot swap that is new in `t` is by client `c`. */
  ghost predicate SwapsBy(s: Store, t: Store, c: nat) {
    forall k :: |s.events| <= k < |t.events| && SwapAuthor(t.events[k]).Some? ==> SwapAuthor(t.events[k]) == Some(c)
  }

  /** No snapshot swap that is new in `t` is by client `c`. */
  ghost predicate SwapsNotBy(s: Store, t: Store, c: nat) {
    forall k :: |s.events| <= k < |t.events| ==> SwapAuthor(t.events[k]) != Some(c)
  }

  lemma FrameLoad(w: World, c: nat, cl: Client, p: Purpose, v: World)
    requires c in w.clients && w.clients[c] == cl && NextLoad(w, c, cl, p) == Some(v)
    ensures Quiet(w, v, c)
  {
  }

  lemma FrameSync(w: World, c: nat, cl: Client, outcome: SyncOutcome, v: World)
    requires c in w.clients && w.clients[c] == cl && NextSync(w, c, cl, outcome) == Some(v)
    ensures Quiet(w, v, c)
  {
  }

  lemma FrameCapture(w: World, c: nat, cl: Client, after: Database, id: nat, r: Reply, v: World)
    requires c in w.clients && w.clients[c] == cl && NextCapture(w, c, cl, after, id, r) == Some(v)
    ensures Quiet(w, v, c)
  {
  }

  lemma FrameReload(w: World, c: nat, cl: Client, v: World)
    requires c in w.clients && w.clients[c] == cl && NextReload(w, c, cl) == Some(v)
    ensures Quiet(w, v, c)
  {
  }

  lemma FrameRebaseEntry(w: World, c: nat, cl: Client, v: World)
    requires c in w.clients && w.clients[c] == cl && NextRebaseEntry(w, c, cl) == Some(v)
    ensures Quiet(w, v, c)
  {
  }

  lemma FrameRebaseDone(w: World, c: nat, cl: Client, v: World)
    requires c in w.clients && w.clients[c] == cl && NextRebaseDone(w, c, cl) == Some(v)
    ensures Quiet(w, v, c)
  {
  }

  lemma FrameCompactUpload(w: World, c: nat, cl: Client, id: nat, r: Reply, v: World)
    requires c in w.clients && w.clients[c] == cl && NextCompactUpload(w, c, cl, id, r) == Some(v)
    ensures Quiet(w, v, c)
  {
  }

  lemma FrameMigrationLoad(w: World, c: nat, cl: Client, v: World)
    requires c in w.clients && w.clients[c] == cl && NextMigrationLoad(w, c, cl) == Some(v)
    ensures Quiet(w, v, c)
  {
  }

  lemma FrameRunUp(w: World, c: nat, cl: Client, after: Database, id: nat, r: Reply, v: World)
    requires c in w.clients && w.clients[c] == cl && NextRunUp(w, c, cl, after, id, r) == Some(v)
    ensures Quiet(w, v, c)
  {
  }

  lemma FramePushLoad(w: World, c: nat, cl: Client, expected: int, v: World)
    requires c in w.clients && w.clients[c] == cl && NextPushLoad(w, c, cl, expected) == Some(v)
    ensures Quiet(w, v, c)
  {
  }

  lemma FramePushUpload(w: World, c: nat, cl: Client, db: Database, id: nat, r: Reply, v: World)
    requires c in w.clients && w.clients[c] == cl && NextPushUpload(w, c, cl, db, id, r) == Some(v)
    ensures Quiet(w, v, c)
  {
  }

  lemma FrameBootUpload(w: World, c: nat, cl: Client, file: Option<Database>, id: nat, r: Reply, v: World)
    requires c in w.clients && w.clients[c] == cl && NextBootUpload(w, c, cl, file, id, r) == Some(v)
    ensures Quiet(w, v, c)
  {
  }

  lemma FrameGcEpoch(w: World, c: nat, cl: Client, epoch: Key, v: World)
    requires c in w.clients && w.clients[c] == cl && NextGcEpoch(w, c, cl, epoch) == Some(v)
    ensures Quiet(w, v, c)
  {
  }

  lemma FrameGcSnapshot(w: World, c: nat, cl: Client, key: Key, v: World)
    requires c in w.clients && w.clients[c] == cl && NextGcSnapshot(w, c, cl, key) == Some(v)
    ensures Quiet(w, v, c)
  {
  }

  lemma FrameDeleteOrphan(w: World, c: nat, cl: Client, v: World)
    requires c in w.clients && w.clients[c] == cl && NextDeleteOrphan(w, c, cl) == Some(v)
    ensures Quiet(w, v, c)
  {
  }

  lemma FrameLocal(w: World, v: World, c: nat, x: Client)
    requires c in w.clients && v.store == w.store && v.clients == w.clients[c := x]
    requires v.restoreSeqOnRollback == w.restoreSeqOnRollback && x.migrations == w.clients[c].migrations
    requires x.schemaVer == w.clients[c].schemaVer && Owned(x).None?
    ensures Quiet(w, v, c)
  {
  }

  lemma FrameAbort(w: World, c: nat, cl: Client, outcome: Outcome, v: World)
    requires c in w.clients && w.clients[c] == cl && NextAbort(w, c, cl, outcome) == Some(v)
    ensures Quiet(w, v, c)
  {
    FrameLocal(w, v, c, v.clients[c]);
  }

  lemma FrameStartMigrations(w: World, c: nat, cl: Client, v: World)
    requires c in w.clients && w.clients[c] == cl && NextStartMigrations(w, c, cl) == Some(v)
    ensures Quiet(w, v, c)
  {
  }

  lemma FrameCommit(w: World, c: nat, cl: Client, r: Reply)
    requires c in w.clients && w.clients[c] == cl && cl.op.CasReady?
    ensures Framed(w, NextCommit(w, c, cl, r), c)
  {
  }

  lemma FrameCompactCas(w: World, c: nat, cl: Client, r: Reply)
    requires c in w.clients && w.clients[c] == cl && cl.op.CompactReady? && cl.conn.Some?
    ensures Framed(w, NextCompactCas(w, c, cl, r), c)
  {
  }

  lemma MoveIsFramed(w: World, c: nat, s: Store, x: Client)
    requires c in w.clients && Extends(w.store, s) && Owned(x).None?
    requires x.migrations == w.clients[c].migrations && x.schemaVer == w.clients[c].schemaVer
    ensures Framed(w, Move(w, c, s, x), c)
  {
  }

  lemma PutExtends(s: Store, m: Manifest, ev: Event, cond: PutCondition, r: Reply)
    ensures Extends(s, PutManifest(s, m, ev, cond, r))
  {
  }

  lemma FrameMigrationCas(w: World, c: nat, cl: Client, r: Reply)
    requires c in w.clients && w.clients[c] == cl && cl.op.MigrationReady? && cl.conn.Some?
    ensures Framed(w, NextMigrationCas(w, c, cl, r), c)
  {
    var MigrationReady(v, key, before) := cl.op;
    var m := Manifest(FORMAT_VERSION, cl.m.seqNo, v, SnapRef(key, cl.m.seqNo, cl.conn.value), []);
    PutExtends(w.store, m, Migrated(v, before, cl.conn.value, c), PutCondition(cl.etag, false), r);
    var x := NextMigrationCas(w, c, cl, r);
    MoveIsFramed(w, c, x.store, x.clients[c]);
  }

  lemma FramePushCas(w: World, c: nat, cl: Client, r: Reply)
    requires c in w.clients && w.clients[c] == cl && cl.op.PushReady?
    ensures Framed(w, NextPushCas(w, c, cl, r), c)
  {
  }

  lemma FrameBootCas(w: World, c: nat, cl: Client, r: Reply)
    requires c in w.clients && w.clients[c] == cl && cl.op.Booting?
    ensures Framed(w, NextBootCas(w, c, cl, r), c)
  {
  }

  lemma FrameCas(w: World, c: nat, cl: Client, r: Reply, v: World)
    requires c in w.clients && w.clients[c] == cl && NextCas(w, c, cl, r) == Some(v)
    ensures Framed(w, v, c)
  {
    match cl.op
    case CasReady(_) => FrameCommit(w, c, cl, r);
    case CompactReady(_) => FrameCompactCas(w, c, cl, r);
    case MigrationReady(_, _, _) => FrameMigrationCas(w, c, cl, r);
    case PushReady(_, _, _, _, _) => FramePushCas(w, c, cl, r);
    case Booting(_, _) => FrameBootCas(w, c, cl, r);
  }

  /** Every action is framed, and only `Cas` writes a manifest. */
  lemma NextIsFramed(w: World, a: Action, v: World)
    requires Next(w, a) == Some(v)
    ensures Framed(w, v, a.c) && (a.Cas? || Quiet(w, v, a.c))
  {
    var cl := w.clients[a.c];
    match a
    case Load(c, p) => FrameLoad(w, c, cl, p, v);
    case Sync(c, outcome) => FrameSync(w, c, cl, outcome, v);
    case DeleteOrphan(c) => FrameDeleteOrphan(w, c, cl, v);
    case Capture(c, after, id, r) => FrameCapture(w, c, cl, after, id, r, v);
    case Cas(c, r) => FrameCas(w, c, cl, r, v);
    case Reload(c) => FrameReload(w, c, cl, v);
    case RebaseEntry(c) => FrameRebaseEntry(w, c, cl, v);
    case RebaseDone(c) => FrameRebaseDone(w, c, cl, v);
    case CompactUpload(c, id, r) => FrameCompactUpload(w, c, cl, id, r, v);
    case StartMigrations(c) => FrameStartMigrations(w, c, cl, v);
    case MigrationLoad(c) => FrameMigrationLoad(w, c, cl, v);
    case RunUp(c, after, id, r) => FrameRunUp(w, c, cl, after, id, r, v);
    case PushLoad(c, expected) => FramePushLoad(w, c, cl, expected, v);
    case PushUpload(c, db, id, r) => FramePushUpload(w, c, cl, db, id, r, v);
    case BootUpload(c, file, id, r) => FrameBootUpload(w, c, cl, file, id, r, v);
    case GcEpoch(c, epoch) => FrameGcEpoch(w, c, cl, epoch, v);
    case GcSnapshot(c, key) => FrameGcSnapshot(w, c, cl, key, v);
    case Abort(c, why) => FrameAbort(w, c, cl, why, v);
  }

  lemma AuthorCommit(w: World, c: nat, cl: Client, r: Reply)
    requires cl.op.CasReady?
    ensures SwapsBy(w.store, NextCommit(w, c, cl, r).store, c)
  {
  }

  lemma AuthorCompactCas(w: World, c: nat, cl: Client, r: Reply)
    requires cl.op.CompactReady? && cl.conn.Some?
    ensures SwapsBy(w.store, NextCompactCas(w, c, cl, r).store, c)
  {
  }

  lemma AuthorMigrationCas(w: World, c: nat, cl: Client, r: Reply)
    requires cl.op.MigrationReady? && cl.conn.Some?
    ensures SwapsBy(w.store, NextMigrationCas(w, c, cl, r).store, c)
  {
  }

  lemma AuthorPushCas(w: World, c: nat, cl: Client, r: Reply)
    requires cl.op.PushReady?
    ensures SwapsBy(w.store, NextPushCas(w, c, cl, r).store, c)
  {
  }

  lemma AuthorBootCas(w: World, c: nat, cl: Client, r: Reply)
    requires cl.op.Booting?
    ensures SwapsBy(w.store, NextBootCas(w, c, cl, r).store, c)
  {
  }

  lemma AuthorCas(w: World, c: nat, cl: Client, r: Reply, v: World)
    requires NextCas(w, c, cl, r) == Some(v)
    ensures SwapsBy(w.store, v.store, c)
  {
    match cl.op
    case CasReady(_) => AuthorCommit(w, c, cl, r);
    case CompactReady(_) => AuthorCompactCas(w, c, cl, r);
    case MigrationReady(_, _, _) => AuthorMigrationCas(w, c, cl, r);
    case PushReady(_, _, _, _, _) => AuthorPushCas(w, c, cl, r);
    case Booting(_, _) => AuthorBootCas(w, c, cl, r);
  }

  /** Every snapshot swap in history is recorded with the client that landed it. */
  lemma NewSwapsBy(w: World, a: Action, v: World)
    requires Next(w, a) == Some(v)
    ensures SwapsBy(w.store, v.store, a.c)
  {
    NextIsFramed(w, a, v);
    if a.Cas? {
      AuthorCas(w, a.c, w.clients[a.c], a.reply, v);
    }
  }
}
