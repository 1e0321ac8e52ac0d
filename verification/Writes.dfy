/** What a manifest write does, whoever makes it: which manifest, under which condition, and what it
    leaves. */
module Writes {
  import opened Basics
  import opened Manifests
  import opened Protocol
  import opened Invariant
  import opened Steps
  import opened Swapping

  predicate WritesManifest(op: Op) {
    op.CasReady? || op.CompactReady? || op.MigrationReady? || op.PushReady?
  }

  function CasETag(cl: Client): ETag {
    if cl.op.PushReady? then cl.op.petag else cl.etag
  }

  function LoadedAt(cl: Client): int {
    if cl.op.PushReady? then cl.op.pAt else cl.mAt
  }

  lemma CasETagIsLoaded(s: Store, cl: Client)
    requires ClientInv(s, cl) && WritesManifest(cl.op)
    ensures HasLoaded(s, if cl.op.PushReady? then cl.op.pm else cl.m, CasETag(cl), LoadedAt(cl))
  {
  }

  /** The manifest a client is about to write, and the condition it writes under. */
  function CasManifest(s: Store, cl: Client): Manifest
    requires WritesManifest(cl.op) || cl.op.Booting?
    requires cl.op.CompactReady? || cl.op.MigrationReady? ==> cl.conn.Some?
  {
    match cl.op
    case CasReady(u) => CommitManifest(cl, u)
    case CompactReady(_) => CompactManifest(cl)
    case MigrationReady(_, _, _) => MigrationManifest(cl)
    case PushReady(_, _, _, _, key) =>
      PushManifest(cl, if key in s.content && s.content[key].SnapBlob? then s.content[key].db else EMPTY_DB)
    case Booting(_, _) => BootManifest(cl)
  }

  function CasCondition(cl: Client): PutCondition {
    if cl.op.Booting? then PutCondition(NoETag, true) else PutCondition(CasETag(cl), false)
  }

  /** What a manifest write does to the store and to its writer's operation. */
  ghost predicate CasEffect(w: World, c: nat, cl: Client, m: Manifest, cond: PutCondition, r: Reply, v: World) {
    && c in v.clients && v.store.live == w.store.live
    && v.store.hist == (if Lands(w.store, m, cond, r) then w.store.hist + [Stamped(m)] else w.store.hist)
    && (v.clients[c].op.Idle? || v.clients[c].op.MigrationTop? ||
        (cl.op.CasReady? && v.store == w.store && v.clients[c].op == CasLost(cl.op.u)))
  }

  lemma EffectCommit(w: World, c: nat, cl: Client, r: Reply)
    requires c in w.clients && w.clients[c] == cl && cl.op.CasReady?
    ensures CasEffect(w, c, cl, CommitManifest(cl, cl.op.u), PutCondition(cl.etag, false), r, NextCommit(w, c, cl, r))
  {
  }

  lemma EffectCompactCas(w: World, c: nat, cl: Client, r: Reply)
    requires c in w.clients && w.clients[c] == cl && cl.op.CompactReady? && cl.conn.Some?
    ensures CasEffect(w, c, cl, CompactManifest(cl), PutCondition(cl.etag, false), r, NextCompactCas(w, c, cl, r))
  {
  }

  lemma EffectMigrationCas(w: World, c: nat, cl: Client, r: Reply)
    requires c in w.clients && w.clients[c] == cl && cl.op.MigrationReady? && cl.conn.Some?
    ensures CasEffect(w, c, cl, MigrationManifest(cl), PutCondition(cl.etag, false), r, NextMigrationCas(w, c, cl, r))
  {
  }

  lemma EffectPushCas(w: World, c: nat, cl: Client, r: Reply)
    requires c in w.clients && w.clients[c] == cl && cl.op.PushReady?
    ensures CasEffect(w, c, cl, CasManifest(w.store, cl), PutCondition(cl.op.petag, false), r, NextPushCas(w, c, cl, r))
  {
  }

  lemma EffectBootCas(w: World, c: nat, cl: Client, r: Reply)
    requires c in w.clients && w.clients[c] == cl && cl.op.Booting?
    ensures CasEffect(w, c, cl, BootManifest(cl), PutCondition(NoETag, true), r, NextBootCas(w, c, cl, r))
  {
  }

  /** A manifest write either lands that manifest or changes nothing, and leaves its writer with no
      uploaded blob of its own unless it was refused. */
  lemma CasStore(w: World, c: nat, cl: Client, r: Reply, v: World)
    requires c in w.clients && w.clients[c] == cl && NextCas(w, c, cl, r) == Some(v)
    ensures WritesManifest(cl.op) || cl.op.Booting?
    ensures cl.op.CompactReady? || cl.op.MigrationReady? ==> cl.conn.Some?
    ensures CasEffect(w, c, cl, CasManifest(w.store, cl), CasCondition(cl), r, v)
  {
    match cl.op
    case CasReady(_) => EffectCommit(w, c, cl, r);
    case CompactReady(_) => EffectCompactCas(w, c, cl, r);
    case MigrationReady(_, _, _) => EffectMigrationCas(w, c, cl, r);
    case PushReady(_, _, _, _, _) => EffectPushCas(w, c, cl, r);
    case Booting(_, _) => EffectBootCas(w, c, cl, r);
  }

  /** A manifest names only what was named before, the bootstrap snapshot, or the blob its writer
      owned. */
  lemma ManifestNames(s: Store, t: Store, cl: Client, k: Key)
    requires WritesManifest(cl.op) || cl.op.Booting?
    requires cl.op.CompactReady? || cl.op.MigrationReady? ==> cl.conn.Some?
    requires cl.op.CasReady? ==> HasLoaded(s, cl.m, cl.etag, cl.mAt)
    requires cl.op.Booting? ==> cl.op.key.SnapKey? || cl.op.key.InitKey?
    requires t.hist == s.hist || t.hist == s.hist + [Stamped(CasManifest(s, cl))]
    requires k != InitKey && Owned(cl) != Some(k) && Unreferenced(s, k)
    ensures Unreferenced(t, k)
  {
    if cl.op.CasReady? {
      CommitMentions(s, cl, cl.op.u);
    }
    StillUnreferenced(s, t, CasManifest(s, cl), k);
  }

  lemma StillUnreferenced(s: Store, t: Store, m: Manifest, k: Key)
    requires Unreferenced(s, k) && !Mentions(Stamped(m), k)
    requires t.hist == s.hist || t.hist == s.hist + [Stamped(m)]
    ensures Unreferenced(t, k)
  {
    forall i | 0 <= i < |t.hist| ensures !Mentions(t.hist[i], k) {
      if i < |s.hist| {
        assert t.hist[i] == s.hist[i];
      }
    }
  }
}
