/** The protocol as a transition system: one store, any number of clients, one action at a time.

    `Next(w, a)` is the world after action `a`, or None when `a` is not enabled.  Everything an
    action does not determine is a parameter of it: the name a UUID produced, what the user's
    transaction, migration or pushed file contained, and how the store answered.

    An action is one store access together with the local work around it.  Blobs are write-once, so
    reading several of them is one action. */
module Protocol {
  import opened Basics
  import opened Changesets
  import opened Manifests

  datatype Blob = SnapBlob(db: Database) | CsBlob(cs: Changeset)

  /** What each manifest write meant, in commit order; of a snapshot swap, also which client wrote it. */
  datatype Event =
    | Created(db: Database)
    | Txn(call: nat, key: Key, cs: Changeset, base: int, before: Database, after: Database)
    | Compacted(author: nat)
    | Pushed(db: Database, expected: int, author: nat)
    | Migrated(version: int, before: Database, after: Database, author: nat)

  /** `hist` holds every manifest ever stored, oldest first; the last one is the stored object.
      `content` remembers what was written under each name, `live` which names are still present. */
  datatype Store = Store(hist: seq<Manifest>, events: seq<Event>, content: map<Key, Blob>, live: set<Key>)

  // ---------------------------------------------------------------- replay

  function EntryChanges(content: map<Key, Blob>, e: LogEntry): Option<Changeset> {
    if e.key in content && content[e.key].CsBlob? then Some(content[e.key].cs) else None
  }

  function ApplyEntry(content: map<Key, Blob>, db: Database, e: LogEntry): Option<Database> {
    match EntryChanges(content, e)
    case None => None
    case Some(cs) => Apply(db, cs)
  }

  function ApplyEntries(content: map<Key, Blob>, db: Database, log: seq<LogEntry>): Option<Database>
    decreases |log|
  {
    if log == [] then Some(db)
    else match ApplyEntry(content, db, log[0])
      case None => None
      case Some(d) => ApplyEntries(content, d, log[1..])
  }

  /** The database a manifest stands for: its snapshot with the whole log applied. */
  function Replay(content: map<Key, Blob>, m: Manifest): Option<Database> {
    if m.snapshot.key in content && content[m.snapshot.key].SnapBlob? then
      ApplyEntries(content, content[m.snapshot.key].db, m.log)
    else
      None
  }

  function StateAt(s: Store, i: int): Option<Database> {
    if 0 <= i < |s.hist| then Replay(s.content, s.hist[i]) else None
  }

  /** The abstract database: commits, pushes and migrations folded in commit order. */
  function Effect(db: Option<Database>, e: Event): Option<Database> {
    match e
    case Created(d) => Some(d)
    case Txn(_, _, cs, _, _, _) => if db.Some? then Apply(db.value, cs) else None
    case Compacted(_) => db
    case Pushed(d, _, _) => Some(d)
    case Migrated(_, before, after, _) => if db == Some(before) then Some(after) else None
  }

  function Fold(events: seq<Event>): Option<Database> {
    if events == [] then None else Effect(Fold(events[..|events| - 1]), events[|events| - 1])
  }

  // ---------------------------------------------------------------- store operations

  /** How a write was answered.  A failed call may or may not have taken effect. */
  datatype Reply = Answered | Failed(landed: bool)
  datatype PutResult = Won | Refused | Unknown
  datatype PutCondition = PutCondition(ifMatch: ETag, ifNoneMatch: bool)

  /** Every store step only adds: manifests at the end, blobs under new names. */
  ghost predicate Extends(s: Store, t: Store) {
    && |s.hist| <= |t.hist| && (forall i :: 0 <= i < |s.hist| ==> t.hist[i] == s.hist[i])
    && |s.events| <= |t.events| && (forall i :: 0 <= i < |s.events| ==> t.events[i] == s.events[i])
    && (forall k :: k in s.content ==> k in t.content && t.content[k] == s.content[k])
  }

  function PutBlob(s: Store, k: Key, b: Blob, r: Reply): Store {
    if r == Failed(false) then s
    else s.(content := if k in s.content then s.content else s.content[k := b], live := s.live + {k})
  }

  function DeleteBlobs(s: Store, ks: set<Key>): Store {
    s.(live := s.live - ks)
  }

  predicate Meets(s: Store, cond: PutCondition) {
    && (cond.ifNoneMatch ==> s.hist == [])
    && (cond.ifMatch != NoETag ==> s.hist != [] && Md5(s.hist[|s.hist| - 1]) == cond.ifMatch)
  }

  /** `putManifest`: stamp, validate, write under a condition.  A refused write changes nothing. */
  predicate Lands(s: Store, m: Manifest, cond: PutCondition, r: Reply) {
    ValidManifest(Stamped(m)) && r != Failed(false) && Meets(s, cond)
  }

  function PutManifest(s: Store, m: Manifest, ev: Event, cond: PutCondition, r: Reply): Store {
    if Lands(s, m, cond, r) then s.(hist := s.hist + [Stamped(m)], events := s.events + [ev]) else s
  }

  function PutOutcome(s: Store, m: Manifest, cond: PutCondition, r: Reply): PutResult {
    if r.Failed? || !ValidManifest(Stamped(m)) then Unknown
    else if Meets(s, cond) then Won else Refused
  }

  // ---------------------------------------------------------------- clients

  /** Why a client is syncing, and so what it does next. */
  datatype Purpose =
    | ForView
    | ForUpdate(call: nat, orphan: Option<Key>)
    | ForCompact
    | ForGc
    | ForMigration(version: int)
    | ForReady

  /** One open savepoint of `doUpdate`: the captured changeset, its blob, and what a rollback
      restores (`save`, taken at `saveSeq`, history position `saveAt`). */
  datatype Upd = Upd(call: nat, key: Key, cs: Changeset, save: Database, saveSeq: int, saveAt: int, after: Database)

  datatype Op =
    | Idle
    | Syncing(purpose: Purpose)
    | Capturing(call: nat, orphan: Option<Key>)
    | CasReady(u: Upd)
    | CasLost(u: Upd)
    | Rebasing(u: Upd, m2: Manifest, etag2: ETag, m2At: int, todo: seq<LogEntry>)
    | Compacting
    | CompactReady(key: Key)
    | MigrationTop(last: int)
    | Migrating(version: int)
    | MigrationReady(version: int, key: Key, before: Database)
    | Pushing(pm: Manifest, petag: ETag, pAt: int, expected: int)
    | PushReady(pm: Manifest, petag: ETag, pAt: int, expected: int, key: Key)
    | Sweeping(gm: Manifest)
    | Booting(key: Key, db: Database)

  /** `conn` .. `etag` are `commitState`.  `schemaVer` and `migrations` are configuration.
      `connAt` and `mAt` are history variables: the positions `conn` and `m` come from.  No branch
      reads them. */
  datatype Client = Client(
    conn: Option<Database>, localSeq: int, snapshotKey: Key, m: Manifest, etag: ETag,
    schemaVer: int, migrations: seq<int>,
    connAt: int, mAt: int,
    op: Op)

  datatype Outcome = Committed | NothingToCommit | Conflict | Error

  datatype World = World(
    store: Store,
    clients: map<nat, Client>,
    calls: nat,
    results: map<nat, Outcome>,
    restoreSeqOnRollback: bool)

  datatype SyncOutcome = Completed | DownloadFailed | Stopped(applied: nat)

  datatype Action =
    | Load(c: nat, purpose: Purpose)
    | Sync(c: nat, outcome: SyncOutcome)
    | DeleteOrphan(c: nat)
    | Capture(c: nat, after: Database, id: nat, reply: Reply)
    | Cas(c: nat, reply: Reply)
    | Reload(c: nat)
    | RebaseEntry(c: nat)
    | RebaseDone(c: nat)
    | CompactUpload(c: nat, id: nat, reply: Reply)
    | StartMigrations(c: nat)
    | MigrationLoad(c: nat)
    | RunUp(c: nat, after: Database, id: nat, reply: Reply)
    | PushLoad(c: nat, expected: int)
    | PushUpload(c: nat, db: Database, id: nat, reply: Reply)
    | BootUpload(c: nat, file: Option<Database>, id: nat, reply: Reply)
    | GcEpoch(c: nat, epoch: Key)
    | GcSnapshot(c: nat, key: Key)
    | Abort(c: nat, why: Outcome)

  const EMPTY_DB: Database := map[]

  /** The first migration above a schema version; the list is strictly increasing. */
  function NextVersion(migrations: seq<int>, schema: int): Option<int> {
    if migrations == [] then None
    else if migrations[0] > schema then Some(migrations[0])
    else NextVersion(migrations[1..], schema)
  }

  function MaxVersion(migrations: seq<int>): int {
    if migrations == [] then 0 else migrations[|migrations| - 1]
  }

  predicate IncreasingVersions(migrations: seq<int>) {
    && (forall i :: 0 <= i < |migrations| ==> migrations[i] > 0)
    && (forall i, j :: 0 <= i < j < |migrations| ==> migrations[i] < migrations[j])
  }

  // ---------------------------------------------------------------- local transitions

  /** ROLLBACK of the savepoint.  The code as written leaves `localSeq` alone, so that the client
      then takes its database for that of the position `localSeq` names, which is `mAt`. */
  function Rollback(restore: bool, cl: Client, u: Upd): Client {
    if restore then cl.(conn := Some(u.save), connAt := u.saveAt, localSeq := u.saveSeq)
    else cl.(conn := Some(u.save), connAt := cl.mAt)
  }

  function Loaded(cl: Client, s: Store): Client
    requires s.hist != []
  {
    var n := |s.hist| - 1;
    cl.(m := s.hist[n], etag := Md5(s.hist[n]), mAt := n)
  }

  predicate NeedsRefresh(cl: Client) {
    cl.conn.None? || cl.localSeq < cl.m.snapshot.seqNo || cl.snapshotKey != cl.m.snapshot.key
  }

  /** The refresh half of `syncToManifest`: close, download, reopen. */
  function Refreshed(cl: Client, db: Database): Client {
    cl.(conn := Some(db), localSeq := cl.m.snapshot.seqNo, snapshotKey := cl.m.snapshot.key,
        connAt := cl.mAt - |cl.m.log|)
  }

  function SnapshotOf(content: map<Key, Blob>, m: Manifest): Option<Database> {
    if m.snapshot.key in content && content[m.snapshot.key].SnapBlob? then Some(content[m.snapshot.key].db) else None
  }

  /** The client just before `applyLog`, if the snapshot could be read. */
  function SyncBase(content: map<Key, Blob>, cl: Client): Option<Client> {
    if !NeedsRefresh(cl) then Some(cl)
    else match SnapshotOf(content, cl.m)
      case None => None
      case Some(db) => Some(Refreshed(cl, db))
  }

  /** `applyLog` stopped after `k` of the needed entries. */
  function AppliedEntries(content: map<Key, Blob>, cl: Client, k: nat): Option<Client>
    requires cl.conn.Some?
  {
    var need := Need(cl.m.log, cl.localSeq);
    if k > |need| then None
    else match ApplyEntries(content, cl.conn.value, need[..k])
      case None => None
      case Some(db) =>
        Some(cl.(conn := Some(db), connAt := cl.connAt + k,
                 localSeq := if k == 0 then cl.localSeq else need[k - 1].seqNo))
  }

  /** `syncToManifest` up to its local effect; None when this outcome cannot happen. */
  function Synced(content: map<Key, Blob>, cl: Client, outcome: SyncOutcome): Option<Client> {
    match outcome
    case DownloadFailed => if NeedsRefresh(cl) then Some(cl.(conn := None)) else None
    case Completed =>
      (match SyncBase(content, cl)
       case None => None
       case Some(b) => AppliedEntries(content, b, |Need(b.m.log, b.localSeq)|))
    case Stopped(k) =>
      match SyncBase(content, cl)
      case None => None
      case Some(b) => if k < |Need(b.m.log, b.localSeq)| then AppliedEntries(content, b, k) else None
  }

  function AfterSync(cl: Client, p: Purpose): Op {
    match p
    case ForView => Idle
    case ForUpdate(call, orphan) => Capturing(call, orphan)
    case ForCompact => if cl.m.log == [] then Idle else Compacting
    case ForGc => Sweeping(cl.m)
    case ForMigration(v) => Migrating(v)
    case ForReady => Idle
  }

  /** A failed Open closes its connection. */
  function Closed(cl: Client): Client {
    cl.(conn := None, op := Idle)
  }

  function Finish(w: World, c: nat, cl: Client, call: nat, outcome: Outcome): World {
    w.(clients := w.clients[c := cl.(op := Idle)], results := w.results[call := outcome])
  }

  function Move(w: World, c: nat, s: Store, cl: Client): World {
    w.(store := s, clients := w.clients[c := cl])
  }

  function SnapRef(key: Key, seqNo: int, db: Database): BlobRef {
    BlobRef(key, seqNo, |db|)
  }

  /** The blob a client uploaded and has not handed over: it may still enter a manifest, or it is
      an orphan the client may still delete. */
  function Owned(cl: Client): Option<Key> {
    match cl.op
    case Syncing(p) => if p.ForUpdate? then p.orphan else None
    case Capturing(_, orphan) => orphan
    case CasReady(u) => Some(u.key)
    case CasLost(u) => Some(u.key)
    case Rebasing(u, _, _, _, _) => Some(u.key)
    case CompactReady(key) => Some(key)
    case MigrationReady(_, key, _) => Some(key)
    case PushReady(_, _, _, _, key) => Some(key)
    case Booting(key, _) => if key.SnapKey? then Some(key) else None
    case _ => None
  }

  // ---------------------------------------------------------------- actions

  /** Is this one of the starts that begin with `refreshManifest`? */
  predicate Refreshes(w: World, p: Purpose) {
    p.ForView? || p.ForCompact? || p.ForGc? || p == ForUpdate(w.calls, None)
  }

  function NextLoad(w: World, c: nat, cl: Client, p: Purpose): Option<World> {
    if cl.op.Idle? && w.store.hist != [] && Refreshes(w, p)
       && w.store.hist[|w.store.hist| - 1].schema == cl.schemaVer then
      Some(Move(w, c, w.store, Loaded(cl, w.store).(op := Syncing(p)))
           .(calls := if p.ForUpdate? then w.calls + 1 else w.calls))
    else None
  }

  function NextSync(w: World, c: nat, cl: Client, outcome: SyncOutcome): Option<World> {
    if !cl.op.Syncing? then None
    else match Synced(w.store.content, cl, outcome)
      case None => None
      case Some(x) =>
        var p := cl.op.purpose;
        if outcome.Completed? then Some(Move(w, c, w.store, x.(op := AfterSync(x, p))))
        else if p.ForUpdate? then Some(Finish(w, c, x, p.call, Error))
        else Some(Move(w, c, w.store, x.(op := Idle)))
  }

  function NextCapture(w: World, c: nat, cl: Client, after: Database, id: nat, r: Reply): Option<World> {
    if cl.op.Capturing? && cl.conn.Some? && SameShape(cl.conn.value, after) && cl.conn.value != after
       && CsKey(Epoch(cl.m), id) !in w.store.content then
      var key, cs := CsKey(Epoch(cl.m), id), Diff(cl.conn.value, after);
      var s := PutBlob(w.store, key, CsBlob(cs), r);
      if r.Answered? then
        Some(Move(w, c, s, cl.(
          conn := Some(after),
          op := CasReady(Upd(cl.op.call, key, cs, cl.conn.value, cl.localSeq, cl.connAt, after)))))
      else
        Some(Finish(w.(store := s), c, cl, cl.op.call, Error))
    else None
  }

  function CommitManifest(cl: Client, u: Upd): Manifest {
    AppendLog(cl.m, LogEntry(u.key, cl.m.seqNo + 1, |u.cs|))
  }

  function CommitEvent(u: Upd): Event {
    Txn(u.call, u.key, u.cs, u.saveAt, u.save, u.after)
  }

  function NextCommit(w: World, c: nat, cl: Client, r: Reply): World
    requires cl.op.CasReady?
  {
    var u := cl.op.u;
    var m := CommitManifest(cl, u);
    var cond := PutCondition(cl.etag, false);
    var s := PutManifest(w.store, m, CommitEvent(u), cond, r);
    match PutOutcome(w.store, m, cond, r)
    case Won =>
      Finish(w.(store := s), c,
             cl.(m := Stamped(m), etag := Md5(Stamped(m)), mAt := |w.store.hist|,
                 localSeq := cl.m.seqNo + 1, connAt := |w.store.hist|),
             u.call, Committed)
    case Refused => Move(w, c, s, cl.(op := CasLost(u)))
    case Unknown => Finish(w.(store := s), c, Rollback(w.restoreSeqOnRollback, cl, u), u.call, Error)
  }

  function NextCompactCas(w: World, c: nat, cl: Client, r: Reply): World
    requires cl.op.CompactReady? && cl.conn.Some?
  {
    var key := cl.op.key;
    var m := WithSnapshot(cl.m, SnapRef(key, cl.m.seqNo, cl.conn.value));
    var cond := PutCondition(cl.etag, false);
    var s := PutManifest(w.store, m, Compacted(c), cond, r);
    match PutOutcome(w.store, m, cond, r)
    case Won =>
      Move(w, c, s, cl.(m := Stamped(m), etag := Md5(Stamped(m)), mAt := |w.store.hist|,
                        snapshotKey := key, connAt := |w.store.hist|, op := Idle))
    case _ => Move(w, c, s, cl.(op := Idle))
  }

  function NextMigrationCas(w: World, c: nat, cl: Client, r: Reply): World
    requires cl.op.MigrationReady? && cl.conn.Some?
  {
    var MigrationReady(v, key, before) := cl.op;
    var m := Manifest(FORMAT_VERSION, cl.m.seqNo, v, SnapRef(key, cl.m.seqNo, cl.conn.value), []);
    var cond := PutCondition(cl.etag, false);
    var s := PutManifest(w.store, m, Migrated(v, before, cl.conn.value, c), cond, r);
    match PutOutcome(w.store, m, cond, r)
    case Won =>
      Move(w, c, s, cl.(m := Stamped(m), etag := Md5(Stamped(m)), mAt := |w.store.hist|, localSeq := cl.m.seqNo,
                        snapshotKey := key, connAt := |w.store.hist|, op := MigrationTop(v)))
    case Refused => Move(w, c, s, cl.(op := MigrationTop(v)))
    case Unknown => Move(w, c, s, Closed(cl))
  }

  function NextPushCas(w: World, c: nat, cl: Client, r: Reply): World
    requires cl.op.PushReady?
  {
    var PushReady(pm, petag, pAt, expected, key) := cl.op;
    var db := if key in w.store.content && w.store.content[key].SnapBlob? then w.store.content[key].db else EMPTY_DB;
    var m := WithSnapshot(pm, SnapRef(key, pm.seqNo, db));
    Move(w, c, PutManifest(w.store, m, Pushed(db, expected, c), PutCondition(petag, false), r), cl.(op := Idle))
  }

  function NextBootCas(w: World, c: nat, cl: Client, r: Reply): World
    requires cl.op.Booting?
  {
    var Booting(key, db) := cl.op;
    var m := Manifest(FORMAT_VERSION, 0, 0, SnapRef(key, 0, db), []);
    Move(w, c, PutManifest(w.store, m, Created(db), PutCondition(NoETag, true), r), cl.(op := Idle))
  }

  function NextCas(w: World, c: nat, cl: Client, r: Reply): Option<World> {
    match cl.op
    case CasReady(_) => Some(NextCommit(w, c, cl, r))
    case CompactReady(_) => if cl.conn.Some? then Some(NextCompactCas(w, c, cl, r)) else None
    case MigrationReady(_, _, _) => if cl.conn.Some? then Some(NextMigrationCas(w, c, cl, r)) else None
    case PushReady(_, _, _, _, _) => Some(NextPushCas(w, c, cl, r))
    case Booting(_, _) => Some(NextBootCas(w, c, cl, r))
    case _ => None
  }

  /** Roll back, adopt the reloaded manifest, and go and sync before running fn again. */
  function Resync(w: World, cl: Client, u: Upd, m2: Manifest, etag2: ETag, m2At: int): Client {
    Rollback(w.restoreSeqOnRollback, cl, u).(m := m2, etag := etag2, mAt := m2At,
      op := Syncing(ForUpdate(u.call, Some(u.key))))
  }

  /** After a 412: reload, and either start rebasing or start over. */
  function Reloaded(w: World, cl: Client, u: Upd, m2: Manifest, m2At: int): Client {
    if m2.snapshot.seqNo > cl.localSeq || m2.snapshot.key != cl.snapshotKey then
      Resync(w, cl, u, m2, Md5(m2), m2At)
    else
      cl.(op := Rebasing(u, m2, Md5(m2), m2At, Need(m2.log, cl.localSeq)))
  }

  function NextReload(w: World, c: nat, cl: Client): Option<World> {
    if cl.op.CasLost? && w.store.hist != [] then
      Some(Move(w, c, w.store, Reloaded(w, cl, cl.op.u, w.store.hist[|w.store.hist| - 1], |w.store.hist| - 1)))
    else None
  }

  /** One entry of theirs applied on top of our uncommitted changes, or a conflict. */
  function RebasedBy(w: World, cl: Client, cs: Changeset): Client
    requires cl.op.Rebasing? && cl.conn.Some? && cl.op.todo != []
  {
    var Rebasing(u, m2, etag2, m2At, todo) := cl.op;
    match Apply(cl.conn.value, cs)
    case None => Resync(w, cl, u, m2, etag2, m2At)
    case Some(db) => cl.(conn := Some(db), connAt := cl.connAt + 1, op := Rebasing(u, m2, etag2, m2At, todo[1..]))
  }

  function NextRebaseEntry(w: World, c: nat, cl: Client): Option<World> {
    if cl.op.Rebasing? && cl.conn.Some? && cl.op.todo != [] then
      match EntryChanges(w.store.content, cl.op.todo[0])
      case None => None
      case Some(cs) => Some(Move(w, c, w.store, RebasedBy(w, cl, cs)))
    else None
  }

  function NextRebaseDone(w: World, c: nat, cl: Client): Option<World> {
    if cl.op.Rebasing? && cl.op.todo == [] then
      var Rebasing(u, m2, etag2, m2At, _) := cl.op;
      Some(Move(w, c, w.store, cl.(m := m2, etag := etag2, mAt := m2At, localSeq := m2.seqNo, op := CasReady(u))))
    else None
  }

  function NextCompactUpload(w: World, c: nat, cl: Client, id: nat, r: Reply): Option<World> {
    if cl.op.Compacting? && cl.conn.Some? && SnapKey(id) !in w.store.content then
      Some(Move(w, c, PutBlob(w.store, SnapKey(id), SnapBlob(cl.conn.value), r),
                cl.(op := if r.Answered? then CompactReady(SnapKey(id)) else Idle)))
    else None
  }

  /** Top of the `runMigrations` loop, with the manifest just loaded into `x`.  Attempting the same
      version again clears the snapshot key, which forces a full refresh. */
  function MigrationLoaded(cl: Client, x: Client): Client
    requires cl.op.MigrationTop?
  {
    if x.m.schema > MaxVersion(cl.migrations) then Closed(cl)
    else if x.m.schema == MaxVersion(cl.migrations) then x.(op := Syncing(ForReady))
    else
      match NextVersion(cl.migrations, x.m.schema)
      case None => Closed(cl)
      case Some(v) =>
        x.(snapshotKey := if v == cl.op.last then NoKey else x.snapshotKey, op := Syncing(ForMigration(v)))
  }

  function NextMigrationLoad(w: World, c: nat, cl: Client): Option<World> {
    if cl.op.MigrationTop? && w.store.hist != [] then
      Some(Move(w, c, w.store, MigrationLoaded(cl, Loaded(cl, w.store))))
    else None
  }

  function NextRunUp(w: World, c: nat, cl: Client, after: Database, id: nat, r: Reply): Option<World> {
    if cl.op.Migrating? && cl.conn.Some? && SnapKey(id) !in w.store.content then
      var s := PutBlob(w.store, SnapKey(id), SnapBlob(after), r);
      if r.Answered? then
        Some(Move(w, c, s, cl.(conn := Some(after), op := MigrationReady(cl.op.version, SnapKey(id), cl.conn.value))))
      else Some(Move(w, c, s, Closed(cl)))
    else None
  }

  function NextPushLoad(w: World, c: nat, cl: Client, expected: int): Option<World> {
    if cl.op.Idle? && w.store.hist != [] then
      var n := |w.store.hist| - 1;
      var m := w.store.hist[n];
      if expected >= 0 && m.seqNo != expected then Some(w)
      else Some(Move(w, c, w.store, cl.(op := Pushing(m, Md5(m), n, expected))))
    else None
  }

  function NextPushUpload(w: World, c: nat, cl: Client, db: Database, id: nat, r: Reply): Option<World> {
    if cl.op.Pushing? && SnapKey(id) !in w.store.content then
      var Pushing(pm, petag, pAt, expected) := cl.op;
      Some(Move(w, c, PutBlob(w.store, SnapKey(id), SnapBlob(db), r),
                cl.(op := if r.Answered? then PushReady(pm, petag, pAt, expected, SnapKey(id)) else Idle)))
    else None
  }

  /** `bootstrap` (no file, fixed name) or `Init` with a file (fresh name).  That no manifest was
      there was seen some time earlier, so nothing is known of the store by now; the conditional
      write is the guard. */
  function NextBootUpload(w: World, c: nat, cl: Client, file: Option<Database>, id: nat, r: Reply): Option<World> {
    if cl.op.Idle? && (file.Some? ==> SnapKey(id) !in w.store.content) then
      var key, db := if file.Some? then SnapKey(id) else InitKey, if file.Some? then file.value else EMPTY_DB;
      Some(Move(w, c, PutBlob(w.store, key, SnapBlob(db), r),
          cl.(op := if r.Answered? then Booting(key, db) else Idle)))
    else None
  }

  /** Delete every blob of an epoch that is not the loaded one and has no key in the loaded log. */
  function NextGcEpoch(w: World, c: nat, cl: Client, epoch: Key): Option<World> {
    if cl.op.Sweeping? && epoch != Epoch(cl.op.gm)
       && (forall i :: 0 <= i < |cl.op.gm.log| ==>
           !(cl.op.gm.log[i].key.CsKey? && cl.op.gm.log[i].key.epoch == epoch)) then
      Some(w.(store := DeleteBlobs(w.store, set k | k in w.store.live && k.CsKey? && k.epoch == epoch)))
    else None
  }

  function NextGcSnapshot(w: World, c: nat, cl: Client, key: Key): Option<World> {
    if cl.op.Sweeping? && (key.SnapKey? || key.InitKey?) && key != cl.op.gm.snapshot.key then
      Some(w.(store := DeleteBlobs(w.store, {key})))
    else None
  }

  function NextDeleteOrphan(w: World, c: nat, cl: Client): Option<World> {
    if cl.op.Capturing? && cl.op.orphan.Some? then
      Some(Move(w, c, DeleteBlobs(w.store, {cl.op.orphan.value}), cl.(op := Capturing(cl.op.call, None))))
    else None
  }

  /** An operation ends without (another) manifest write: fn failed or changed nothing, a store
      read failed, the context was cancelled, or the retries ran out. */
  function NextAbort(w: World, c: nat, cl: Client, outcome: Outcome): Option<World> {
    if outcome.Committed? then None
    else match cl.op
      case Capturing(call, _) => Some(Finish(w, c, cl, call, outcome))
      case CasReady(u) => Some(Finish(w, c, Rollback(w.restoreSeqOnRollback, cl, u), u.call, outcome))
      case CasLost(u) => Some(Finish(w, c, Rollback(w.restoreSeqOnRollback, cl, u), u.call, outcome))
      case Rebasing(u, _, _, _, _) => Some(Finish(w, c, Rollback(w.restoreSeqOnRollback, cl, u), u.call, outcome))
      case MigrationTop(_) => Some(Move(w, c, w.store, Closed(cl)))
      case Migrating(_) => Some(Move(w, c, w.store, Closed(cl)))
      case MigrationReady(_, _, _) => Some(Move(w, c, w.store, Closed(cl)))
      case Syncing(_) => None
      case _ => Some(Move(w, c, w.store, cl.(op := Idle)))
  }

  function NextStartMigrations(w: World, c: nat, cl: Client): Option<World> {
    if cl.op.Idle? && IncreasingVersions(cl.migrations) then
      Some(Move(w, c, w.store, cl.(op := MigrationTop(-1))))
    else None
  }

  function Next(w: World, a: Action): Option<World> {
    if a.c !in w.clients then None
    else
      var cl := w.clients[a.c];
      match a
      case Load(c, p) => NextLoad(w, c, cl, p)
      case Sync(c, outcome) => NextSync(w, c, cl, outcome)
      case DeleteOrphan(c) => NextDeleteOrphan(w, c, cl)
      case Capture(c, after, id, r) => NextCapture(w, c, cl, after, id, r)
      case Cas(c, r) => NextCas(w, c, cl, r)
      case Reload(c) => NextReload(w, c, cl)
      case RebaseEntry(c) => NextRebaseEntry(w, c, cl)
      case RebaseDone(c) => NextRebaseDone(w, c, cl)
      case CompactUpload(c, id, r) => NextCompactUpload(w, c, cl, id, r)
      case StartMigrations(c) => NextStartMigrations(w, c, cl)
      case MigrationLoad(c) => NextMigrationLoad(w, c, cl)
      case RunUp(c, after, id, r) => NextRunUp(w, c, cl, after, id, r)
      case PushLoad(c, expected) => NextPushLoad(w, c, cl, expected)
      case PushUpload(c, db, id, r) => NextPushUpload(w, c, cl, db, id, r)
      case BootUpload(c, file, id, r) => NextBootUpload(w, c, cl, file, id, r)
      case GcEpoch(c, epoch) => NextGcEpoch(w, c, cl, epoch)
      case GcSnapshot(c, key) => NextGcSnapshot(w, c, cl, key)
      case Abort(c, why) => NextAbort(w, c, cl, why)
  }

  /** A whole run. */
  function Run(w: World, acts: seq<Action>): Option<World>
    decreases |acts|
  {
    if acts == [] then Some(w)
    else match Next(w, acts[0])
      case None => None
      case Some(x) => Run(x, acts[1..])
  }

  /** Before anything happened: an empty store and clients that have not opened it. */
  predicate InitialClient(cl: Client) {
    cl.conn.None? && cl.op.Idle?
  }

  predicate Initial(w: World) {
    && w.store == Store([], [], map[], {})
    && (forall c :: c in w.clients ==> InitialClient(w.clients[c]))
    && w.calls == 0 && w.results == map[]
  }
}
