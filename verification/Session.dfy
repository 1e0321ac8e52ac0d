/** The client code itself: `commitState` as an object whose methods run the loops of the source.
    Every store access is one action of the transition system, and between any two of them the
    other clients take any number of actions.  So each method is a run, and everything proved about
    runs holds of it. */
module Session {
  import opened Basics
  import opened Changesets
  import opened Manifests
  import opened Protocol
  import opened Frames
  import opened Invariant
  import opened Steps
  import opened Theorems

  /** Some run leads from `w` to `v`; if `safe`, one without an unsafe rollback. */
  ghost predicate Evolves(w: World, v: World, safe: bool) {
    exists acts :: Leads(w, acts, v, safe)
  }

  ghost predicate Leads(w: World, acts: seq<Action>, v: World, safe: bool) {
    Run(w, acts) == Some(v) && (safe ==> SafeRun(w, acts))
  }

  lemma EvolvesRefl(w: World)
    ensures Evolves(w, w, true)
  {
    assert Leads(w, [], w, true);
  }

  lemma {:induction false} RunConcat(w: World, a: seq<Action>, x: World, b: seq<Action>, v: World)
    requires Run(w, a) == Some(x) && Run(x, b) == Some(v)
    ensures Run(w, a + b) == Some(v)
    ensures SafeRun(w, a) && SafeRun(x, b) ==> SafeRun(w, a + b)
    decreases |a|
  {
    if a == [] {
      assert a + b == b;
    } else {
      assert (a + b)[1..] == a[1..] + b;
      RunConcat(Next(w, a[0]).value, a[1..], x, b, v);
    }
  }

  lemma EvolvesTrans(w: World, x: World, v: World, s1: bool, s2: bool)
    requires Evolves(w, x, s1) && Evolves(x, v, s2)
    ensures Evolves(w, v, s1 && s2)
  {
    var a :| Leads(w, a, x, s1);
    var b :| Leads(x, b, v, s2);
    RunConcat(w, a, x, b, v);
    assert Leads(w, a + b, v, s1 && s2);
  }

  lemma EvolvesStep(w: World, a: Action, v: World)
    requires Next(w, a) == Some(v)
    ensures Evolves(w, v, Safe(w, a))
  {
    assert Run(v, [a][1..]) == Some(v);
    assert Leads(w, [a], v, Safe(w, a));
  }

  /** Some safe run from an empty store leads here. */
  ghost predicate Reachable(w: World) {
    exists w0 :: Starts(w0, w)
  }

  ghost predicate Starts(w0: World, w: World) {
    Initial(w0) && Evolves(w0, w, true)
  }

  lemma EvolvesGood(w: World, v: World)
    requires Reachable(w) && Evolves(w, v, true)
    ensures Reachable(v)
  {
    var w0 :| Starts(w0, w);
    EvolvesTrans(w0, w, v, true, true);
    assert Starts(w0, v);
  }

  lemma ReachableIsInv(w: World)
    requires Reachable(w)
    ensures Inv(w)
  {
    var w0 :| Starts(w0, w);
    var acts :| Leads(w0, acts, w, true);
    ReachableIsGood(w0, acts, w);
  }

  lemma ReachableStoreInv(v: World)
    requires Reachable(v)
    ensures StoreInv(v.store)
  {
    ReachableIsInv(v);
  }

  lemma ReachableInvs(v: World, id: nat)
    requires Reachable(v) && id in v.clients
    ensures StoreInv(v.store) && ClientInv(v.store, v.clients[id])
  {
    ReachableIsInv(v);
  }

  lemma StoredIsValid(s: Store, i: int, m: Manifest)
    requires StoreInv(s) && Holds(s, i, m)
    ensures ValidManifest(m)
  {
  }

  lemma ExtendsTrans(a: Store, b: Store, c: Store)
    requires Extends(a, b) && Extends(b, c)
    ensures Extends(a, c)
  {
  }

  lemma {:induction false} EntriesGrow(a: map<Key, Blob>, b: map<Key, Blob>, db: Database, log: seq<LogEntry>)
    requires forall k :: k in a ==> k in b && b[k] == a[k]
    requires ApplyEntries(a, db, log).Some?
    ensures ApplyEntries(b, db, log) == ApplyEntries(a, db, log)
    decreases |log|
  {
    if log != [] {
      EntriesGrow(a, b, ApplyEntry(a, db, log[0]).value, log[1..]);
    }
  }

  lemma EntriesSnoc(content: map<Key, Blob>, db: Database, log: seq<LogEntry>, k: nat)
    requires k < |log|
    ensures ApplyEntries(content, db, log[..k + 1])
         == (match ApplyEntries(content, db, log[..k]) case None => None case Some(d) => ApplyEntry(content, d, log[k]))
  {
    assert log[..k + 1] == log[..k] + [log[k]];
    EntriesConcat(content, db, log[..k], [log[k]]);
    if ApplyEntries(content, db, log[..k]).Some? {
      var d := ApplyEntries(content, db, log[..k]).value;
      assert ApplyEntries(content, d, [log[k]]) == ApplyEntry(content, d, log[k]);
    }
  }

  /** If one entry does not apply, the log does not. */
  lemma StuckEntry(content: map<Key, Blob>, base: Database, log: seq<LogEntry>, k: nat)
    requires k < |log| && ApplyEntries(content, base, log[..k]).Some?
    requires ApplyEntry(content, ApplyEntries(content, base, log[..k]).value, log[k]).None?
    ensures ApplyEntries(content, base, log).None?
  {
    EntriesSnoc(content, base, log, k);
    assert log == log[..k + 1] + log[k + 1..];
    EntriesConcat(content, base, log[..k + 1], log[k + 1..]);
  }

  /** Some safe run in which client `id` takes no step. */
  ghost predicate Aside(w: World, v: World, id: nat) {
    exists acts :: Leads(w, acts, v, true) && NoneBy(acts, id)
  }

  predicate NoneBy(acts: seq<Action>, id: nat) {
    forall i :: 0 <= i < |acts| ==> acts[i].c != id
  }

  /** Only others moved between `w` and `v`. */
  ghost predicate Waited(w: World, v: World, id: nat) {
    && Evolves(w, v, true) && Aside(w, v, id) && Extends(w.store, v.store)
    && id in w.clients && id in v.clients && v.clients[id] == w.clients[id]
    && v.restoreSeqOnRollback == w.restoreSeqOnRollback && SwapsNotBy(w.store, v.store, id)
  }

  lemma SwapsNotByTrans(s: Store, t: Store, u: Store, c: nat)
    requires SwapsNotBy(s, t, c) && SwapsNotBy(t, u, c) && Extends(t, u)
    ensures SwapsNotBy(s, u, c)
  {
    forall k | |s.events| <= k < |u.events| ensures SwapAuthor(u.events[k]) != Some(c) {
      if k < |t.events| {
        assert u.events[k] == t.events[k];
      }
    }
  }

  lemma WaitedRefl(w: World, id: nat)
    requires id in w.clients
    ensures Waited(w, w, id)
  {
    EvolvesRefl(w);
    assert Leads(w, [], w, true) && NoneBy([], id);
  }

  lemma AsideTrans(w: World, x: World, v: World, id: nat)
    requires Aside(w, x, id) && Aside(x, v, id)
    ensures Aside(w, v, id)
  {
    var a :| Leads(w, a, x, true) && NoneBy(a, id);
    var b :| Leads(x, b, v, true) && NoneBy(b, id);
    RunConcat(w, a, x, b, v);
    assert Leads(w, a + b, v, true) && NoneBy(a + b, id);
  }

  lemma WaitedTrans(w: World, x: World, v: World, id: nat)
    requires Waited(w, x, id) && Waited(x, v, id)
    ensures Waited(w, v, id)
  {
    EvolvesTrans(w, x, v, true, true);
    AsideTrans(w, x, v, id);
    ExtendsTrans(w.store, x.store, v.store);
  }

  lemma WaitedStep(w: World, a: Action, v: World, id: nat)
    requires id in w.clients && a.c != id && Next(w, a) == Some(v) && Safe(w, a)
    ensures Waited(w, v, id)
  {
    NextIsFramed(w, a, v);
    NewSwapsBy(w, a, v);
    EvolvesStep(w, a, v);
    assert Run(v, [a][1..]) == Some(v);
    assert Leads(w, [a], v, true) && NoneBy([a], id);
  }

  /** A run that client `id` survives, whose steps were all safe if `safe`. */
  ghost predicate Ran(w: World, v: World, id: nat, safe: bool) {
    && Evolves(w, v, safe) && v.restoreSeqOnRollback == w.restoreSeqOnRollback
    && id in w.clients && id in v.clients && v.clients[id].migrations == w.clients[id].migrations
    && v.clients[id].schemaVer == w.clients[id].schemaVer
  }

  lemma RanRefl(w: World, id: nat)
    requires id in w.clients
    ensures Ran(w, w, id, true)
  {
    EvolvesRefl(w);
  }

  lemma RanTrans(w: World, x: World, v: World, id: nat, s1: bool, s2: bool)
    requires Ran(w, x, id, s1) && Ran(x, v, id, s2)
    ensures Ran(w, v, id, s1 && s2)
  {
    EvolvesTrans(w, x, v, s1, s2);
  }

  /** One of our own steps, after waiting. */
  lemma RanStep(w: World, x: World, a: Action, v: World, id: nat)
    requires Waited(w, x, id) && Next(x, a) == Some(v)
    ensures Ran(w, v, id, Safe(x, a))
  {
    NextIsFramed(x, a, v);
    EvolvesStep(x, a, v);
    EvolvesTrans(w, x, v, true, Safe(x, a));
  }

  /** Runs only add to the store. */
  lemma {:induction false} RunExtends(w: World, acts: seq<Action>, v: World)
    requires Run(w, acts) == Some(v)
    ensures Extends(w.store, v.store)
    decreases |acts|
  {
    if acts != [] {
      var x := Next(w, acts[0]).value;
      NextIsFramed(w, acts[0], x);
      RunExtends(x, acts[1..], v);
      ExtendsTrans(w.store, x.store, v.store);
    }
  }

  lemma RanExtends(w: World, v: World, id: nat, safe: bool)
    requires Ran(w, v, id, safe)
    ensures Extends(w.store, v.store)
  {
    var acts :| Leads(w, acts, v, safe);
    RunExtends(w, acts, v);
  }

  /** History position `i` holds the manifest `m`. */
  predicate Holds(s: Store, i: int, m: Manifest) {
    0 <= i < |s.hist| && s.hist[i] == m
  }

  lemma HoldsOn(w: World, v: World, id: nat, safe: bool, i: int, m: Manifest)
    requires Ran(w, v, id, safe) && Holds(w.store, i, m)
    ensures Holds(v.store, i, m) && |w.store.hist| <= |v.store.hist|
  {
    RanExtends(w, v, id, safe);
  }

  /** A replay that succeeded stays what it is. */
  lemma ReplayStays(w: World, x: World, y: World, id: nat, m: Manifest)
    requires Ran(x, y, id, true) && Replay(x.store.content, m).Some?
    ensures Replay(y.store.content, m) == Replay(x.store.content, m)
  {
    RanExtends(x, y, id, true);
    EntriesGrow(x.store.content, y.store.content, x.store.content[m.snapshot.key].db, m.log);
  }

  // ---------------------------------------------------------------- why a call may fail

  /** A moment of a client's life: the next call of its environment, and the world. */
  datatype Moment = Moment(clock: nat, world: World)

  /** Between two moments some call of the environment was answered with a failure. */
  ghost predicate Fault(oracle: nat -> Reply, a: Moment, b: Moment) {
    exists i :: a.clock <= i < b.clock && oracle(i).Failed?
  }

  predicate MissesBlob(s: Store, m: Manifest) {
    m.snapshot.key !in s.live || exists j :: 0 <= j < |m.log| && m.log[j].key !in s.live
  }

  /** Between two moments the world was `x`, where a blob that the manifest at `i` names was gone. */
  ghost predicate LostIn(a: Moment, b: Moment, x: World, i: int) {
    Evolves(a.world, x, false) && Evolves(x, b.world, false) && 0 <= i < |x.store.hist|
      && MissesBlob(x.store, x.store.hist[i])
  }

  /** Between two moments a blob was gone that a manifest at position `from` or later names. */
  ghost predicate Lost(a: Moment, b: Moment, from: int) {
    exists x, i :: from <= i && LostIn(a, b, x, i)
  }

  /** The only things that make a store access fail: the environment, or a sweep that deleted a blob
      in use. */
  ghost predicate Trouble(oracle: nat -> Reply, a: Moment, b: Moment, from: int) {
    Fault(oracle, a, b) || Lost(a, b, from)
  }

  lemma EvolvesAny(w: World, v: World, safe: bool)
    requires Evolves(w, v, safe)
    ensures Evolves(w, v, false)
  {
    var acts :| Leads(w, acts, v, safe);
    assert Leads(w, acts, v, false);
  }

  /** Trouble in part of a stretch is trouble in all of it. */
  lemma TroubleGrows(oracle: nat -> Reply, a: Moment, b: Moment, c: Moment, d: Moment, s1: bool, s2: bool, from: int,
                     from2: int)
    requires Trouble(oracle, b, c, from) && from2 <= from
    requires a.clock <= b.clock && c.clock <= d.clock
    requires Evolves(a.world, b.world, s1) && Evolves(c.world, d.world, s2)
    ensures Trouble(oracle, a, d, from2)
  {
    if Fault(oracle, b, c) {
      var i :| b.clock <= i < c.clock && oracle(i).Failed?;
      assert a.clock <= i < d.clock;
    } else {
      var x, i :| from <= i && LostIn(b, c, x, i);
      EvolvesAny(a.world, b.world, s1);
      EvolvesAny(c.world, d.world, s2);
      EvolvesTrans(a.world, b.world, x, false, false);
      EvolvesTrans(x, c.world, d.world, false, false);
      assert LostIn(a, d, x, i);
    }
  }

  /** ... in particular at the end of it. */
  lemma TroubleSince(oracle: nat -> Reply, a: Moment, b: Moment, c: Moment, from: int)
    requires Reachable(a.world) && Evolves(a.world, b.world, true) && a.clock <= b.clock
    requires Reachable(b.world) ==> Trouble(oracle, b, c, from)
    ensures Trouble(oracle, a, c, from)
  {
    EvolvesGood(a.world, b.world);
    EvolvesRefl(c.world);
    TroubleGrows(oracle, a, b, c, c, true, true, from, from);
  }

  lemma FaultAt(oracle: nat -> Reply, a: Moment, b: Moment, i: nat)
    requires a.clock <= i < b.clock && oracle(i).Failed?
    ensures Fault(oracle, a, b)
  {
  }

  lemma FaultGrows(oracle: nat -> Reply, a: Moment, b: Moment, c: Moment, d: Moment)
    requires Fault(oracle, b, c) && a.clock <= b.clock && c.clock <= d.clock
    ensures Fault(oracle, a, d)
  {
    var i :| b.clock <= i < c.clock && oracle(i).Failed?;
    assert a.clock <= i < d.clock;
  }

  lemma TroubleFrom(oracle: nat -> Reply, a: Moment, b: Moment, from: int, from2: int)
    requires Trouble(oracle, a, b, from) && from2 <= from
    ensures Trouble(oracle, a, b, from2)
  {
    if Lost(a, b, from) {
      var x, i :| from <= i && LostIn(a, b, x, i);
      assert from2 <= i && LostIn(a, b, x, i);
    }
  }

  lemma LostNow(a: Moment, b: Moment, safe: bool, at: int)
    requires Evolves(a.world, b.world, safe) && 0 <= at < |b.world.store.hist|
    requires MissesBlob(b.world.store, b.world.store.hist[at])
    ensures Lost(a, b, at)
  {
    EvolvesAny(a.world, b.world, safe);
    EvolvesRefl(b.world);
    EvolvesAny(b.world, b.world, true);
    assert LostIn(a, b, b.world, at);
  }

  /** Every one of `need` is in the log at position `at`. */
  ghost predicate NamedAt(s: Store, at: int, need: seq<LogEntry>) {
    0 <= at < |s.hist| && forall j :: 0 <= j < |need| ==> need[j] in s.hist[at].log
  }

  lemma {:induction false} NeedIsNamed(log: seq<LogEntry>, from: int)
    ensures forall j :: 0 <= j < |Need(log, from)| ==> Need(log, from)[j] in log
    decreases |log|
  {
    if log != [] {
      NeedIsNamed(log[1..], from);
      forall j | 0 <= j < |Need(log, from)| ensures Need(log, from)[j] in log {
        assert Need(log, from)[j] == log[0] || Need(log, from)[j] in log[1..];
      }
    }
  }

  /** In a reachable world a changeset in the log cannot be read only if it is gone. */
  lemma UnreadEntry(a: Moment, b: Moment, safe: bool, at: int, e: LogEntry)
    requires Evolves(a.world, b.world, safe) && Reachable(b.world) && NamedAt(b.world.store, at, [e])
    requires e.key !in b.world.store.live || EntryChanges(b.world.store.content, e).None?
    ensures Lost(a, b, at)
  {
    ReachableStoreInv(b.world);
    var s := b.world.store;
    assert [e][0] in s.hist[at].log;
    var j :| 0 <= j < |s.hist[at].log| && s.hist[at].log[j] == e;
    assert EntryKeyed(s.content, s.hist[at], j);
    LostNow(a, b, safe, at);
  }

  lemma UnreadSnapshot(a: Moment, b: Moment, safe: bool, at: int, m: Manifest)
    requires Evolves(a.world, b.world, safe) && Reachable(b.world) && Holds(b.world.store, at, m)
    requires m.snapshot.key !in b.world.store.live || SnapshotOf(b.world.store.content, m).None?
    ensures Lost(a, b, at)
  {
    ReachableStoreInv(b.world);
    assert WellKeyed(b.world.store.content, m);
    LostNow(a, b, safe, at);
  }

  /** In a reachable world the log tail that a sync needs applies. */
  lemma TailApplies(w: World, id: nat)
    requires Reachable(w) && id in w.clients && w.clients[id].op.Syncing?
    requires SyncBase(w.store.content, w.clients[id]).Some?
    ensures var b := SyncBase(w.store.content, w.clients[id]).value;
            b.conn.Some? && ApplyEntries(w.store.content, b.conn.value, Need(b.m.log, b.localSeq)).Some?
  {
    ReachableIsInv(w);
    assert ClientInv(w.store, w.clients[id]);
    SyncBaseFaithful(w.store, w.clients[id]);
    var b := SyncBase(w.store.content, w.clients[id]).value;
    var need := Need(b.m.log, b.localSeq);
    AppliedFaithful(w.store, b, |need|);
    assert need[..|need|] == need;
  }

  /** No manifest was there at `s`, or one current by `t` is of another schema version. */
  ghost predicate OtherSchema(s: Store, t: Store, schemaVer: int) {
    s.hist == [] || exists i :: |s.hist| - 1 <= i < |t.hist| && t.hist[i].schema != schemaVer
  }

  /** Why `refreshManifest` may fail between two moments. */
  ghost predicate CannotRefresh(oracle: nat -> Reply, a: Moment, b: Moment, schemaVer: int) {
    || Trouble(oracle, a, b, |a.world.store.hist| - 1)
    || OtherSchema(a.world.store, b.world.store, schemaVer)
  }

  /** A reason to fail in the last part of a stretch is one in all of it. */
  lemma CannotRefreshSince(oracle: nat -> Reply, a: Moment, b: Moment, c: Moment, schemaVer: int)
    requires Reachable(a.world) && Evolves(a.world, b.world, true) && a.clock <= b.clock
    requires |a.world.store.hist| <= |b.world.store.hist|
    requires CannotRefresh(oracle, b, c, schemaVer)
    ensures CannotRefresh(oracle, a, c, schemaVer)
  {
    if Trouble(oracle, b, c, |b.world.store.hist| - 1) {
      TroubleSince(oracle, a, b, c, |b.world.store.hist| - 1);
      TroubleFrom(oracle, a, c, |b.world.store.hist| - 1, |a.world.store.hist| - 1);
    } else if b.world.store.hist != [] {
      var i :| |b.world.store.hist| - 1 <= i < |c.world.store.hist| && c.world.store.hist[i].schema != schemaVer;
      assert |a.world.store.hist| - 1 <= i;
    }
  }

  lemma NoConflict(w0: World, x: World, v: World, id: nat, b: Client)
    requires Reachable(w0) && Waited(w0, x, id) && Waited(w0, v, id) && x.clients[id].op.Syncing?
    requires Extends(x.store, v.store) && SyncBase(x.store.content, x.clients[id]) == Some(b)
    ensures b.conn.Some? && ApplyEntries(v.store.content, b.conn.value, Need(b.m.log, b.localSeq)).Some?
  {
    EvolvesGood(w0, x);
    TailApplies(x, id);
    EntriesGrow(x.store.content, v.store.content, b.conn.value, Need(b.m.log, b.localSeq));
  }

  /** A sync whose log tail was not applied to the end ran into trouble. */
  lemma TailTrouble(oracle: nat -> Reply, a: Moment, b: Moment, c: Moment, id: nat, base: Client, at: int)
    requires Reachable(a.world) && Waited(a.world, b.world, id) && Waited(a.world, c.world, id)
    requires b.world.clients[id].op.Syncing? && Extends(b.world.store, c.world.store)
    requires SyncBase(b.world.store.content, b.world.clients[id]) == Some(base) && base.conn.Some?
    requires || (Reachable(b.world) ==> Trouble(oracle, b, c, at))
             || ApplyEntries(c.world.store.content, base.conn.value, Need(base.m.log, base.localSeq)).None?
    requires a.clock <= b.clock <= c.clock
    ensures Trouble(oracle, a, c, at)
  {
    NoConflict(a.world, b.world, c.world, id, base);
    EvolvesGood(a.world, b.world);
    EvolvesRefl(c.world);
    TroubleGrows(oracle, a, b, c, c, true, true, at, at);
  }

  lemma LoadStep(w: World, x: World, id: nat, p: Purpose, v: World)
    requires Waited(w, x, id) && x.store.hist != [] && Next(x, Load(id, p)) == Some(v)
    ensures Ran(w, v, id, true) && v.store == x.store
    ensures v.clients[id] == Loaded(x.clients[id], x.store).(op := Syncing(p))
  {
    RanStep(w, x, Load(id, p), v, id);
  }

  /** The local effect of a sync, assembled from what its two halves saw. */
  lemma SyncedFrom(s: Store, t: Store, cl: Client, b: Client, db: Database, seqNo: int, k: nat, outcome: SyncOutcome)
    requires Extends(s, t) && SyncBase(s.content, cl) == Some(b) && b.conn.Some?
    requires var need := Need(b.m.log, b.localSeq);
             && k <= |need| && ApplyEntries(t.content, b.conn.value, need[..k]) == Some(db)
             && seqNo == (if k == 0 then b.localSeq else need[k - 1].seqNo)
             && outcome == (if k == |need| then Completed else Stopped(k))
    ensures Synced(t.content, cl, outcome) == Some(b.(conn := Some(db), connAt := b.connAt + k, localSeq := seqNo))
  {
  }

  lemma SyncEnds(w0: World, w: World, id: nat, x: Client, outcome: SyncOutcome, v: World)
    requires Waited(w0, w, id) && w.clients[id].op.Syncing?
               && Synced(w.store.content, w.clients[id], outcome) == Some(x)
    requires Next(w, Sync(id, outcome)) == Some(v)
    ensures Ran(w0, v, id, true) && v.store == w.store && Evolves(w, v, true)
    ensures SwapsNotBy(w0.store, v.store, id)
    ensures v.clients[id] == x.(op := if outcome.Completed? then AfterSync(x, w.clients[id].op.purpose) else Idle)
    ensures var p := w.clients[id].op.purpose;
            !outcome.Completed? && p.ForUpdate? ==> p.call in v.results && v.results[p.call] == Error
  {
    RanStep(w0, w, Sync(id, outcome), v, id);
    EvolvesStep(w, Sync(id, outcome), v);
  }

  lemma SyncedIsGood(w0: World, w: World, id: nat, x: Client, outcome: SyncOutcome)
    requires Reachable(w0) && Evolves(w0, w, true) && id in w.clients && w.clients[id].op.Syncing?
    requires Synced(w.store.content, w.clients[id], outcome) == Some(x)
    ensures Faithful(w.store, x) && (outcome.Completed? ==> x.conn == Replay(w.store.content, x.m))
  {
    EvolvesGood(w0, w);
    ReachableIsInv(w);
    assert ClientInv(w.store, w.clients[id]);
    SyncAgrees(w.store, w.clients[id], outcome);
  }

  class Db {
    const id: nat
    const maxRetries: nat

    /** How the environment answers this client's calls, one after the other: the store, the context,
        the local disk.  `clock` counts them. */
    const oracle: nat -> Reply
    var clock: nat

    /** The shared store and all clients, this one included. */
    var world: World

    // commitState
    var conn: Option<Database>
    var localSeq: int
    var snapshotKey: Key
    var manifest: Manifest
    var etag: ETag

    ghost predicate Agrees()
      reads this
    {
      && id in world.clients
      && var cl := world.clients[id];
         cl.conn == conn && cl.localSeq == localSeq && cl.snapshotKey == snapshotKey && cl.m == manifest
             && cl.etag == etag
    }

    ghost function Now(): Moment
      reads this`clock, this`world
    {
      Moment(clock, world)
    }

    /** The next answer of the environment. */
    method Ask() returns (r: Reply)
      modifies this`clock
      ensures r == oracle(old(clock)) && clock == old(clock) + 1
    {
      r := oracle(clock);
      clock := clock + 1;
    }

    ghost function Me(): Client
      requires Agrees()
      reads this
    {
      world.clients[id]
    }

    /** Any interleaving: an arbitrary sequence of actions of other clients, each taken if enabled. */
    method Interfere()
      requires Agrees()
      modifies this`world
      ensures Agrees() && Waited(old(world), world, id)
    {
      var acts: seq<Action> := *;
      WaitedRefl(world, id);
      ghost var w0 := world;
      for i := 0 to |acts|
        invariant Agrees() && Waited(w0, world, id)
      {
        var a := acts[i];
        if a.c != id && Next(world, a).Some? && Safe(world, a) {
          var v := Next(world, a).value;
          WaitedStep(world, a, v, id);
          WaitedTrans(w0, world, v, id);
          world := v;
        }
      }
    }

    constructor (id: nat, maxRetries: nat, world: World, oracle: nat -> Reply)
      requires id in world.clients
      ensures Agrees() && this.world == world && this.id == id && this.maxRetries == maxRetries
      ensures this.oracle == oracle && clock == 0
    {
      this.id, this.maxRetries, this.world, this.oracle, clock := id, maxRetries, world, oracle, 0;
      var cl := world.clients[id];
      conn, localSeq, snapshotKey, manifest, etag := cl.conn, cl.localSeq, cl.snapshotKey, cl.m, cl.etag;
    }

    // -------------------------------------------------------------- sync.go

    /** The first loop of `applyLog`. */
    static method CollectNeeded(log: seq<LogEntry>, fromSeq: int) returns (need: seq<LogEntry>)
      ensures need == Need(log, fromSeq)
    {
      need := [];
      var i := 0;
      while i < |log|
        invariant 0 <= i <= |log|
        invariant need + Need(log[i..], fromSeq) == Need(log, fromSeq)
      {
        assert log[i..][0] == log[i] && log[i..][1..] == log[i + 1..];
        if log[i].seqNo > fromSeq {
          need := need + [log[i]];
        }
        i := i + 1;
      }
    }

    /** The last loop of `applyLog`: the fetched bodies in order, up to the first that conflicts. */
    static method ApplyBodies(ghost content: map<Key, Blob>, need: seq<LogEntry>, bodies: seq<Changeset>,
          base: Database, fromSeq: int)
        returns (db: Database, seqNo: int, k: nat)
      requires |bodies| == |need| && forall j :: 0 <= j < |need| ==> EntryChanges(content, need[j]) == Some(bodies[j])
      ensures k <= |need| && ApplyEntries(content, base, need[..k]) == Some(db)
      ensures seqNo == if k == 0 then fromSeq else need[k - 1].seqNo
      ensures k < |need| ==> ApplyEntry(content, db, need[k]).None?
    {
      db, seqNo, k := base, fromSeq, 0;
      while k < |bodies|
        invariant 0 <= k <= |bodies|
        invariant ApplyEntries(content, base, need[..k]) == Some(db)
        invariant seqNo == if k == 0 then fromSeq else need[k - 1].seqNo
      {
        EntriesSnoc(content, base, need, k);
        match Apply(db, bodies[k]) {
          case None => return;
          case Some(d) => db := d;
        }
        seqNo := need[k].seqNo;
        k := k + 1;
      }
    }

    /** `applyLog`: collect the tail, fetch every body, apply in order.  Whatever happens, `seqNo` is
        the Seq of the last entry in `db`, and all entries up to it are in `db`.  It stops short only
        for trouble, or because the tail does not apply. */
    method ApplyLog(base: Database, log: seq<LogEntry>, fromSeq: int, ghost at: int)
        returns (db: Database, seqNo: int, ok: bool, k: nat)
      requires Agrees() && 0 <= at < |world.store.hist| && world.store.hist[at].log == log
      modifies this`world, this`clock
      ensures Agrees() && Waited(old(world), world, id) && clock >= old(clock)
      ensures var need := Need(log, fromSeq);
              && k <= |need| && (ok <==> k == |need|)
              && ApplyEntries(world.store.content, base, need[..k]) == Some(db)
              && seqNo == if k == 0 then fromSeq else need[k - 1].seqNo
      ensures !ok && Reachable(old(world)) ==>
                || Trouble(oracle, old(Now()), Now(), at)
                || ApplyEntries(world.store.content, base, Need(log, fromSeq)).None?
    {
      WaitedRefl(world, id);
      var need := CollectNeeded(log, fromSeq);
      NeedIsNamed(log, fromSeq);
      assert need[..0] == [];
      db, seqNo, k, ok := base, fromSeq, 0, |need| == 0;
      if |need| == 0 {
        return;
      }
      var fetched, bodies := FetchAll(need, at);
      if fetched {
        db, seqNo, k := ApplyBodies(world.store.content, need, bodies, base, fromSeq);
        ok := k == |need|;
        if !ok {
          StuckEntry(world.store.content, base, need, k);
        }
      }
    }

    /** The concurrent fetch: every body, or an error. */
    method FetchAll(need: seq<LogEntry>, ghost at: int) returns (ok: bool, bodies: seq<Changeset>)
      requires Agrees() && NamedAt(world.store, at, need)
      modifies this`world, this`clock
      ensures Agrees() && Waited(old(world), world, id) && clock >= old(clock)
      ensures ok ==> |bodies| == |need| && forall j :: 0 <= j < |need| ==>
                EntryChanges(world.store.content, need[j]) == Some(bodies[j])
      ensures !ok && Reachable(old(world)) ==> Trouble(oracle, old(Now()), Now(), at)
    {
      WaitedRefl(world, id);
      ghost var start := Now();
      bodies := [];
      for i := 0 to |need|
        invariant |bodies| == i && clock >= start.clock
        invariant Agrees() && Waited(start.world, world, id)
        invariant forall j :: 0 <= j < i ==> EntryChanges(world.store.content, need[j]) == Some(bodies[j])
      {
        ghost var here := Now();
        var body := GetChangeset(need[i], at);
        WaitedTrans(start.world, here.world, world, id);
        if body.None? {
          if Reachable(start.world) {
            EvolvesGood(start.world, here.world);
            EvolvesRefl(world);
            TroubleGrows(oracle, start, here, Now(), Now(), true, true, at, at);
          }
          return false, [];
        }
        bodies := bodies + [body.value];
      }
      ok := true;
    }

    /** One GET of a changeset in the log at position `at`: it may fail, and it fails if the blob is
        gone. */
    method GetChangeset(e: LogEntry, ghost at: int) returns (body: Option<Changeset>)
      requires Agrees() && NamedAt(world.store, at, [e])
      modifies this`world, this`clock
      ensures Agrees() && Waited(old(world), world, id) && clock >= old(clock)
      ensures body.Some? ==> EntryChanges(world.store.content, e) == body
      ensures body.None? && Reachable(old(world)) ==> Trouble(oracle, old(Now()), Now(), at)
    {
      ghost var start := Now();
      Interfere();
      var r := Ask();
      body := if r.Failed? || e.key !in world.store.live then None else EntryChanges(world.store.content, e);
      if body.None? && r.Answered? && Reachable(start.world) {
        EvolvesGood(start.world, world);
        UnreadEntry(start, Now(), true, at, e);
      }
    }

    /** The GET of the snapshot of the manifest `m` at position `at`. */
    method GetSnapshot(m: Manifest, ghost at: int) returns (db: Option<Database>)
      requires Agrees() && Holds(world.store, at, m)
      modifies this`world, this`clock
      ensures Agrees() && Waited(old(world), world, id) && clock >= old(clock)
      ensures db.Some? ==> SnapshotOf(world.store.content, m) == db
      ensures db.None? && Reachable(old(world)) ==> Trouble(oracle, old(Now()), Now(), at)
    {
      ghost var start := Now();
      Interfere();
      var r := Ask();
      db := if r.Failed? || m.snapshot.key !in world.store.live then None else SnapshotOf(world.store.content, m);
      if db.None? && r.Answered? && Reachable(start.world) {
        EvolvesGood(start.world, world);
        UnreadSnapshot(start, Now(), true, at, m);
      }
    }

    // -------------------------------------------------------------- commit.go: syncToManifest

    /** The refresh half of `syncToManifest`, if it is needed at all: the database and Seq from
        which the log tail is to be applied. */
    method SyncStart(ghost at: int) returns (base: Option<Database>, from: int, refresh: bool)
      requires Agrees() && Holds(world.store, at, manifest)
      modifies this`world, this`clock
      ensures Agrees() && Waited(old(world), world, id) && clock >= old(clock)
      ensures refresh == NeedsRefresh(Me())
      ensures base.None? ==> refresh && (Reachable(old(world)) ==> Trouble(oracle, old(Now()), Now(), at))
      ensures base.Some? ==>
                var b := if refresh then Refreshed(Me(), base.value) else Me();
                SyncBase(world.store.content, Me()) == Some(b) && b.conn == base && b.localSeq == from
      ensures !refresh ==> snapshotKey == manifest.snapshot.key
    {
      WaitedRefl(world, id);
      refresh := conn.None? || localSeq < manifest.snapshot.seqNo || snapshotKey != manifest.snapshot.key;
      base, from := conn, localSeq;
      if refresh {
        base := GetSnapshot(manifest, at);
        from := manifest.snapshot.seqNo;
      }
    }

    /** `syncToManifest`, to the manifest at position `at`.  It is one Sync step of the transition
        system with the outcome the code saw, so in a good world success means the cache is the replay
        of the manifest, and failure leaves nothing or a faithful prefix; and it fails only for
        trouble: no log tail ever conflicts. */
    method SyncToManifest(ghost p: Purpose, ghost at: int) returns (ok: bool)
      requires Agrees() && Me().op == Syncing(p) && Holds(world.store, at, manifest)
      modifies this
      ensures Agrees() && Ran(old(world), world, id, true) && clock >= old(clock)
      ensures manifest == old(manifest) && etag == old(etag)
      ensures Me().op == (if ok then AfterSync(Me(), p) else Idle)
      ensures ok ==> conn.Some? && snapshotKey == manifest.snapshot.key
      ensures !ok && p.ForUpdate? ==> p.call in world.results && world.results[p.call] == Error
      ensures SwapsNotBy(old(world).store, world.store, id)
      ensures Reachable(old(world)) ==> Faithful(world.store, Me())
      ensures Reachable(old(world)) && ok ==> conn == Replay(world.store.content, manifest)
      ensures Reachable(old(world)) && !ok ==> Trouble(oracle, old(Now()), Now(), at)
    {
      ghost var start, cl := Now(), Me();
      var base, from, refresh := SyncStart(at);
      if base.None? {
        ghost var here := Now();
        SyncStep(start.world, cl.(conn := None), DownloadFailed, None, localSeq, snapshotKey);
        if Reachable(start.world) {
          EvolvesRefl(start.world);
          TroubleGrows(oracle, start, start, here, Now(), true, true, at, at);
        }
        ok := false;
      } else {
        ghost var b := if refresh then Refreshed(cl, base.value) else cl;
        ok := SyncTail(start, b, base.value, from, if refresh then manifest.snapshot.key else snapshotKey, at);
      }
    }

    /** The `applyLog` half of `syncToManifest`, from the client `b` the first half left. */
    method SyncTail(ghost start: Moment, ghost b: Client, base: Database, from: int, key: Key, ghost at: int)
        returns (ok: bool)
      requires Agrees() && Waited(start.world, world, id) && Me().op.Syncing? && Holds(world.store, at, manifest)
      requires SyncBase(world.store.content, Me()) == Some(b) && start.clock <= clock
      requires b.conn == Some(base) && b.localSeq == from && b.m == manifest && b.etag == etag && b.snapshotKey == key
      modifies this
      ensures Agrees() && Ran(start.world, world, id, true) && clock >= old(clock)
      ensures manifest == old(manifest) && etag == old(etag) && conn.Some? && snapshotKey == key
      ensures Me().op == (if ok then AfterSync(Me(), old(Me()).op.purpose) else Idle)
      ensures var p := old(Me()).op.purpose; !ok && p.ForUpdate? ==>
                p.call in world.results && world.results[p.call] == Error
      ensures SwapsNotBy(start.world.store, world.store, id)
      ensures Reachable(start.world) ==> Faithful(world.store, Me())
      ensures Reachable(start.world) && ok ==> conn == Replay(world.store.content, manifest)
      ensures Reachable(start.world) && !ok ==> Trouble(oracle, start, Now(), at)
    {
      var x, db, seqNo, outcome := FetchTail(start, b, base, from, at);
      ghost var there := Now();
      ok := outcome.Completed?;
      SyncStep(start.world, x, outcome, Some(db), seqNo, key);
      if Reachable(start.world) && !ok {
        EvolvesRefl(start.world);
        TroubleGrows(oracle, start, start, there, Now(), true, true, at, at);
      }
    }

    /** `applyLog` on what the first half left: the outcome, and the client `x` it makes. */
    method FetchTail(ghost start: Moment, ghost b: Client, base: Database, from: int, ghost at: int)
        returns (ghost x: Client, db: Database, seqNo: int, outcome: SyncOutcome)
      requires Agrees() && Waited(start.world, world, id) && Me().op.Syncing? && Holds(world.store, at, manifest)
      requires SyncBase(world.store.content, Me()) == Some(b) && start.clock <= clock
      requires b.conn == Some(base) && b.localSeq == from && b.m == manifest
      modifies this`world, this`clock
      ensures Agrees() && Waited(start.world, world, id) && clock >= old(clock) && !outcome.DownloadFailed?
      ensures Synced(world.store.content, Me(), outcome) == Some(x)
      ensures x == b.(conn := Some(db), connAt := x.connAt, localSeq := seqNo)
      ensures Reachable(start.world) && !outcome.Completed? ==> Trouble(oracle, start, Now(), at)
    {
      ghost var here, cl := Now(), Me();
      var ok, k;
      db, seqNo, ok, k := ApplyLog(base, manifest.log, from, at);
      WaitedTrans(start.world, here.world, world, id);
      outcome := if ok then Completed else Stopped(k);
      SyncedFrom(here.world.store, world.store, cl, b, db, seqNo, k, outcome);
      x := b.(conn := Some(db), connAt := b.connAt + k, localSeq := seqNo);
      if Reachable(start.world) && !ok {
        TailTrouble(oracle, start, here, Now(), id, b, at);
      }
    }

    /** The Sync step that ends a sync: `x` is what the local state becomes. */
    method SyncStep(ghost w0: World, ghost x: Client, outcome: SyncOutcome, db: Option<Database>, seqNo: int, key: Key)
      requires Agrees() && Waited(w0, world, id) && Me().op.Syncing?
      requires Synced(world.store.content, Me(), outcome) == Some(x)
      requires x.conn == db && x.localSeq == seqNo && x.snapshotKey == key && x.m == manifest && x.etag == etag
      modifies this`world, this`conn, this`localSeq, this`snapshotKey
      ensures Agrees() && Ran(w0, world, id, true) && Evolves(old(world), world, true)
      ensures conn == db && snapshotKey == key
      ensures Me().op == (if outcome.Completed? then AfterSync(Me(), old(Me()).op.purpose) else Idle)
      ensures var p := old(Me()).op.purpose;
              !outcome.Completed? && p.ForUpdate? ==> p.call in world.results && world.results[p.call] == Error
      ensures SwapsNotBy(w0.store, world.store, id)
      ensures Reachable(w0) ==> Faithful(world.store, Me())
      ensures Reachable(w0) && outcome.Completed? ==> conn == Replay(world.store.content, manifest)
    {
      ghost var w1, cl := world, Me();
      var v := Next(world, Sync(id, outcome)).value;
      SyncEnds(w0, world, id, x, outcome, v);
      world := v;
      conn, localSeq, snapshotKey := db, seqNo, key;
      if Reachable(w0) {
        SyncedIsGood(w0, w1, id, x, outcome);
      }
    }

    // -------------------------------------------------------------- commit.go: refreshManifest

    /** The load half of `refreshManifest`: GET, check the schema version, adopt.  An Update gets
        its call number here. */
    method LoadManifest(p: Purpose) returns (ok: bool, ghost at: int)
      requires Agrees() && Me().op.Idle? && (p.ForView? || p.ForCompact? || p.ForGc? || p == ForUpdate(0, None))
      modifies this
      ensures Agrees() && Ran(old(world), world, id, true) && clock >= old(clock)
      ensures conn == old(conn) && localSeq == old(localSeq) && snapshotKey == old(snapshotKey)
      ensures !ok ==> Me().op.Idle? && manifest == old(manifest) && etag == old(etag)
      ensures !ok ==>
                Fault(oracle, old(Now()), Now()) || OtherSchema(old(world).store, world.store, old(Me()).schemaVer)
      ensures ok ==> manifest.schema == old(Me()).schemaVer
      ensures ok ==> Me().op.Syncing? && (p.ForUpdate? ==> Me().op.purpose.ForUpdate? && Me().op.purpose.orphan == None)
      ensures ok && !p.ForUpdate? ==> Me().op.purpose == p
      ensures ok ==> |old(world).store.hist| - 1 <= at && Holds(world.store, at, manifest) && etag == Md5(manifest)
      ensures SwapsNotBy(old(world).store, world.store, id)
    {
      ghost var w := world;
      RanRefl(w, id);
      Interfere();
      at := -1;
      var r := Ask();
      if r.Failed? || world.store.hist == [] {
        return false, at;
      }
      var m := world.store.hist[|world.store.hist| - 1];
      if m.schema != world.clients[id].schemaVer {
        return false, at;
      }
      ok, at := true, |world.store.hist| - 1;
      AdoptManifest(w, p, m);
    }

    /** The loaded manifest is of our schema version: hold it. */
    method AdoptManifest(ghost w: World, p: Purpose, m: Manifest)
      requires Agrees() && Waited(w, world, id) && Me().op.Idle? && Holds(world.store, |world.store.hist| - 1, m)
      requires (p.ForView? || p.ForCompact? || p.ForGc? || p == ForUpdate(0, None)) && m.schema == Me().schemaVer
      modifies this`world, this`manifest, this`etag
      ensures Agrees() && Ran(w, world, id, true) && manifest == m && etag == Md5(m)
      ensures Me().op.Syncing? && (p.ForUpdate? ==> Me().op.purpose.ForUpdate? && Me().op.purpose.orphan == None)
      ensures (!p.ForUpdate? ==> Me().op.purpose == p) && world.store == old(world).store
    {
      ghost var x := world;
      var q := if p.ForUpdate? then ForUpdate(world.calls, None) else p;
      world := Next(world, Load(id, q)).value;
      LoadStep(w, x, id, q, world);
      manifest, etag := m, Md5(m);
    }

    /** `refreshManifest`.  In a good world success leaves the cache equal to a state of the
        database that was current at some moment of the call; a failed call leaves the cache
        absent or faithful to what it says it is, and has a reason. */
    method RefreshManifest(p: Purpose) returns (ok: bool, ghost at: int)
      requires Agrees() && Me().op.Idle? && (p.ForView? || p.ForCompact? || p.ForGc? || p == ForUpdate(0, None))
      modifies this
      ensures Agrees() && Ran(old(world), world, id, true) && clock >= old(clock)
      ensures !ok ==> Me().op.Idle?
      ensures ok ==> manifest.schema == old(Me()).schemaVer
      ensures ok ==> conn.Some? && snapshotKey == manifest.snapshot.key
      ensures ok ==> (p.ForUpdate? ==> Me().op.Capturing? && Me().op.orphan == None)
      ensures ok && !p.ForUpdate? ==> Me().op == AfterSync(Me(), p)
      ensures ok ==> |old(world).store.hist| - 1 <= at && Holds(world.store, at, manifest) && etag == Md5(manifest)
      ensures SwapsNotBy(old(world).store, world.store, id)
      ensures Reachable(old(world)) && ok ==> conn == StateAt(world.store, at)
      ensures Reachable(old(world)) && !ok ==> CannotRefresh(oracle, old(Now()), Now(), old(Me()).schemaVer)
    {
      ghost var start, schemaVer := Now(), Me().schemaVer;
      ok, at := LoadManifest(p);
      ghost var here := Now();
      if Reachable(start.world) {
        EvolvesGood(start.world, here.world);
      }
      if ok {
        ok := SyncToManifest(Me().op.purpose, at);
        RanTrans(start.world, here.world, world, id, true, true);
        RanExtends(here.world, world, id, true);
        SwapsNotByTrans(start.world.store, here.world.store, world.store, id);
        if !ok && Reachable(start.world) {
          EvolvesRefl(world);
          TroubleGrows(oracle, start, here, Now(), Now(), true, true, at, |start.world.store.hist| - 1);
        }
      }
    }

    /** `View`: fn reads the synced connection; whatever it writes is rolled back. */
    method View() returns (seen: Option<Database>, ghost at: int)
      requires Agrees() && Me().op.Idle?
      modifies this
      ensures Agrees() && Ran(old(world), world, id, true) && Me().op.Idle? && clock >= old(clock)
      ensures seen.Some? ==> seen == conn
      ensures Reachable(old(world)) && seen.Some? ==>
                |old(world).store.hist| - 1 <= at < |world.store.hist| && seen == StateAt(world.store, at)
      ensures Reachable(old(world)) && seen.None? ==> CannotRefresh(oracle, old(Now()), Now(), old(Me()).schemaVer)
    {
      var ok;
      ok, at := RefreshManifest(ForView);
      seen := if ok then conn else None;
    }
  }
}
