/** `GC` as the source runs it: refresh, list, group by epoch, and delete what the loaded manifest
    does not need. */
module Sweep {
  import opened Basics
  import opened Manifests
  import opened Protocol
  import opened Invariant
  import opened GarbageCollection
  import opened Session

  // ---------------------------------------------------------------- local loops

  /** The listed keys of one epoch, in listing order. */
  function InEpoch(keys: seq<Key>, epoch: Key): seq<Key> {
    if keys == [] then []
    else
      var k := keys[|keys| - 1];
      InEpoch(keys[..|keys| - 1], epoch) + (if k.CsKey? && k.epoch == epoch then [k] else [])
  }

  /** Every epoch with at least one listed key, with exactly its keys. */
  ghost predicate Grouped(keys: seq<Key>, groups: map<Key, seq<Key>>) {
    forall e :: if e in groups then groups[e] == InEpoch(keys, e) && groups[e] != [] else InEpoch(keys, e) == []
  }

  lemma GroupedStep(keys: seq<Key>, groups: map<Key, seq<Key>>, k: Key)
    requires Grouped(keys, groups)
    ensures k.CsKey? ==> Grouped(keys + [k],
              groups[k.epoch := (if k.epoch in groups then groups[k.epoch] else []) + [k]])
    ensures !k.CsKey? ==> Grouped(keys + [k], groups)
  {
    assert (keys + [k])[..|keys|] == keys;
  }

  /** `groupByEpoch`; anything that is not a changeset name is skipped. */
  method GroupByEpoch(keys: seq<Key>) returns (groups: map<Key, seq<Key>>)
    ensures Grouped(keys, groups)
  {
    groups := map[];
    for i := 0 to |keys|
      invariant Grouped(keys[..i], groups)
    {
      var k := keys[i];
      GroupedStep(keys[..i], groups, k);
      assert keys[..i + 1] == keys[..i] + [k];
      if k.CsKey? {
        groups := groups[k.epoch := (if k.epoch in groups then groups[k.epoch] else []) + [k]];
      }
    }
    assert keys[..|keys|] == keys;
  }

  /** The set of live changeset keys, from the loaded log. */
  method LiveChangesets(log: seq<LogEntry>) returns (live: set<Key>)
    ensures live == set e | e in log :: e.key
  {
    live := {};
    for i := 0 to |log|
      invariant live == set e | e in log[..i] :: e.key
    {
      live := live + {log[i].key};
    }
    assert log[..|log|] == log;
  }

  /** Is any of an epoch's keys in the live set? */
  method HasLive(keys: seq<Key>, live: set<Key>) returns (found: bool)
    ensures found <==> exists k :: k in keys && k in live
  {
    for i := 0 to |keys|
      invariant forall j :: 0 <= j < i ==> keys[j] !in live
    {
      if keys[i] in live {
        return true;
      }
    }
    found := false;
  }

  lemma {:induction false} InEpochKeys(keys: seq<Key>, epoch: Key, k: Key)
    ensures k in InEpoch(keys, epoch) <==> k in keys && k.CsKey? && k.epoch == epoch
    decreases |keys|
  {
    if keys != [] {
      InEpochKeys(keys[..|keys| - 1], epoch, k);
      assert keys == keys[..|keys| - 1] + [keys[|keys| - 1]];
    }
  }

  // ---------------------------------------------------------------- single steps

  /** What one GC works on: the manifest it loaded, its grace period, the time it began, and when each
      name was last written. */
  datatype Job = Job(m: Manifest, grace: nat, now: int, written: Key -> int)

  /** The age test: with a grace period, a name younger than it stays. */
  predicate OldEnough(job: Job, k: Key) {
    job.grace > 0 ==> job.now - job.written(k) >= job.grace
  }

  /** Between two moments every Stat was answered, if there was any. */
  ghost predicate Sound(job: Job, oracle: nat -> Reply, a: Moment, b: Moment) {
    job.grace == 0 || !Fault(oracle, a, b)
  }

  lemma SoundInside(job: Job, oracle: nat -> Reply, a: Moment, b: Moment, c: Moment, d: Moment)
    requires Sound(job, oracle, a, d) && a.clock <= b.clock && c.clock <= d.clock
    ensures Sound(job, oracle, b, c)
  {
    if Fault(oracle, b, c) {
      FaultGrows(oracle, a, b, c, d);
    }
  }

  /** A sweep in progress on the manifest `job.m`. */
  ghost predicate Swept(st: Db, job: Job)
    reads st
  {
    st.Agrees() && Reachable(st.world) && st.Me().op == Sweeping(job.m)
  }

  predicate UnderPrefix(k: Key, changesets: bool) {
    if changesets then k.CsKey? else k.SnapKey? || k.InitKey?
  }

  /** A sweep step that spares the epoch and the snapshot of `job.m`, all epochs while that snapshot is
      too young, and every snapshot that is too young itself. */
  predicate Spares(a: Action, job: Job) {
    || (a.GcEpoch? && a.epoch != Epoch(job.m) && OldEnough(job, job.m.snapshot.key))
    || (a.GcSnapshot? && UnderPrefix(a.key, false) && a.key != job.m.snapshot.key && OldEnough(job, a.key))
  }

  predicate OwnStepsSpare(acts: seq<Action>, id: nat, job: Job) {
    forall i :: 0 <= i < |acts| ==> acts[i].c == id ==> Spares(acts[i], job)
  }

  /** Some safe run in which every step of client `id` is a sweep step that spares what `job` is to
      spare. */
  ghost predicate Sweeps(w: World, v: World, id: nat, job: Job) {
    exists acts :: Leads(w, acts, v, true) && OwnStepsSpare(acts, id, job)
  }

  /** Client `id` swept from `w` to `v`. */
  ghost predicate SweptOver(w: World, v: World, id: nat, job: Job) {
    Ran(w, v, id, true) && Sweeps(w, v, id, job)
  }

  lemma SweptRefl(w: World, id: nat, job: Job)
    requires id in w.clients
    ensures SweptOver(w, w, id, job)
  {
    RanRefl(w, id);
    assert Leads(w, [], w, true) && OwnStepsSpare([], id, job);
  }

  lemma SweptWaiting(w: World, v: World, id: nat, job: Job)
    requires Waited(w, v, id)
    ensures SweptOver(w, v, id, job)
  {
    var acts :| Leads(w, acts, v, true) && NoneBy(acts, id);
    assert OwnStepsSpare(acts, id, job);
  }

  lemma SweepsTrans(w: World, x: World, v: World, id: nat, job: Job)
    requires Sweeps(w, x, id, job) && Sweeps(x, v, id, job)
    ensures Sweeps(w, v, id, job)
  {
    var a :| Leads(w, a, x, true) && OwnStepsSpare(a, id, job);
    var b :| Leads(x, b, v, true) && OwnStepsSpare(b, id, job);
    RunConcat(w, a, x, b, v);
    assert Leads(w, a + b, v, true) && OwnStepsSpare(a + b, id, job);
  }

  lemma SweptTrans(w: World, x: World, v: World, id: nat, job: Job)
    requires SweptOver(w, x, id, job) && SweptOver(x, v, id, job)
    ensures SweptOver(w, v, id, job)
  {
    RanTrans(w, x, v, id, true, true);
    SweepsTrans(w, x, v, id, job);
  }

  lemma SweptStep(w: World, a: Action, v: World, id: nat, job: Job)
    requires id in w.clients && Next(w, a) == Some(v) && a.c == id && Spares(a, job)
    ensures SweptOver(w, v, id, job)
  {
    WaitedRefl(w, id);
    RanStep(w, w, a, v, id);
    assert Run(v, [a][1..]) == Some(v);
    assert Leads(w, [a], v, true) && OwnStepsSpare([a], id, job);
  }

  /** In a reachable world no epoch but the loaded one has a key in the loaded log: the `hasLive`
      test never fires. */
  lemma ForeignEpochIsDead(w: World, id: nat, job: Job, epoch: Key)
    requires Reachable(w) && id in w.clients && w.clients[id].op == Sweeping(job.m) && epoch != Epoch(job.m)
    ensures forall i :: 0 <= i < |job.m.log| ==> job.m.log[i].key.CsKey? && job.m.log[i].key.epoch != epoch
  {
    ReachableIsInv(w);
    assert ClientInv(w.store, w.clients[id]);
    NoLiveKeyInForeignEpoch(w.store, w.clients[id].mAt, epoch);
  }

  /** What a sweep step was to delete is absent. */
  ghost predicate Deleted(s: Store, a: Action) {
    && (a.GcEpoch? ==> forall k :: k in s.live ==> !(k.CsKey? && k.epoch == a.epoch))
    && (a.GcSnapshot? ==> a.key !in s.live)
  }

  lemma SweepStep(w: World, x: World, id: nat, job: Job, a: Action, v: World)
    requires Reachable(x) && Waited(w, x, id) && a.c == id && Spares(a, job) && Next(x, a) == Some(v)
    ensures SweptOver(w, v, id, job) && v.clients == x.clients && Reachable(v) && Deleted(v.store, a)
  {
    SweptWaiting(w, x, id, job);
    SweptStep(x, a, v, id, job);
    SweptTrans(w, x, v, id, job);
    EvolvesGood(x, v);
  }

  /** One sweep step of ours, after the others have run. */
  method Step(st: Db, ghost w: World, job: Job, a: Action)
    requires Swept(st, job) && Waited(w, st.world, st.id) && a.c == st.id && Spares(a, job)
    requires Next(st.world, a).Some?
    modifies st`world
    ensures Swept(st, job) && SweptOver(w, st.world, st.id, job) && Deleted(st.world.store, a)
  {
    ghost var x := st.world;
    st.world := Next(st.world, a).value;
    SweepStep(w, x, st.id, job, a, st.world);
  }

  method DeleteEpoch(st: Db, job: Job, epoch: Key) returns (ok: bool)
    requires Swept(st, job) && epoch != Epoch(job.m) && OldEnough(job, job.m.snapshot.key)
    modifies st
    ensures Swept(st, job) && SweptOver(old(st.world), st.world, st.id, job)
    ensures st.clock > old(st.clock) && (!ok ==> st.oracle(old(st.clock)).Failed?)
    ensures ok ==> Deleted(st.world.store, GcEpoch(st.id, epoch))
  {
    ghost var w := st.world;
    st.Interfere();
    EvolvesGood(w, st.world);
    SweptWaiting(w, st.world, st.id, job);
    var r := st.Ask();
    if r.Answered? {
      ForeignEpochIsDead(st.world, st.id, job, epoch);
      Step(st, w, job, GcEpoch(st.id, epoch));
    }
    ok := r.Answered?;
  }

  method DeleteSnapshot(st: Db, job: Job, key: Key) returns (ok: bool)
    requires Swept(st, job) && UnderPrefix(key, false) && key != job.m.snapshot.key && OldEnough(job, key)
    modifies st
    ensures Swept(st, job) && SweptOver(old(st.world), st.world, st.id, job)
    ensures st.clock > old(st.clock) && (!ok ==> st.oracle(old(st.clock)).Failed?)
    ensures ok ==> Deleted(st.world.store, GcSnapshot(st.id, key))
  {
    ghost var w := st.world;
    st.Interfere();
    EvolvesGood(w, st.world);
    SweptWaiting(w, st.world, st.id, job);
    var r := st.Ask();
    if r.Answered? {
      Step(st, w, job, GcSnapshot(st.id, key));
    }
    ok := r.Answered?;
  }

  /** One LIST: exactly the present names of one kind, in some order. */
  method ListKeys(st: Db, job: Job, changesets: bool) returns (keys: seq<Key>, ok: bool)
    requires Swept(st, job)
    modifies st
    ensures Swept(st, job) && SweptOver(old(st.world), st.world, st.id, job)
    ensures ok ==> forall k :: k in keys <==> k in st.world.store.live && UnderPrefix(k, changesets)
    ensures st.clock > old(st.clock) && (!ok ==> st.oracle(old(st.clock)).Failed?)
  {
    ghost var w := st.world;
    st.Interfere();
    EvolvesGood(w, st.world);
    SweptWaiting(w, st.world, st.id, job);
    keys, ok := [], false;
    var r := st.Ask();
    if r.Answered? {
      var left := set k | k in st.world.store.live && UnderPrefix(k, changesets);
      ghost var all := left;
      while left != {}
        invariant forall k :: k in all <==> k in keys || k in left
        decreases |left|
      {
        var k :| k in left;
        keys := keys + [k];
        left := left - {k};
      }
      ok := true;
    }
  }

  /** The age test with a Stat.  A name whose age cannot be had counts as too young. */
  method IsOld(st: Db, job: Job, k: Key) returns (isOld: bool, ghost looked: World)
    requires Swept(st, job)
    modifies st
    ensures Swept(st, job) && SweptOver(old(st.world), st.world, st.id, job) && st.clock >= old(st.clock)
    ensures SweptOver(old(st.world), looked, st.id, job) && SweptOver(looked, st.world, st.id, job)
    ensures (isOld ==> OldEnough(job, k)) && (job.grace == 0 ==> isOld)
    ensures !isOld ==>
              !OldEnough(job, k) || k !in looked.store.live || !Sound(job, st.oracle, old(st.Now()), st.Now())
  {
    ghost var start := st.Now();
    looked := st.world;
    SweptRefl(st.world, st.id, job);
    if job.grace == 0 {
      return true, looked;
    }
    st.Interfere();
    EvolvesGood(start.world, st.world);
    SweptWaiting(start.world, st.world, st.id, job);
    SweptRefl(st.world, st.id, job);
    looked := st.world;
    var r := st.Ask();
    isOld := r.Answered? && k in st.world.store.live && job.now - job.written(k) >= job.grace;
    if r.Failed? {
      FaultAt(st.oracle, start, st.Now(), start.clock);
    }
  }

  // ---------------------------------------------------------------- what is gone stays gone

  ghost predicate AllGone(s: Store, ks: set<Key>) {
    forall k :: k in ks ==> Gone(s, k)
  }

  lemma AllGoneStays(w: World, v: World, id: nat, ks: set<Key>)
    requires Ran(w, v, id, true) && AllGone(w.store, ks)
    ensures AllGone(v.store, ks)
  {
    var acts :| Leads(w, acts, v, true);
    forall k | k in ks ensures Gone(v.store, k) {
      GoneForever(w, acts, v, k);
    }
  }

  lemma ReachableWritten(w: World)
    requires Reachable(w)
    ensures w.store.live <= w.store.content.Keys
  {
    var w0 :| Starts(w0, w);
    var acts :| Leads(w0, acts, w, true);
    LiveIsWritten(w0, acts, w);
  }

  /** What was present at `w` and is absent at `v` is gone for good. */
  lemma AbsentIsGone(w: World, v: World, id: nat, ks: set<Key>)
    requires Reachable(w) && Ran(w, v, id, true) && InitKey !in ks
    requires forall k :: k in ks ==> k in w.store.live && k !in v.store.live
    ensures AllGone(v.store, ks)
  {
    ReachableWritten(w);
    RanExtends(w, v, id, true);
  }

  /** A changeset of another epoch than that of `job.m`. */
  predicate Foreign(k: Key, job: Job) {
    k.CsKey? && k.epoch != Epoch(job.m)
  }

  /** Another snapshot than that of `job.m`. */
  predicate Superseded(k: Key, job: Job) {
    k.SnapKey? && k != job.m.snapshot.key
  }

  // ---------------------------------------------------------------- the epoch half

  /** The listed foreign keys whose epoch is done. */
  function DoneKeys(keys: seq<Key>, job: Job, todo: set<Key>): set<Key> {
    set k | k in keys && Foreign(k, job) && k.epoch !in todo
  }

  lemma EpochDone(w: World, x: World, v: World, id: nat, job: Job, keys: seq<Key>, todo: set<Key>, epoch: Key)
    requires Reachable(w) && SweptOver(w, x, id, job) && SweptOver(x, v, id, job)
    requires forall k :: k in keys ==> k in w.store.live
    requires AllGone(x.store, DoneKeys(keys, job, todo))
    requires epoch != Epoch(job.m) ==> Deleted(v.store, GcEpoch(id, epoch))
    ensures AllGone(v.store, DoneKeys(keys, job, todo - {epoch}))
  {
    SweptTrans(w, x, v, id, job);
    AllGoneStays(x, v, id, DoneKeys(keys, job, todo));
    if epoch != Epoch(job.m) {
      AbsentIsGone(w, v, id, set k | k in keys && Foreign(k, job) && k.epoch == epoch);
    }
  }

  /** The loop over the epochs. */
  method SweepGroups(st: Db, job: Job, keys: seq<Key>) returns (ok: bool)
    requires Swept(st, job) && forall k :: k in keys ==> k in st.world.store.live
    requires OldEnough(job, job.m.snapshot.key)
    modifies st
    ensures Swept(st, job) && SweptOver(old(st.world), st.world, st.id, job) && st.clock >= old(st.clock)
    ensures !ok ==> Fault(st.oracle, old(st.Now()), st.Now())
    ensures ok ==> AllGone(st.world.store, DoneKeys(keys, job, {}))
  {
    ghost var w, start := st.world, st.Now();
    SweptRefl(w, st.id, job);
    var live := LiveChangesets(job.m.log);
    var groups := GroupByEpoch(keys);
    NothingDoneYet(keys, job, groups);
    var todo := groups.Keys;
    while todo != {}
      invariant todo <= groups.Keys && Swept(st, job) && SweptOver(w, st.world, st.id, job)
      invariant AllGone(st.world.store, DoneKeys(keys, job, todo)) && start.clock <= st.clock
      decreases |todo|
    {
      var epoch :| epoch in todo;
      ghost var x, here := st.world, st.Now();
      ok := SweepEpoch(st, job, keys, groups[epoch], epoch, live);
      SweptTrans(w, x, st.world, st.id, job);
      if !ok {
        FaultAt(st.oracle, start, st.Now(), here.clock);
        return;
      }
      EpochDone(w, x, st.world, st.id, job, keys, todo, epoch);
      todo := todo - {epoch};
    }
    ok := true;
  }

  lemma NothingDoneYet(keys: seq<Key>, job: Job, groups: map<Key, seq<Key>>)
    requires Grouped(keys, groups)
    ensures DoneKeys(keys, job, groups.Keys) == {}
  {
    forall k | k in keys && k.CsKey? ensures k.epoch in groups {
      InEpochKeys(keys, k.epoch, k);
    }
  }

  /** One epoch: skip the loaded manifest's own, skip one with a live key, delete it otherwise. */
  method SweepEpoch(st: Db, job: Job, ghost keys: seq<Key>, epochKeys: seq<Key>, epoch: Key, live: set<Key>)
      returns (ok: bool)
    requires Swept(st, job) && epochKeys == InEpoch(keys, epoch) && live == set e | e in job.m.log :: e.key
    requires OldEnough(job, job.m.snapshot.key)
    modifies st
    ensures Swept(st, job) && SweptOver(old(st.world), st.world, st.id, job) && st.clock >= old(st.clock)
    ensures !ok ==> st.clock > old(st.clock) && st.oracle(old(st.clock)).Failed?
    ensures ok && epoch != Epoch(job.m) ==> Deleted(st.world.store, GcEpoch(st.id, epoch))
  {
    SweptRefl(st.world, st.id, job);
    ok := true;
    if epoch != Epoch(job.m) {
      var hasLive := HasLive(epochKeys, live);
      ForeignEpochIsDead(st.world, st.id, job, epoch);
      NothingLive(keys, epoch, job.m.log);
      if !hasLive {
        ok := DeleteEpoch(st, job, epoch);
      }
    }
  }

  lemma NothingLive(keys: seq<Key>, epoch: Key, log: seq<LogEntry>)
    requires forall i :: 0 <= i < |log| ==> log[i].key.CsKey? && log[i].key.epoch != epoch
    ensures forall k :: k in InEpoch(keys, epoch) ==> k !in set e | e in log :: e.key
  {
    forall k | k in InEpoch(keys, epoch) ensures k !in set e | e in log :: e.key {
      InEpochKeys(keys, epoch, k);
    }
  }

  /** From the world at the call and the world at the listing to the world at the end. */
  lemma ListedOrGone(w: World, x: World, v: World, id: nat, k: Key)
    requires Reachable(w) && Ran(w, x, id, true) && Ran(x, v, id, true) && k != InitKey
    requires k in w.store.live && (k in x.store.live ==> k !in v.store.live)
    ensures k !in v.store.live
  {
    if k !in x.store.live {
      AbsentIsGone(w, x, id, {k});
      AllGoneStays(x, v, id, {k});
      assert Gone(v.store, k);
    }
  }

  /** The epoch half.  If it succeeds, no changeset of a foreign epoch that was present when it was
      called, or when it listed, is present at the end. */
  method SweepEpochs(st: Db, job: Job) returns (ok: bool, ghost listing: World)
    requires Swept(st, job) && OldEnough(job, job.m.snapshot.key)
    modifies st
    ensures Swept(st, job) && SweptOver(old(st.world), st.world, st.id, job) && st.clock >= old(st.clock)
    ensures !ok ==> Fault(st.oracle, old(st.Now()), st.Now())
    ensures SweptOver(old(st.world), listing, st.id, job) && SweptOver(listing, st.world, st.id, job)
    ensures ok ==> forall k :: k in listing.store.live && Foreign(k, job) ==> k !in st.world.store.live
    ensures ok ==> forall k :: k in old(st.world).store.live && Foreign(k, job) ==> k !in st.world.store.live
  {
    ghost var w, start := st.world, st.Now();
    var keys, listed := ListKeys(st, job, true);
    listing := st.world;
    ghost var here := st.Now();
    SweptRefl(listing, st.id, job);
    if !listed {
      FaultAt(st.oracle, start, here, start.clock);
      return false, listing;
    }
    ok := SweepGroups(st, job, keys);
    SweptTrans(w, listing, st.world, st.id, job);
    if !ok {
      FaultGrows(st.oracle, start, here, st.Now(), st.Now());
    } else {
      forall k | k in listing.store.live && Foreign(k, job) ensures k !in st.world.store.live {
        assert k in DoneKeys(keys, job, {});
      }
      forall k | k in w.store.live && Foreign(k, job) ensures k !in st.world.store.live {
        ListedOrGone(w, listing, st.world, st.id, k);
      }
    }
  }

  // ---------------------------------------------------------------- the snapshot half

  /** A superseded snapshot that is old enough to delete. */
  predicate DueSnapshot(k: Key, job: Job) {
    Superseded(k, job) && OldEnough(job, k)
  }

  /** Those among the first `i` listed names. */
  function DoneSnapshots(keys: seq<Key>, job: Job, i: nat): set<Key>
    requires i <= |keys|
  {
    set k | k in keys[..i] && DueSnapshot(k, job)
  }

  lemma SnapshotDone(w: World, x: World, v: World, id: nat, job: Job, keys: seq<Key>, i: nat)
    requires Reachable(w) && SweptOver(w, x, id, job) && SweptOver(x, v, id, job)
    requires i < |keys| && keys[i] in w.store.live
    requires AllGone(x.store, DoneSnapshots(keys, job, i)) && (DueSnapshot(keys[i], job) ==> keys[i] !in v.store.live)
    ensures AllGone(v.store, DoneSnapshots(keys, job, i + 1))
  {
    SweptTrans(w, x, v, id, job);
    AllGoneStays(x, v, id, DoneSnapshots(keys, job, i));
    if DueSnapshot(keys[i], job) {
      AbsentIsGone(w, v, id, {keys[i]});
      assert Gone(v.store, keys[i]);
    }
    assert keys[..i + 1] == keys[..i] + [keys[i]];
  }

  lemma AbsentStaysAbsent(w: World, x: World, v: World, id: nat, job: Job, k: Key)
    requires Reachable(w) && SweptOver(w, x, id, job) && SweptOver(x, v, id, job) && k != InitKey
    requires k in w.store.live && k !in x.store.live
    ensures k !in v.store.live
  {
    AbsentIsGone(w, x, id, {k});
    AllGoneStays(x, v, id, {k});
    assert Gone(v.store, k);
  }

  /** One listed snapshot: delete it unless it is the loaded manifest's own, or too young, or its
      age cannot be had. */
  method SweepSnapshot(st: Db, job: Job, k: Key) returns (ok: bool)
    requires Swept(st, job) && UnderPrefix(k, false)
    modifies st
    ensures Swept(st, job) && SweptOver(old(st.world), st.world, st.id, job) && st.clock >= old(st.clock)
    ensures !ok ==> Fault(st.oracle, old(st.Now()), st.Now())
    ensures ok && Sound(job, st.oracle, old(st.Now()), st.Now()) ==>
              DueSnapshot(k, job) && k in old(st.world).store.live ==> k !in st.world.store.live
  {
    ghost var w, start := st.world, st.Now();
    SweptRefl(w, st.id, job);
    if k == job.m.snapshot.key {
      return true;
    }
    ghost var looked;
    var isOld;
    isOld, looked := IsOld(st, job, k);
    if !isOld {
      if k in w.store.live && k !in looked.store.live && k != InitKey {
        AbsentStaysAbsent(w, looked, st.world, st.id, job, k);
      }
      return true;
    }
    ghost var x, here := st.world, st.Now();
    ok := DeleteSnapshot(st, job, k);
    SweptTrans(w, x, st.world, st.id, job);
    if !ok {
      FaultAt(st.oracle, start, st.Now(), here.clock);
    }
  }

  method SweepListed(st: Db, job: Job, keys: seq<Key>) returns (ok: bool)
    requires Swept(st, job) && forall j :: 0 <= j < |keys| ==>
               UnderPrefix(keys[j], false) && keys[j] in st.world.store.live
    modifies st
    ensures Swept(st, job) && SweptOver(old(st.world), st.world, st.id, job) && st.clock >= old(st.clock)
    ensures !ok ==> Fault(st.oracle, old(st.Now()), st.Now())
    ensures ok && Sound(job, st.oracle, old(st.Now()), st.Now()) ==>
              AllGone(st.world.store, DoneSnapshots(keys, job, |keys|))
  {
    ghost var start := st.Now();
    SweptRefl(start.world, st.id, job);
    for i := 0 to |keys|
      invariant Swept(st, job) && SweptOver(start.world, st.world, st.id, job) && start.clock <= st.clock
      invariant Sound(job, st.oracle, start, st.Now()) ==> AllGone(st.world.store, DoneSnapshots(keys, job, i))
    {
      ghost var here := st.Now();
      ok := SweepSnapshot(st, job, keys[i]);
      SweptTrans(start.world, here.world, st.world, st.id, job);
      if !ok {
        FaultGrows(st.oracle, start, here, st.Now(), st.Now());
        return;
      }
      if Sound(job, st.oracle, start, st.Now()) {
        SoundInside(job, st.oracle, start, start, here, st.Now());
        SoundInside(job, st.oracle, start, here, st.Now(), st.Now());
        OneSwept(start.world, here.world, st.world, st.id, job, keys, i);
      }
    }
    ok := true;
  }

  lemma OneSwept(w: World, x: World, v: World, id: nat, job: Job, keys: seq<Key>, i: nat)
    requires Reachable(w) && SweptOver(w, x, id, job) && SweptOver(x, v, id, job)
    requires i < |keys| && keys[i] in w.store.live
    requires AllGone(x.store, DoneSnapshots(keys, job, i))
    requires DueSnapshot(keys[i], job) && keys[i] in x.store.live ==> keys[i] !in v.store.live
    ensures AllGone(v.store, DoneSnapshots(keys, job, i + 1))
  {
    if DueSnapshot(keys[i], job) && keys[i] !in x.store.live {
      AbsentStaysAbsent(w, x, v, id, job, keys[i]);
    }
    SnapshotDone(w, x, v, id, job, keys, i);
  }

  /** The snapshot half.  If it succeeds, and with a grace period every Stat was answered, no superseded
      snapshot that is old enough and was present when it was called, or when it listed, is present at
      the end.  (The bootstrap snapshot is deleted too, but a bootstrap still under way may write it
      again.) */
  method SweepSnapshots(st: Db, job: Job) returns (ok: bool, ghost listing: World)
    requires Swept(st, job)
    modifies st
    ensures Swept(st, job) && SweptOver(old(st.world), st.world, st.id, job) && st.clock >= old(st.clock)
    ensures SweptOver(old(st.world), listing, st.id, job) && SweptOver(listing, st.world, st.id, job)
    ensures !ok ==> Fault(st.oracle, old(st.Now()), st.Now())
    ensures ok && Sound(job, st.oracle, old(st.Now()), st.Now()) ==>
              forall k :: k in listing.store.live && DueSnapshot(k, job) ==> k !in st.world.store.live
    ensures ok && Sound(job, st.oracle, old(st.Now()), st.Now()) ==>
              forall k :: k in old(st.world).store.live && DueSnapshot(k, job) ==> k !in st.world.store.live
  {
    ghost var w, start := st.world, st.Now();
    var keys, listed := ListKeys(st, job, false);
    listing := st.world;
    ghost var here := st.Now();
    SweptRefl(listing, st.id, job);
    if !listed {
      FaultAt(st.oracle, start, here, start.clock);
      return false, listing;
    }
    ok := SweepListed(st, job, keys);
    SweptTrans(w, listing, st.world, st.id, job);
    if !ok {
      FaultGrows(st.oracle, start, here, st.Now(), st.Now());
    } else if Sound(job, st.oracle, start, st.Now()) {
      SoundInside(job, st.oracle, start, here, st.Now(), st.Now());
      SnapshotsGone(w, listing, st.world, st.id, job, keys);
    }
  }

  lemma SnapshotsGone(w: World, x: World, v: World, id: nat, job: Job, keys: seq<Key>)
    requires Reachable(w) && SweptOver(w, x, id, job) && SweptOver(x, v, id, job)
    requires AllGone(v.store, DoneSnapshots(keys, job, |keys|))
    requires forall k :: k in keys <==> k in x.store.live && UnderPrefix(k, false)
    ensures forall k :: k in x.store.live && DueSnapshot(k, job) ==> k !in v.store.live
    ensures forall k :: k in w.store.live && DueSnapshot(k, job) ==> k !in v.store.live
  {
    assert keys[..|keys|] == keys;
    forall k | k in x.store.live && DueSnapshot(k, job) ensures k !in v.store.live {
      assert k in DoneSnapshots(keys, job, |keys|);
    }
    forall k | k in w.store.live && DueSnapshot(k, job) ensures k !in v.store.live {
      ListedOrGone(w, x, v, id, k);
    }
  }

  // ---------------------------------------------------------------- the whole sweep

  /** A changeset of another epoch, if the age of the current snapshot allows to sweep at all;
      `current` says whether that snapshot was there when its age was asked for. */
  predicate DueChangeset(k: Key, job: Job, current: bool) {
    Foreign(k, job) && OldEnough(job, job.m.snapshot.key) && (job.grace == 0 || current)
  }

  /** What a sweep is to delete. */
  predicate Due(k: Key, job: Job, current: bool) {
    DueChangeset(k, job, current) || DueSnapshot(k, job)
  }

  /** Everything that was to be deleted at `s` is absent at `t`. */
  ghost predicate DueGone(s: Store, t: Store, job: Job, current: bool) {
    forall k :: k in s.live && Due(k, job, current) ==> k !in t.live
  }

  /** The epoch half, skipped when the current snapshot is too young. */
  method SweepEpochsIfOld(st: Db, job: Job) returns (ok: bool, ghost current: bool)
    requires Swept(st, job)
    modifies st
    ensures Swept(st, job) && SweptOver(old(st.world), st.world, st.id, job) && st.clock >= old(st.clock)
    ensures !ok ==> Fault(st.oracle, old(st.Now()), st.Now())
    ensures ok && Sound(job, st.oracle, old(st.Now()), st.Now()) ==>
              forall k :: k in old(st.world).store.live && DueChangeset(k, job, current) ==> k !in st.world.store.live
  {
    ghost var start := st.Now();
    var isOld;
    ghost var looked, listing;
    isOld, looked := IsOld(st, job, job.m.snapshot.key);
    current := job.m.snapshot.key in looked.store.live;
    ghost var here := st.Now();
    if !isOld {
      return true, current;
    }
    ok, listing := SweepEpochs(st, job);
    SweptTrans(start.world, here.world, st.world, st.id, job);
    if !ok {
      FaultGrows(st.oracle, start, here, st.Now(), st.Now());
    } else {
      EpochsSwept(start.world, here.world, st.world, st.id, job);
    }
  }

  lemma EpochsSwept(w: World, x: World, v: World, id: nat, job: Job)
    requires Reachable(w) && SweptOver(w, x, id, job) && SweptOver(x, v, id, job)
    requires forall k :: k in x.store.live && Foreign(k, job) ==> k !in v.store.live
    ensures forall k :: k in w.store.live && Foreign(k, job) ==> k !in v.store.live
  {
    forall k | k in w.store.live && Foreign(k, job) ensures k !in v.store.live {
      ListedOrGone(w, x, v, id, k);
    }
  }

  /** Both halves. */
  method SweepBoth(st: Db, job: Job) returns (ok: bool, ghost current: bool)
    requires Swept(st, job)
    modifies st
    ensures Swept(st, job) && SweptOver(old(st.world), st.world, st.id, job) && st.clock >= old(st.clock)
    ensures !ok ==> Fault(st.oracle, old(st.Now()), st.Now())
    ensures ok && Sound(job, st.oracle, old(st.Now()), st.Now()) ==>
              DueGone(old(st.world).store, st.world.store, job, current)
  {
    ghost var start, listing := st.Now(), st.world;
    ok, current := SweepEpochsIfOld(st, job);
    ghost var here := st.Now();
    if !ok {
      return;
    }
    ok, listing := SweepSnapshots(st, job);
    SweptTrans(start.world, here.world, st.world, st.id, job);
    if !ok {
      FaultGrows(st.oracle, start, here, st.Now(), st.Now());
    } else if Sound(job, st.oracle, start, st.Now()) {
      SoundInside(job, st.oracle, start, start, here, st.Now());
      SoundInside(job, st.oracle, start, here, st.Now(), st.Now());
      BothSwept(start.world, here.world, st.world, st.id, job, current);
    }
  }

  lemma BothSwept(w: World, x: World, v: World, id: nat, job: Job, current: bool)
    requires Reachable(w) && SweptOver(w, x, id, job) && SweptOver(x, v, id, job)
    requires forall k :: k in w.store.live && DueChangeset(k, job, current) ==> k !in x.store.live
    requires forall k :: k in x.store.live && DueSnapshot(k, job) ==> k !in v.store.live
    ensures DueGone(w.store, v.store, job, current)
  {
    forall k | k in w.store.live && Due(k, job, current) ensures k !in v.store.live {
      if DueSnapshot(k, job) {
        ListedOrGone(w, x, v, id, k);
      } else {
        AbsentStaysAbsent(w, x, v, id, job, k);
      }
    }
  }

  lemma SweepEnds(w: World, id: nat, v: World)
    requires id in w.clients && w.clients[id].op.Sweeping? && Next(w, Abort(id, Error)) == Some(v)
    ensures Ran(w, v, id, true) && v.clients[id] == w.clients[id].(op := Idle) && v.store == w.store
  {
    WaitedRefl(w, id);
    RanStep(w, w, Abort(id, Error), v, id);
  }

  method EndSweep(st: Db, ghost job: Job)
    requires Swept(st, job)
    modifies st
    ensures st.Agrees() && st.Me().op.Idle? && Ran(old(st.world), st.world, st.id, true)
    ensures st.world.store == old(st.world).store && st.clock == old(st.clock)
  {
    ghost var w := st.world;
    st.world := Next(st.world, Abort(st.id, Error)).value;
    SweepEnds(w, st.id, st.world);
  }

  method SweepAndStop(st: Db, job: Job) returns (ok: bool, ghost ended: World, ghost current: bool)
    requires Swept(st, job)
    modifies st
    ensures st.Agrees() && st.Me().op.Idle? && Ran(old(st.world), st.world, st.id, true) && st.clock >= old(st.clock)
    ensures SweptOver(old(st.world), ended, st.id, job) && ended.store == st.world.store
    ensures !ok ==> Fault(st.oracle, old(st.Now()), st.Now())
    ensures ok && Sound(job, st.oracle, old(st.Now()), st.Now()) ==>
              DueGone(old(st.world).store, st.world.store, job, current)
  {
    ghost var w := st.world;
    ok, current := SweepBoth(st, job);
    ended := st.world;
    EndSweep(st, job);
    RanTrans(w, ended, st.world, st.id, true, true);
  }

  /** Some safe run of Updates and Views leads from `w` to `v`, but for the sweep steps of `id`, if it
      may take some. */
  ghost predicate QuietRun(w: World, v: World, id: nat, sweeping: bool) {
    exists acts :: Leads(w, acts, v, true) && QuietActions(acts, id, sweeping)
  }

  predicate QuietActions(acts: seq<Action>, id: nat, sweeping: bool) {
    forall i :: 0 <= i < |acts| ==> if sweeping then Beside(acts[i], id) else UpdatesOrViews(acts[i])
  }

  /** Both ends of a stretch of history in one epoch: so is everything between. */
  lemma BetweenInEpoch(s: Store, t: Store, at: int)
    requires StoreInv(t) && Extends(s, t) && s.hist != [] && |s.hist| - 1 <= at < |t.hist|
    requires Epoch(t.hist[|t.hist| - 1]) == Epoch(s.hist[|s.hist| - 1])
    ensures Epoch(t.hist[at]) == Epoch(s.hist[|s.hist| - 1])
  {
    SameEpochIsPrefix(t.hist, |s.hist| - 1, |t.hist| - 1);
  }

  /** Everything is available, and nobody is about to swap the snapshot. */
  ghost predicate SafeAtStart(w: World) {
    w.store.hist != [] && Available(w) && Calm(w, Epoch(w.store.hist[|w.store.hist| - 1]))
  }

  /** What a quiet refresh leaves. */
  lemma QuietRefresh(w: World, begun: World, id: nat)
    requires Reachable(w) && SafeAtStart(w) && QuietRun(w, begun, id, false)
    ensures Available(begun) && Calm(begun, Epoch(w.store.hist[|w.store.hist| - 1]))
  {
    var acts :| Leads(w, acts, begun, true) && QuietActions(acts, id, false);
    ReachableIsInv(w);
    CalmRun(w, acts, begun, Epoch(w.store.hist[|w.store.hist| - 1]));
    RunKeepsAvailable(w, acts, begun);
  }

  /** What a quiet sweep leaves. */
  lemma QuietSweep(begun: World, ended: World, id: nat, m: Manifest)
    requires Reachable(begun) && Available(begun) && Calm(begun, Epoch(m)) && QuietRun(begun, ended, id, true)
    requires id in begun.clients && begun.clients[id].op == Sweeping(m)
    ensures Available(ended)
  {
    var acts :| Leads(begun, acts, ended, true) && QuietActions(acts, id, true);
    ReachableIsInv(begun);
    CalmSweep(begun, acts, ended, id, m);
    RunKeepsAvailable(begun, acts, ended);
  }

  lemma LoadedIsCurrent(w: World, begun: World, id: nat, m: Manifest, at: int)
    requires Reachable(begun) && Ran(w, begun, id, true) && w.store.hist != []
    requires |w.store.hist| - 1 <= at < |begun.store.hist| && begun.store.hist[at] == m
    requires Calm(begun, Epoch(w.store.hist[|w.store.hist| - 1]))
    ensures Epoch(m) == Epoch(w.store.hist[|w.store.hist| - 1])
  {
    ReachableStoreInv(begun);
    RanExtends(w, begun, id, true);
    BetweenInEpoch(w.store, begun.store, at);
  }

  /** GC safety for one call: if everything was available and calm at the call, and the others only
      updated and viewed, then everything is available at the end. */
  lemma GcKeepsAvailable(w: World, begun: World, ended: World, id: nat, m: Manifest, at: int)
    requires Reachable(w) && Ran(w, begun, id, true) && SafeAtStart(w)
    requires |w.store.hist| - 1 <= at < |begun.store.hist| && begun.store.hist[at] == m
    requires begun.clients[id].op == Sweeping(m)
    requires QuietRun(w, begun, id, false) && QuietRun(begun, ended, id, true)
    ensures Available(ended)
  {
    EvolvesGood(w, begun);
    QuietRefresh(w, begun, id);
    LoadedIsCurrent(w, begun, id, m, at);
    QuietSweep(begun, ended, id, m);
  }

  lemma GcDone(w: World, begun: World, ended: World, v: World, id: nat, job: Job, at: int, current: bool, swept: bool)
    requires Reachable(w) && Ran(w, begun, id, true) && Ran(begun, v, id, true) && ended.store == v.store
    requires |w.store.hist| - 1 <= at && Holds(begun.store, at, job.m)
    requires begun.clients[id].op == Sweeping(job.m)
    requires swept ==> DueGone(begun.store, v.store, job, current)
    ensures swept ==> DueGone(w.store, v.store, job, current)
    ensures SafeAtStart(w) && QuietRun(w, begun, id, false) && QuietRun(begun, ended, id, true) ==>
              CurrentAvailable(v.store)
  {
    if swept {
      forall k | k in w.store.live && Due(k, job, current) ensures k !in v.store.live {
        ListedOrGone(w, begun, v, id, k);
      }
    }
    if SafeAtStart(w) && QuietRun(w, begun, id, false) && QuietRun(begun, ended, id, true) {
      GcKeepsAvailable(w, begun, ended, id, job.m, at);
    }
  }

  /** One call of `GC` in retrospect: the manifest it loaded and its position, the world after the
      refresh, the world when it ended, and whether the current snapshot was there when it asked for
      its age. */
  datatype Report = Report(m: Manifest, at: int, begun: World, ended: World, current: bool)

  /** `GC`.  It refreshes (up to the world `begun`), sweeps (up to `ended`), and stops.  All its own
      steps in between are sweep steps that spare the epoch and the snapshot of `m`, a manifest that
      was current at some moment of the call, and whatever is within the grace period.  If it reports
      success, and with a grace period every Stat was answered, no blob that was present at the call or
      after the refresh and is due by `m` is present at the end.  If it reports failure, it could not
      refresh or a store call failed.  And if nobody was about to swap the snapshot at the call, and
      the others only updated and viewed until the end, every blob that the stored manifest names is
      still present. */
  method Gc(st: Db, grace: nat, now: int, written: Key -> int)
      returns (ok: bool, ghost started: bool, ghost r: Report)
    requires st.Agrees() && st.Me().op.Idle? && Reachable(st.world)
    modifies st
    ensures st.Agrees() && st.Me().op.Idle? && Ran(old(st.world), st.world, st.id, true) && (ok ==> started)
    ensures started ==>
              && Ran(old(st.world), r.begun, st.id, true) && r.ended.store == st.world.store
              && SweptOver(r.begun, r.ended, st.id, Job(r.m, grace, now, written))
              && |old(st.world).store.hist| - 1 <= r.at && Holds(r.begun.store, r.at, r.m)
    ensures ok && (grace == 0 || !Fault(st.oracle, old(st.Now()), st.Now())) ==>
              && DueGone(old(st.world).store, st.world.store, Job(r.m, grace, now, written), r.current)
              && DueGone(r.begun.store, st.world.store, Job(r.m, grace, now, written), r.current)
    ensures !ok ==> CannotRefresh(st.oracle, old(st.Now()), st.Now(), old(st.Me()).schemaVer)
    ensures started && SafeAtStart(old(st.world)) ==>
              QuietRun(old(st.world), r.begun, st.id, false) && QuietRun(r.begun, r.ended, st.id, true) ==>
                CurrentAvailable(st.world.store)
  {
    ghost var start, at := st.Now(), 0;
    ok, at := st.RefreshManifest(ForGc);
    started := ok;
    r := Report(st.manifest, at, st.world, st.world, false);
    if !ok {
      return;
    }
    EvolvesGood(start.world, st.world);
    var job := Job(st.manifest, grace, now, written);
    ghost var here := st.Now();
    ghost var ended, current;
    ok, ended, current := SweepAndStop(st, job);
    r := Report(job.m, at, here.world, ended, current);
    RanTrans(start.world, here.world, st.world, st.id, true, true);
    if ok && Sound(job, st.oracle, start, st.Now()) {
      SoundInside(job, st.oracle, start, here, st.Now(), st.Now());
      GcDone(start.world, here.world, ended, st.world, st.id, job, at, current, true);
    } else {
      GcDone(start.world, here.world, ended, st.world, st.id, job, at, current, false);
    }
    if !ok {
      FaultGrows(st.oracle, start, here, st.Now(), st.Now());
    }
  }
}
