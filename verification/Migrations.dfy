/** `runMigrations` as the source runs it: which migrations a call lands, what each of them is, and why
    it may stop. */
module Migrations {
  import opened Basics
  import opened Changesets
  import opened Manifests
  import opened Protocol
  import opened Frames
  import opened Invariant
  import opened Steps
  import opened Swapping
  import opened Theorems
  import opened Session
  import opened Maintenance

  /** The `Up` functions, by version: the database each leaves, or an error. */
  type Ups = (int, Database) -> Option<Database>

  /** The check at the top: versions are positive and strictly increasing. */
  method ValidateVersions(migrations: seq<int>) returns (ok: bool)
    ensures ok <==> IncreasingVersions(migrations)
  {
    var last := 0;
    for i := 0 to |migrations|
      invariant last == if i == 0 then 0 else migrations[i - 1]
      invariant forall j :: 0 <= j < i ==> 0 < migrations[j] <= last
      invariant forall j, k :: 0 <= j < k < i ==> migrations[j] < migrations[k]
    {
      if migrations[i] <= last {
        return false;
      }
      last := migrations[i];
    }
    ok := true;
  }

  /** The search for the next migration to run. */
  method FindNext(migrations: seq<int>, schema: int) returns (next: Option<int>)
    ensures next == NextVersion(migrations, schema)
  {
    var i := 0;
    assert migrations[0..] == migrations;
    while i < |migrations|
      invariant 0 <= i <= |migrations|
      invariant NextVersion(migrations, schema) == NextVersion(migrations[i..], schema)
    {
      if migrations[i] > schema {
        return Some(migrations[i]);
      }
      assert migrations[i..][1..] == migrations[i + 1..];
      i := i + 1;
    }
    next := None;
  }

  lemma {:induction false} NextIsAbove(migrations: seq<int>, schema: int)
    ensures var next := NextVersion(migrations, schema); next.Some? ==> next.value > schema && next.value in migrations
    decreases |migrations|
  {
    if migrations != [] && migrations[0] <= schema {
      NextIsAbove(migrations[1..], schema);
    }
  }

  /** There is a next version below the last one. */
  lemma {:induction false} NextBelowMax(migrations: seq<int>, schema: int)
    requires IncreasingVersions(migrations) && 0 <= schema < MaxVersion(migrations)
    ensures NextVersion(migrations, schema).Some?
    decreases |migrations|
  {
    if migrations[0] <= schema {
      assert IncreasingVersions(migrations[1..]);
      assert migrations[1..] != [] && MaxVersion(migrations[1..]) == MaxVersion(migrations);
      NextBelowMax(migrations[1..], schema);
    }
  }

  // ---------------------------------------------------------------- what a call lands

  /** Position `k`, if it is a migration of client `id`, is what the caller's `Up` makes of the
      database it replaces. */
  ghost predicate RanUp(s: Store, k: int, id: nat, up: Ups)
    requires 0 <= k < |s.events|
  {
    var ev := s.events[k];
    ev.Migrated? && ev.author == id ==> up(ev.version, ev.before) == Some(ev.after)
  }

  /** Every migration that client `id` landed between `s` and `t` ran the caller's `Up`. */
  ghost predicate RanUps(s: Store, t: Store, id: nat, up: Ups) {
    forall k :: |s.events| <= k < |t.events| ==> RanUp(t, k, id, up)
  }

  /** Position `k`, if it is a migration of client `id`, is the listed one that comes next. */
  ghost predicate InLine(s: Store, k: int, id: nat, migs: seq<int>)
    requires 0 <= k < |s.events|
  {
    var ev := s.events[k];
    ev.Migrated? && ev.author == id ==> 0 < k < |s.hist| && NextVersion(migs, s.hist[k - 1].schema) == Some(ev.version)
  }

  ghost predicate AllInLine(s: Store, t: Store, id: nat, migs: seq<int>) {
    forall k :: |s.events| <= k < |t.events| ==> InLine(t, k, id, migs)
  }

  lemma OthersRanNothing(s: Store, t: Store, id: nat, up: Ups, migs: seq<int>)
    requires SwapsNotBy(s, t, id)
    ensures RanUps(s, t, id, up) && AllInLine(s, t, id, migs)
  {
    forall k | |s.events| <= k < |t.events| ensures RanUp(t, k, id, up) && InLine(t, k, id, migs) {
      assert SwapAuthor(t.events[k]) != Some(id);
    }
  }

  lemma RanUpsTrans(s: Store, x: Store, t: Store, id: nat, up: Ups)
    requires RanUps(s, x, id, up) && RanUps(x, t, id, up) && Extends(x, t)
    ensures RanUps(s, t, id, up)
  {
    forall k | |s.events| <= k < |t.events| ensures RanUp(t, k, id, up) {
      if k < |x.events| {
        assert RanUp(x, k, id, up);
      }
    }
  }

  lemma InLineTrans(s: Store, x: Store, t: Store, id: nat, migs: seq<int>)
    requires AllInLine(s, x, id, migs) && AllInLine(x, t, id, migs) && Extends(x, t)
    ensures AllInLine(s, t, id, migs)
  {
    forall k | |s.events| <= k < |t.events| ensures InLine(t, k, id, migs) {
      if k < |x.events| {
        assert InLine(x, k, id, migs);
      }
    }
  }

  /** The call that began with the store `s` landed migrations of its own list only, each with its
      `Up`, and, if `good`, each in its turn. */
  ghost predicate Landed(s: Store, t: Store, id: nat, up: Ups, migs: seq<int>, good: bool) {
    RanUps(s, t, id, up) && (good ==> AllInLine(s, t, id, migs))
  }

  lemma LandedTrans(s: Store, x: Store, t: Store, id: nat, up: Ups, migs: seq<int>, g1: bool, g2: bool)
    requires Landed(s, x, id, up, migs, g1) && Landed(x, t, id, up, migs, g2) && Extends(x, t)
    ensures Landed(s, t, id, up, migs, g1 && g2)
  {
    RanUpsTrans(s, x, t, id, up);
    if g1 && g2 {
      InLineTrans(s, x, t, id, migs);
    }
  }

  lemma NothingLanded(s: Store, t: Store, id: nat, up: Ups, migs: seq<int>)
    requires SwapsNotBy(s, t, id)
    ensures Landed(s, t, id, up, migs, true)
  {
    OthersRanNothing(s, t, id, up, migs);
  }

  // ---------------------------------------------------------------- single steps

  lemma CloseStep(w: World, x: World, id: nat, v: World)
    requires Waited(w, x, id) && Next(x, Abort(id, Error)) == Some(v)
    requires x.clients[id].op.MigrationTop? || x.clients[id].op.Migrating? || x.clients[id].op.MigrationReady?
    ensures Ran(w, v, id, true) && v.clients[id] == x.clients[id].(conn := None, op := Idle) && v.store == x.store
  {
    RanStep(w, x, Abort(id, Error), v, id);
  }

  /** The error path of Open: the connection is closed. */
  method CloseAfterError(st: Db, ghost w: World)
    requires st.Agrees() && Waited(w, st.world, st.id)
    requires st.Me().op.MigrationTop? || st.Me().op.Migrating? || st.Me().op.MigrationReady?
    modifies st
    ensures st.Agrees() && st.Me().op.Idle? && st.conn.None? && Ran(w, st.world, st.id, true)
    ensures st.world.store == old(st.world).store && st.clock == old(st.clock)
  {
    ghost var x := st.world;
    st.world := Next(st.world, Abort(st.id, Error)).value;
    CloseStep(w, x, st.id, st.world);
    st.conn := None;
  }

  datatype Plan = Fail | Finished | Attempt(version: int)

  /** No database, or one that is ahead of the client's migrations. */
  ghost predicate NoDatabaseFor(s: Store, t: Store, migs: seq<int>) {
    s.hist == [] || exists i :: |s.hist| - 1 <= i < |t.hist| && t.hist[i].schema > MaxVersion(migs)
  }

  /** In a reachable world a database that is behind has a next migration. */
  lemma PlanExists(w: World, x: World, id: nat, m: Manifest)
    requires Reachable(w) && Waited(w, x, id) && x.clients[id].op.MigrationTop?
    requires Holds(x.store, |x.store.hist| - 1, m)
    ensures m.schema < MaxVersion(x.clients[id].migrations) ==>
              NextVersion(x.clients[id].migrations, m.schema).Some?
  {
    EvolvesGood(w, x);
    ReachableInvs(x, id);
    NextExists(x.store, x.clients[id], m);
  }

  lemma NextExists(s: Store, cl: Client, m: Manifest)
    requires StoreInv(s) && ClientInv(s, cl) && cl.op.MigrationTop? && Holds(s, |s.hist| - 1, m)
    ensures m.schema < MaxVersion(cl.migrations) ==> NextVersion(cl.migrations, m.schema).Some?
  {
    StoredIsValid(s, |s.hist| - 1, m);
    if m.schema < MaxVersion(cl.migrations) {
      NextBelowMax(cl.migrations, m.schema);
    }
  }

  /** Top of the loop: reload, and decide.  Attempting the same version twice in a row discards the
      local state, because the previous `Up` has already run on it. */
  method PlanNext(st: Db, last: int) returns (plan: Plan, pos: int)
    requires st.Agrees() && st.Me().op == MigrationTop(last)
    modifies st
    ensures st.Agrees() && Ran(old(st.world), st.world, st.id, true) && st.clock > old(st.clock)
    ensures SwapsNotBy(old(st.world).store, st.world.store, st.id)
    ensures plan.Fail? ==> st.Me().op.Idle?
    ensures plan.Fail? && Reachable(old(st.world)) ==>
              || st.oracle(old(st.clock)).Failed?
              || NoDatabaseFor(old(st.world).store, st.world.store, st.Me().migrations)
    ensures !plan.Fail? ==>
              |old(st.world).store.hist| - 1 <= pos && Holds(st.world.store, pos, st.manifest)
              && st.etag == Md5(st.manifest)
    ensures plan.Finished? ==> st.Me().op == Syncing(ForReady) && st.manifest.schema == MaxVersion(st.Me().migrations)
    ensures plan.Attempt? ==>
              && st.Me().op == Syncing(ForMigration(plan.version)) && st.manifest.schema < plan.version
              && plan.version in st.Me().migrations
    ensures plan.Attempt? && plan.version == last ==> st.snapshotKey == NoKey
  {
    ghost var w := st.world;
    st.Interfere();
    pos := |st.world.store.hist| - 1;
    var r := st.Ask();
    if r.Failed? || st.world.store.hist == [] {
      CloseAfterError(st, w);
      return Fail, pos;
    }
    var m := st.world.store.hist[pos];
    var migs := st.world.clients[st.id].migrations;
    plan := ChoosePlan(migs, m.schema);
    if Reachable(w) {
      PlanExists(w, st.world, st.id, m);
    }
    FollowPlan(st, w, last, m, plan);
  }

  /** The load at the top of the loop, once the plan is made. */
  method FollowPlan(st: Db, ghost w: World, last: int, m: Manifest, plan: Plan)
    requires st.Agrees() && Waited(w, st.world, st.id) && st.Me().op == MigrationTop(last)
    requires Holds(st.world.store, |st.world.store.hist| - 1, m) && Chosen(plan, st.Me().migrations, m.schema)
    modifies st
    ensures st.Agrees() && Ran(w, st.world, st.id, true) && st.world.store == old(st.world).store
    ensures st.Me() == Planned(old(st.Me()), m, |st.world.store.hist| - 1, last, plan) && st.clock == old(st.clock)
  {
    ghost var x := st.world;
    st.world := Next(st.world, MigrationLoad(st.id)).value;
    PlannedStep(w, x, st.id, last, plan, st.world);
    if plan.Fail? {
      st.conn := None;
    } else {
      st.manifest, st.etag := m, Md5(m);
      if plan == Attempt(last) {
        st.snapshotKey := NoKey;
      }
    }
  }

  /** What a plan says about the client's versions and the stored schema. */
  ghost predicate Chosen(plan: Plan, migs: seq<int>, schema: int) {
    && (plan.Finished? <==> schema == MaxVersion(migs))
    && (plan.Fail? <==> schema > MaxVersion(migs) || (schema < MaxVersion(migs) && NextVersion(migs, schema).None?))
    && (plan.Attempt? ==>
          NextVersion(migs, schema) == Some(plan.version) && schema < plan.version && plan.version in migs)
  }

  /** The client after the load at the top of the loop. */
  function Planned(cl: Client, m: Manifest, at: int, last: int, plan: Plan): Client {
    var x := cl.(m := m, etag := Md5(m), mAt := at);
    match plan
    case Fail => Closed(cl)
    case Finished => x.(op := Syncing(ForReady))
    case Attempt(v) => x.(snapshotKey := if v == last then NoKey else x.snapshotKey, op := Syncing(ForMigration(v)))
  }

  lemma PlannedStep(w: World, x: World, id: nat, last: int, plan: Plan, v: World)
    requires Waited(w, x, id) && x.clients[id].op == MigrationTop(last) && x.store.hist != []
    requires Chosen(plan, x.clients[id].migrations, x.store.hist[|x.store.hist| - 1].schema)
    requires Next(x, MigrationLoad(id)) == Some(v)
    ensures Ran(w, v, id, true) && v.store == x.store
    ensures v.clients[id] == Planned(x.clients[id], x.store.hist[|x.store.hist| - 1], |x.store.hist| - 1, last, plan)
  {
    RanStep(w, x, MigrationLoad(id), v, id);
  }

  /** Too new, done, or the next version. */
  method ChoosePlan(migs: seq<int>, schema: int) returns (plan: Plan)
    ensures Chosen(plan, migs, schema)
  {
    if schema > MaxVersion(migs) {
      return Fail;
    }
    if schema == MaxVersion(migs) {
      return Finished;
    }
    var next := FindNext(migs, schema);
    NextIsAbove(migs, schema);
    plan := if next.None? then Fail else Attempt(next.value);
  }

  lemma RunUpStep(w: World, x: World, id: nat, after: Database, n: nat, r: Reply, v: World)
    requires Waited(w, x, id) && x.clients[id].op.Migrating? && Next(x, RunUp(id, after, n, r)) == Some(v)
    ensures Ran(w, v, id, true) && x.clients[id].conn.Some? && v.store.events == x.store.events
    ensures var cl := x.clients[id];
            v.clients[id] == if r.Answered?
              then cl.(conn := Some(after), op := MigrationReady(cl.op.version, SnapKey(n), cl.conn.value))
              else cl.(conn := None, op := Idle)
  {
    RanStep(w, x, RunUp(id, after, n, r), v, id);
  }

  /** Run `Up` on the connection and upload the result. */
  method UpAndUpload(st: Db, version: int, up: Ups) returns (key: Option<Key>)
    requires st.Agrees() && st.Me().op == Migrating(version) && st.conn.Some?
    modifies st
    ensures st.Agrees() && Ran(old(st.world), st.world, st.id, true) && st.clock >= old(st.clock)
    ensures SwapsNotBy(old(st.world).store, st.world.store, st.id)
    ensures key.None? ==> st.Me().op.Idle?
    ensures key.None? ==> up(version, old(st.conn).value).None? || Fault(st.oracle, old(st.Now()), st.Now())
    ensures key.Some? ==>
              && st.conn.Some? && st.conn == up(version, old(st.conn).value)
              && st.manifest == old(st.manifest) && st.etag == old(st.etag)
              && st.Me().op == MigrationReady(version, key.value, old(st.conn).value)
  {
    ghost var w, start := st.world, st.Now();
    WaitedRefl(w, st.id);
    match up(version, st.conn.value)
    case None =>
      CloseAfterError(st, w);
      key := None;
    case Some(after) =>
      key := UploadMigrated(st, version, after);
      if key.None? {
        FaultAt(st.oracle, start, st.Now(), start.clock);
      }
  }

  /** Upload the database that `Up` left. */
  method UploadMigrated(st: Db, version: int, after: Database) returns (key: Option<Key>)
    requires st.Agrees() && st.Me().op == Migrating(version) && st.conn.Some?
    modifies st
    ensures st.Agrees() && Ran(old(st.world), st.world, st.id, true) && st.clock > old(st.clock)
    ensures SwapsNotBy(old(st.world).store, st.world.store, st.id)
    ensures key.None? ==> st.Me().op.Idle? && st.oracle(old(st.clock)).Failed?
    ensures key.Some? ==>
              && st.conn == Some(after) && st.manifest == old(st.manifest) && st.etag == old(st.etag)
              && st.Me().op == MigrationReady(version, key.value, old(st.conn).value)
  {
    ghost var w := st.world;
    st.Interfere();
    ghost var x := st.world;
    var n := FreshSnapshotId(st.world.store.content);
    var r := st.Ask();
    st.world := Next(st.world, RunUp(st.id, after, n, r)).value;
    RunUpStep(w, x, st.id, after, n, r, st.world);
    st.conn := if r.Answered? then Some(after) else None;
    key := if r.Answered? then Some(SnapKey(n)) else None;
  }

  lemma MigrationCasStep(w: World, x: World, id: nat, r: Reply, v: World)
    requires Waited(w, x, id) && x.clients[id].op.MigrationReady? && x.clients[id].conn.Some?
    requires Next(x, Cas(id, r)) == Some(v)
    ensures Ran(w, v, id, true)
    ensures var cl := x.clients[id];
            var m, version := Stamped(MigrationManifest(cl)), cl.op.version;
            match PutOutcome(x.store, MigrationManifest(cl), PutCondition(cl.etag, false), r)
            case Won =>
              v.clients[id] == cl.(m := m, etag := Md5(m), mAt := |x.store.hist|, localSeq := cl.m.seqNo,
                                   snapshotKey := cl.op.key, connAt := |x.store.hist|, op := MigrationTop(version))
            case Refused =>
              v.clients[id] == cl.(op := MigrationTop(version)) && !Meets(v.store, PutCondition(cl.etag, false))
            case Unknown => v.clients[id] == cl.(conn := None, op := Idle)
  {
    RanStep(w, x, Cas(id, r), v, id);
  }

  lemma MigrationCasStore(x: World, id: nat, r: Reply, v: World)
    requires id in x.clients && x.clients[id].op.MigrationReady? && x.clients[id].conn.Some?
    requires Next(x, Cas(id, r)) == Some(v)
    ensures AfterMigrationCas(x, id, r, v.store)
  {
  }

  /** What the write of a migration leaves in the store: nothing if it was refused, the migration if
      it was answered as won, and either if the answer was lost. */
  ghost predicate AfterMigrationCas(x: World, id: nat, r: Reply, t: Store)
    requires id in x.clients && x.clients[id].op.MigrationReady? && x.clients[id].conn.Some?
  {
    var cl := x.clients[id];
    var ev := Migrated(cl.op.version, cl.op.before, cl.conn.value, id);
    var m, cond := MigrationManifest(cl), PutCondition(cl.etag, false);
    && (if Lands(x.store, m, cond, r) then t == WithManifest(x.store, Stamped(m), ev) else t == x.store)
    && (PutOutcome(x.store, m, cond, r).Won? ==> Lands(x.store, m, cond, r))
    && (PutOutcome(x.store, m, cond, r).Refused? ==> !Lands(x.store, m, cond, r))
  }

  /** History position `i` is migration `version` of client `id`, and it is what `Up` makes of
      `before`. */
  ghost predicate UpLanded(s: Store, id: nat, up: Ups, version: int, before: Database, i: int) {
    && 0 <= i < |s.events| && s.events[i].Migrated? && s.events[i].version == version
    && s.events[i].author == id
    && s.events[i].before == before && up(version, before) == Some(s.events[i].after)
  }

  /** In a reachable world the manifest of a migration is valid, and where it lands, it is next. */
  lemma MigrationIsNext(w: World, x: World, id: nat)
    requires Reachable(w) && Waited(w, x, id) && x.clients[id].op.MigrationReady?
    ensures var cl := x.clients[id];
            && cl.conn.Some? && ValidManifest(Stamped(MigrationManifest(cl)))
            && |x.store.hist| == |x.store.events| > 0
            && (Meets(x.store, PutCondition(cl.etag, false)) ==>
                  NextVersion(cl.migrations, x.store.hist[|x.store.hist| - 1].schema) == Some(cl.op.version))
  {
    EvolvesGood(w, x);
    ReachableInvs(x, id);
    ReadyIsNext(x.store, x.clients[id]);
  }

  lemma ReadyIsNext(s: Store, cl: Client)
    requires StoreInv(s) && ClientInv(s, cl) && cl.op.MigrationReady?
    ensures cl.conn.Some? && ValidManifest(Stamped(MigrationManifest(cl))) && |s.hist| == |s.events| > 0
    ensures Meets(s, PutCondition(cl.etag, false)) ==>
              NextVersion(cl.migrations, s.hist[|s.hist| - 1].schema) == Some(cl.op.version)
  {
    assert ValidManifest(s.hist[cl.mAt]);
    NextIsAbove(cl.migrations, cl.m.schema);
    if Meets(s, PutCondition(cl.etag, false)) {
      MatchIsLatest(s, cl.m, cl.etag, cl.mAt);
    }
  }

  /** The one event of a won migration. */
  lemma OneLanded(x: World, id: nat, r: Reply, t: Store, up: Ups, good: bool)
    requires id in x.clients && x.clients[id].op.MigrationReady? && x.clients[id].conn.Some?
    requires up(x.clients[id].op.version, x.clients[id].op.before) == x.clients[id].conn
    requires AfterMigrationCas(x, id, r, t)
    requires var cl := x.clients[id];
             good && Meets(x.store, PutCondition(cl.etag, false)) ==>
               && |x.store.hist| == |x.store.events| > 0
               && NextVersion(cl.migrations, x.store.hist[|x.store.hist| - 1].schema) == Some(cl.op.version)
    ensures Landed(x.store, t, id, up, x.clients[id].migrations, good) && Extends(x.store, t)
    ensures var cl := x.clients[id];
            match PutOutcome(x.store, MigrationManifest(cl), PutCondition(cl.etag, false), r)
            case Won =>
              && |t.events| == |x.store.events| + 1 && |t.hist| == |x.store.hist| + 1
              && UpLanded(t, id, up, cl.op.version, cl.op.before, |x.store.events|)
            case Refused => t == x.store
            case Unknown => true
  {
    forall k | |x.store.events| <= k < |t.events|
      ensures RanUp(t, k, id, up) && (good ==> InLine(t, k, id, x.clients[id].migrations))
    {
      assert k == |x.store.events|;
    }
  }

  /** CAS the migrated snapshot in under the new schema version. */
  method CasMigration(st: Db, version: int, key: Key, ghost before: Database, up: Ups, ghost pos: int)
      returns (res: PutResult)
    requires st.Agrees() && st.Me().op == MigrationReady(version, key, before) && st.conn.Some?
               && up(version, before) == st.conn
    requires Holds(st.world.store, pos, st.manifest) && st.etag == Md5(st.manifest)
    modifies st
    ensures st.Agrees() && Ran(old(st.world), st.world, st.id, true) && st.clock > old(st.clock)
    ensures st.Me().op == if res.Unknown? then Idle else MigrationTop(version)
    ensures Landed(old(st.world).store, st.world.store, st.id, up, st.Me().migrations, Reachable(old(st.world)))
    ensures res.Won? ==>
              && |old(st.world).store.events| < |st.world.store.events|
              && |old(st.world).store.hist| < |st.world.store.hist|
              && UpLanded(st.world.store, st.id, up, version, before, |st.world.store.events| - 1)
    ensures res.Refused? ==> SwapsNotBy(old(st.world).store, st.world.store, st.id)
    ensures res.Refused? ==> pos < |st.world.store.hist| - 1
    ensures res.Unknown? && Reachable(old(st.world)) ==> st.oracle(old(st.clock)).Failed?
  {
    ghost var w := st.world;
    st.Interfere();
    ghost var x, m := st.world, st.manifest;
    if Reachable(w) {
      MigrationIsNext(w, x, st.id);
    }
    var r := st.Ask();
    res := CasMigrationNow(st, w, version, key, before, r);
    NothingLanded(w.store, x.store, st.id, up, st.Me().migrations);
    MigrationCasStore(x, st.id, r, st.world);
    OneLanded(x, st.id, r, st.world.store, up, Reachable(w));
    LandedTrans(w.store, x.store, st.world.store, st.id, up, st.Me().migrations, true, Reachable(w));
    if res.Refused? {
      RefusedMeansLater(st.world.store, pos, m);
    }
  }

  /** The store's answer to the migration's write. */
  method CasMigrationNow(st: Db, ghost w: World, version: int, key: Key, ghost before: Database, r: Reply)
      returns (res: PutResult)
    requires st.Agrees() && Waited(w, st.world, st.id)
    requires st.Me().op == MigrationReady(version, key, before) && st.conn.Some?
    modifies st
    ensures st.Agrees() && Ran(w, st.world, st.id, true) && st.clock == old(st.clock)
    ensures st.Me().op == if res.Unknown? then Idle else MigrationTop(version)
    ensures Next(old(st.world), Cas(st.id, r)) == Some(st.world)
    ensures res
         == PutOutcome(old(st.world).store, MigrationManifest(old(st.Me())), PutCondition(old(st.etag), false), r)
  {
    ghost var x := st.world;
    var m := Manifest(FORMAT_VERSION, st.manifest.seqNo, version, SnapRef(key, st.manifest.seqNo, st.conn.value), []);
    assert m == MigrationManifest(st.Me());
    res := PutOutcome(st.world.store, m, PutCondition(st.etag, false), r);
    st.world := Next(st.world, Cas(st.id, r)).value;
    MigrationCasStep(w, x, st.id, r, st.world);
    match res
    case Won =>
      st.localSeq, st.snapshotKey := st.manifest.seqNo, key;
      st.manifest, st.etag := Stamped(m), Md5(Stamped(m));
    case Refused =>
    case Unknown =>
      st.conn := None;
  }

  /** `Up` of a listed version failed on a state of the database at position `from` or later. */
  ghost predicate UpFails(s: Store, from: int, up: Ups, migs: seq<int>) {
    exists q, v :: from <= q < |s.hist| && v in migs && StateAt(s, q).Some? && up(v, StateAt(s, q).value).None?
  }

  /** `applyMigration` on the manifest at position `pos`: sync, run `Up`, upload, CAS.  In a good world
      `Up` sees exactly the state at `pos`, whatever earlier attempts did to the local database; a won
      CAS has recorded what `Up` made of it; and anything but a won or lost CAS has a reason. */
  method ApplyMigration(st: Db, version: int, up: Ups, ghost pos: int)
      returns (res: PutResult, ghost saw: Option<Database>)
    requires st.Agrees() && st.Me().op == Syncing(ForMigration(version)) && version in st.Me().migrations
    requires Holds(st.world.store, pos, st.manifest) && st.etag == Md5(st.manifest)
    modifies st
    ensures st.Agrees() && Ran(old(st.world), st.world, st.id, true) && st.clock >= old(st.clock)
    ensures st.Me().op == if res.Unknown? then Idle else MigrationTop(version)
    ensures Landed(old(st.world).store, st.world.store, st.id, up, st.Me().migrations, Reachable(old(st.world)))
    ensures Reachable(old(st.world)) && saw.Some? ==> saw == StateAt(st.world.store, pos)
    ensures res.Won? ==>
              && saw.Some? && |old(st.world).store.events| < |st.world.store.events|
              && UpLanded(st.world.store, st.id, up, version, saw.value, |st.world.store.events| - 1)
    ensures !res.Unknown? ==> |old(st.world).store.hist| < |st.world.store.hist| || pos < |st.world.store.hist| - 1
    ensures res.Refused? ==> SwapsNotBy(old(st.world).store, st.world.store, st.id)
    ensures Reachable(old(st.world)) && res.Unknown? ==>
              || Trouble(st.oracle, old(st.Now()), st.Now(), pos)
              || UpFails(st.world.store, pos, up, st.Me().migrations)
  {
    ghost var start, m, migs := st.Now(), st.manifest, st.Me().migrations;
    saw := None;
    var ok := st.SyncToManifest(ForMigration(version), pos);
    ghost var here := st.Now();
    NothingLanded(start.world.store, here.world.store, st.id, up, migs);
    if !ok {
      return Unknown, None;
    }
    HoldsOn(start.world, here.world, st.id, true, pos, m);
    if Reachable(start.world) {
      EvolvesGood(start.world, here.world);
    }
    saw := st.conn;
    res := UpAndCas(st, version, up, pos);
    AfterMigration(start.world, here.world, st.world, st.id, up, migs, res);
    MigrationLanded(start, here, st.Now(), st.oracle, st.id, m, pos, up, migs, version, res, saw);
  }

  /** From the end of the sync to the end of the migration. */
  lemma MigrationLanded(a: Moment, b: Moment, c: Moment, oracle: nat -> Reply, id: nat, m: Manifest, pos: int, up: Ups,
                        migs: seq<int>, version: int, res: PutResult, saw: Option<Database>)
    requires Ran(a.world, b.world, id, true) && Ran(b.world, c.world, id, true) && a.clock <= b.clock <= c.clock
    requires Holds(a.world.store, pos, m) && saw.Some?
    requires Reachable(a.world) ==> saw == Replay(b.world.store.content, m)
    requires Reachable(b.world) && res.Unknown? ==> up(version, saw.value).None? || Fault(oracle, b, c)
    requires version in migs
    ensures Reachable(a.world) ==> saw == StateAt(c.world.store, pos)
    ensures Reachable(a.world) && res.Unknown? ==>
              || Trouble(oracle, a, c, pos)
              || UpFails(c.world.store, pos, up, migs)
  {
    RanExtends(a.world, b.world, id, true);
    RanExtends(b.world, c.world, id, true);
    if Reachable(a.world) {
      EvolvesGood(a.world, b.world);
      ReplayStays(a.world, b.world, c.world, id, m);
      assert StateAt(c.world.store, pos) == saw;
      if res.Unknown? && up(version, saw.value).Some? {
        FaultGrows(oracle, a, b, c, c);
      }
    }
  }

  /** `Up`, upload, CAS, on a synced connection. */
  method UpAndCas(st: Db, version: int, up: Ups, ghost pos: int) returns (res: PutResult)
    requires st.Agrees() && st.Me().op == Migrating(version) && st.conn.Some? && version in st.Me().migrations
    requires Holds(st.world.store, pos, st.manifest) && st.etag == Md5(st.manifest)
    modifies st
    ensures st.Agrees() && Ran(old(st.world), st.world, st.id, true) && st.clock >= old(st.clock)
    ensures st.Me().op == if res.Unknown? then Idle else MigrationTop(version)
    ensures Landed(old(st.world).store, st.world.store, st.id, up, st.Me().migrations, Reachable(old(st.world)))
    ensures res.Won? ==>
              && |old(st.world).store.events| < |st.world.store.events|
              && |old(st.world).store.hist| < |st.world.store.hist|
              && UpLanded(st.world.store, st.id, up, version, old(st.conn).value, |st.world.store.events| - 1)
    ensures res.Refused? ==>
              SwapsNotBy(old(st.world).store, st.world.store, st.id) && pos < |st.world.store.hist| - 1
    ensures Reachable(old(st.world)) && res.Unknown? ==>
              up(version, old(st.conn).value).None? || Fault(st.oracle, old(st.Now()), st.Now())
  {
    ghost var start, m, saw, migs := st.Now(), st.manifest, st.conn.value, st.Me().migrations;
    var key := UpAndUpload(st, version, up);
    ghost var here := st.Now();
    NothingLanded(start.world.store, here.world.store, st.id, up, migs);
    if key.None? {
      return Unknown;
    }
    BeforeSwap(start.world, here.world, st.id, pos, m);
    res := CasMigration(st, version, key.value, saw, up, pos);
    AfterMigration(start.world, here.world, st.world, st.id, up, migs, res);
    if Reachable(start.world) && res.Unknown? {
      FaultAt(st.oracle, start, st.Now(), here.clock);
    }
  }

  lemma AfterMigration(w: World, x: World, v: World, id: nat, up: Ups, migs: seq<int>, res: PutResult)
    requires Ran(w, x, id, true) && Ran(x, v, id, true) && SwapsNotBy(w.store, x.store, id)
    requires Landed(w.store, x.store, id, up, migs, true) && Landed(x.store, v.store, id, up, migs, Reachable(x))
    requires Reachable(w) ==> Reachable(x)
    requires res.Refused? ==> SwapsNotBy(x.store, v.store, id)
    ensures Ran(w, v, id, true) && Landed(w.store, v.store, id, up, migs, Reachable(w))
    ensures |w.store.events| <= |x.store.events| && |w.store.hist| <= |x.store.hist|
    ensures res.Refused? ==> SwapsNotBy(w.store, v.store, id)
  {
    AfterSwap(w, x, v, id, res);
    RanExtends(w, x, id, true);
    RanExtends(x, v, id, true);
    LandedTrans(w.store, x.store, v.store, id, up, migs, true, Reachable(x));
  }

  // ---------------------------------------------------------------- the loop

  lemma StartStep(w: World, id: nat, v: World)
    requires id in w.clients && Next(w, StartMigrations(id)) == Some(v)
    ensures Ran(w, v, id, true) && v.clients[id] == w.clients[id].(op := MigrationTop(-1)) && v.store == w.store
  {
    WaitedRefl(w, id);
    RanStep(w, w, StartMigrations(id), v, id);
  }

  method Start(st: Db)
    requires st.Agrees() && st.Me().op.Idle? && IncreasingVersions(st.Me().migrations)
    modifies st`world
    ensures st.Agrees() && Ran(old(st.world), st.world, st.id, true) && st.world.store == old(st.world).store
    ensures st.Me().op == MigrationTop(-1)
  {
    ghost var w := st.world;
    st.world := Next(st.world, StartMigrations(st.id)).value;
    StartStep(w, st.id, st.world);
  }

  /** Why a call with increasing versions may stop before its end. */
  ghost predicate CannotMigrate(oracle: nat -> Reply, a: Moment, b: Moment, up: Ups, migs: seq<int>) {
    || Trouble(oracle, a, b, |a.world.store.hist| - 1)
    || NoDatabaseFor(a.world.store, b.world.store, migs)
    || UpFails(b.world.store, |a.world.store.hist| - 1, up, migs)
  }

  lemma CannotMigrateSince(oracle: nat -> Reply, a: Moment, b: Moment, c: Moment, up: Ups, migs: seq<int>)
    requires Reachable(a.world) && Evolves(a.world, b.world, true) && a.clock <= b.clock
    requires |a.world.store.hist| <= |b.world.store.hist| && CannotMigrate(oracle, b, c, up, migs)
    ensures CannotMigrate(oracle, a, c, up, migs)
  {
    var s, t, from := a.world.store, c.world.store, |b.world.store.hist| - 1;
    if Trouble(oracle, b, c, from) {
      TroubleSince(oracle, a, b, c, from);
      TroubleFrom(oracle, a, c, from, |s.hist| - 1);
    } else if UpFails(t, from, up, migs) {
      var q, v :| from <= q < |t.hist| && v in migs && StateAt(t, q).Some? && up(v, StateAt(t, q).value).None?;
      assert |s.hist| - 1 <= q;
    } else if s.hist != [] {
      var i :| from <= i < |t.hist| && t.hist[i].schema > MaxVersion(migs);
      assert |s.hist| - 1 <= i;
    }
  }

  /** ... or in the middle of it. */
  lemma AttemptFailed(oracle: nat -> Reply, a: Moment, b: Moment, c: Moment, up: Ups, migs: seq<int>, pos: int)
    requires Reachable(a.world) && Evolves(a.world, b.world, true) && a.clock <= b.clock
    requires |a.world.store.hist| - 1 <= pos
    requires Trouble(oracle, b, c, pos) || UpFails(c.world.store, pos, up, migs)
    ensures CannotMigrate(oracle, a, c, up, migs)
  {
    var s, t := a.world.store, c.world.store;
    if Trouble(oracle, b, c, pos) {
      TroubleSince(oracle, a, b, c, pos);
      TroubleFrom(oracle, a, c, pos, |s.hist| - 1);
    } else {
      var q, v :| pos <= q < |t.hist| && v in migs && StateAt(t, q).Some? && up(v, StateAt(t, q).value).None?;
      assert |s.hist| - 1 <= q;
    }
  }

  /** The schema is at the client's version: the manifest at `at`, current during the call that began
      with the store `s`. */
  ghost predicate UpToDate(s: Store, t: Store, at: int, m: Manifest, migs: seq<int>) {
    |s.hist| - 1 <= at && Holds(t, at, m) && m.schema == MaxVersion(migs)
  }

  /** One iteration: None to go on, or whether the whole thing succeeded. */
  method MigrateOnce(st: Db, last: int, up: Ups) returns (done: Option<bool>, attempted: int, ghost at: int)
    requires st.Agrees() && st.Me().op == MigrationTop(last)
    modifies st
    ensures st.Agrees() && Ran(old(st.world), st.world, st.id, true) && st.clock >= old(st.clock)
    ensures st.Me().op == if done.None? then MigrationTop(attempted) else Idle
    ensures Landed(old(st.world).store, st.world.store, st.id, up, st.Me().migrations, Reachable(old(st.world)))
    ensures done == Some(true) ==>
              && UpToDate(old(st.world).store, st.world.store, at, st.manifest, st.Me().migrations)
              && st.conn.Some? && (Reachable(old(st.world)) ==> st.conn == StateAt(st.world.store, at))
    ensures done.None? ==> |old(st.world).store.hist| < |st.world.store.hist|
    ensures Reachable(old(st.world)) && done == Some(false) ==>
              CannotMigrate(st.oracle, old(st.Now()), st.Now(), up, st.Me().migrations)
  {
    ghost var start, migs := st.Now(), st.Me().migrations;
    attempted := last;
    var plan, pos := PlanNext(st, last);
    at := pos;
    ghost var here := st.Now();
    NothingLanded(start.world.store, here.world.store, st.id, up, migs);
    RanExtends(start.world, here.world, st.id, true);
    if Reachable(start.world) {
      EvolvesGood(start.world, here.world);
    }
    match plan
    case Fail =>
      done := Some(false);
      if st.oracle(start.clock).Failed? {
        FaultAt(st.oracle, start, st.Now(), start.clock);
      }
    case Finished =>
      var ok := FinalSync(st, start, up, at);
      done := Some(ok);
      LandedTrans(start.world.store, here.world.store, st.world.store, st.id, up, migs, true, true);
    case Attempt(version) =>
      attempted := version;
      done := Attempted(st, start, version, up, at);
      LandedTrans(start.world.store, here.world.store, st.world.store, st.id, up, migs, true, Reachable(here.world));
  }

  /** All migrations are in: sync. */
  method FinalSync(st: Db, ghost start: Moment, ghost up: Ups, ghost pos: int) returns (ok: bool)
    requires st.Agrees() && st.Me().op == Syncing(ForReady) && Holds(st.world.store, pos, st.manifest)
    requires Ran(start.world, st.world, st.id, true) && start.clock <= st.clock && |start.world.store.hist| - 1 <= pos
    modifies st
    ensures st.Agrees() && Ran(start.world, st.world, st.id, true) && st.Me().op.Idle? && start.clock <= st.clock
    ensures Extends(old(st.world).store, st.world.store)
    ensures Landed(old(st.world).store, st.world.store, st.id, up, st.Me().migrations, true)
    ensures Holds(st.world.store, pos, st.manifest) && st.manifest == old(st.manifest) && (ok ==> st.conn.Some?)
    ensures ok && Reachable(start.world) ==> st.conn == StateAt(st.world.store, pos)
    ensures !ok && Reachable(start.world) ==> CannotMigrate(st.oracle, start, st.Now(), up, st.Me().migrations)
  {
    ghost var here, m, migs := st.Now(), st.manifest, st.Me().migrations;
    if Reachable(start.world) {
      EvolvesGood(start.world, here.world);
    }
    ok := st.SyncToManifest(ForReady, pos);
    RanTrans(start.world, here.world, st.world, st.id, true, true);
    RanExtends(here.world, st.world, st.id, true);
    HoldsOn(here.world, st.world, st.id, true, pos, m);
    NothingLanded(here.world.store, st.world.store, st.id, up, migs);
    if Reachable(start.world) && !ok {
      AttemptFailed(st.oracle, start, here, st.Now(), up, migs, pos);
    }
  }

  /** One migration, won or lost; any other end is an error. */
  method Attempted(st: Db, ghost start: Moment, version: int, up: Ups, ghost pos: int) returns (done: Option<bool>)
    requires st.Agrees() && st.Me().op == Syncing(ForMigration(version)) && version in st.Me().migrations
    requires Holds(st.world.store, pos, st.manifest) && st.etag == Md5(st.manifest)
    requires Ran(start.world, st.world, st.id, true) && start.clock <= st.clock
    requires |start.world.store.hist| - 1 <= pos && |start.world.store.hist| <= |st.world.store.hist|
    modifies st
    ensures st.Agrees() && Ran(start.world, st.world, st.id, true) && start.clock <= st.clock && done != Some(true)
    ensures st.Me().op == if done.None? then MigrationTop(version) else Idle
    ensures Extends(old(st.world).store, st.world.store)
    ensures Landed(old(st.world).store, st.world.store, st.id, up, st.Me().migrations, Reachable(old(st.world)))
    ensures done.None? ==> |start.world.store.hist| < |st.world.store.hist|
    ensures Reachable(start.world) && done == Some(false) ==>
              CannotMigrate(st.oracle, start, st.Now(), up, st.Me().migrations)
  {
    ghost var here, migs := st.Now(), st.Me().migrations;
    var res;
    ghost var saw;
    res, saw := ApplyMigration(st, version, up, pos);
    RanTrans(start.world, here.world, st.world, st.id, true, true);
    RanExtends(here.world, st.world, st.id, true);
    if Reachable(start.world) && res.Unknown? {
      EvolvesGood(start.world, here.world);
      AttemptFailed(st.oracle, start, here, st.Now(), up, migs, pos);
    }
    done := if res.Unknown? then Some(false) else None;
  }

  // ---------------------------------------------------------------- the whole call

  /** Nobody but client `id` migrated between `s` and `t`. */
  ghost predicate OnlyMigrator(s: Store, t: Store, id: nat) {
    forall k :: |s.events| <= k < |t.events| && t.events[k].Migrated? ==> t.events[k].author == id
  }

  /** The schema version when a call began, of the first manifest if there was none. */
  function SchemaAt(s: Store, t: Store): int
    requires s.hist != [] || t.hist != []
  {
    if s.hist == [] then t.hist[0].schema else s.hist[|s.hist| - 1].schema
  }

  /** Client `id` landed version `v` between `s` and `t`. */
  ghost predicate VersionLanded(s: Store, t: Store, id: nat, v: int) {
    exists k :: |s.events| <= k < |t.events| && t.events[k].Migrated? && t.events[k].author == id
      && t.events[k].version == v
  }

  /** Somewhere between two positions the schema version steps over `v`, and that is a migration. */
  lemma {:induction false} StepsOver(t: Store, p: nat, j: nat, v: int) returns (k: nat)
    requires StoreInv(t) && p <= j < |t.hist| && t.hist[p].schema < v <= t.hist[j].schema
    ensures p < k <= j && t.hist[k - 1].schema < v <= t.hist[k].schema && t.events[k].Migrated?
    decreases j
  {
    if t.hist[j - 1].schema < v {
      k := j;
      SchemaSteps(t, j - 1, j);
    } else {
      k := StepsOver(t, p, j - 1, v);
    }
  }

  lemma {:induction false} MaxVersionIsMax(migs: seq<int>, v: int)
    requires IncreasingVersions(migs) && v in migs
    ensures v <= MaxVersion(migs)
  {
    var i :| 0 <= i < |migs| && migs[i] == v;
  }

  /** If the schema reached the last version and nobody else migrated, every listed version above the
      schema at the start was landed by this call. */
  lemma AllLanded(s: Store, t: Store, id: nat, migs: seq<int>, at: int, v: int)
    requires StoreInv(t) && Extends(s, t) && |s.hist| == |s.events| && IncreasingVersions(migs)
    requires AllInLine(s, t, id, migs) && OnlyMigrator(s, t, id)
    requires 0 <= at < |t.hist| && |s.hist| - 1 <= at && t.hist[at].schema == MaxVersion(migs)
    requires v in migs && v > SchemaAt(s, t)
    ensures VersionLanded(s, t, id, v)
  {
    var p := if s.hist == [] then 0 else |s.hist| - 1;
    MaxVersionIsMax(migs, v);
    var k := StepsOver(t, p, at, v);
    assert EventOk(t, k) && InLine(t, k, id, migs);
    NextVersionIsLeast(migs, t.hist[k - 1].schema, t.events[k].version);
  }

  /** Every listed version above the schema at the start was landed. */
  ghost predicate AllOfThem(s: Store, t: Store, id: nat, migs: seq<int>)
    requires s.hist != [] || t.hist != []
  {
    forall v :: v in migs && v > SchemaAt(s, t) ==> VersionLanded(s, t, id, v)
  }

  lemma SuccessMeans(w: World, v: World, id: nat, up: Ups, migs: seq<int>, at: int, m: Manifest)
    requires Reachable(w) && Ran(w, v, id, true) && Landed(w.store, v.store, id, up, migs, true)
    requires IncreasingVersions(migs) && UpToDate(w.store, v.store, at, m, migs)
    requires OnlyMigrator(w.store, v.store, id)
    ensures AllOfThem(w.store, v.store, id, migs)
  {
    ReachableStoreInv(w);
    EvolvesGood(w, v);
    ReachableStoreInv(v);
    RanExtends(w, v, id, true);
    forall u | u in migs && u > SchemaAt(w.store, v.store) ensures VersionLanded(w.store, v.store, id, u) {
      AllLanded(w.store, v.store, id, migs, at, u);
    }
  }

  /** `runMigrations`.  The loop has no bound of its own; `rounds` is how many iterations run before
      the context is cancelled.  Every run of it is safe.  Whatever it answers, each migration it landed
      is what the caller's `Up` made of the database it replaced, and from a reachable world it landed
      each in its turn.  Success: the schema of a manifest stored during the call is at the client's
      version, the connection is its state, and, if nobody else migrated, every listed version above
      the schema at the start was landed.  Failure has a reason; that the rounds ran out means that
      each of them saw another manifest written. */
  method RunMigrations(st: Db, up: Ups, rounds: nat) returns (ok: bool, ghost at: int)
    requires st.Agrees() && st.Me().op.Idle?
    modifies st
    ensures st.Agrees() && st.Me().op.Idle? && Ran(old(st.world), st.world, st.id, true)
    ensures Landed(old(st.world).store, st.world.store, st.id, up, st.Me().migrations, Reachable(old(st.world)))
    ensures ok ==>
              && IncreasingVersions(st.Me().migrations) && st.conn.Some?
              && UpToDate(old(st.world).store, st.world.store, at, st.manifest, st.Me().migrations)
    ensures ok && Reachable(old(st.world)) ==>
              && st.conn == StateAt(st.world.store, at)
              && (OnlyMigrator(old(st.world).store, st.world.store, st.id) ==>
                    AllOfThem(old(st.world).store, st.world.store, st.id, st.Me().migrations))
    ensures !ok && Reachable(old(st.world)) ==>
              || !IncreasingVersions(st.Me().migrations)
              || CannotMigrate(st.oracle, old(st.Now()), st.Now(), up, st.Me().migrations)
              || |old(st.world).store.hist| + rounds <= |st.world.store.hist|
  {
    ghost var start, migs := st.Now(), st.Me().migrations;
    RanRefl(start.world, st.id);
    at := 0;
    NothingLanded(start.world.store, start.world.store, st.id, up, migs);
    var valid := ValidateVersions(st.world.clients[st.id].migrations);
    if !valid {
      return false, at;
    }
    Start(st);
    var last, done := -1, None;
    for round := 0 to rounds
      invariant st.Agrees() && st.Me().op == MigrationTop(last)
      invariant RoundsRun(start, st.Now(), st.id, up, migs, round)
    {
      ghost var here := st.Now();
      if Reachable(start.world) {
        EvolvesGood(start.world, here.world);
      }
      done, last, at := MigrateOnce(st, last, up);
      OneMore(start, here, st.Now(), st.id, up, migs, round, done.None?);
      if done.Some? {
        AtTheEnd(start, here, st.Now(), st.oracle, st.id, up, migs, round, at, st.manifest, done.value);
        return done.value, at;
      }
    }
    ghost var x := st.world;
    WaitedRefl(x, st.id);
    CloseAfterError(st, x);
    RanTrans(start.world, x, st.world, st.id, true, true);
    ok := false;
  }

  /** What the loop keeps after `rounds` rounds. */
  ghost predicate RoundsRun(a: Moment, b: Moment, id: nat, up: Ups, migs: seq<int>, rounds: nat) {
    && Ran(a.world, b.world, id, true) && a.clock <= b.clock && b.world.clients[id].migrations == migs
    && Landed(a.world.store, b.world.store, id, up, migs, Reachable(a.world))
    && |a.world.store.hist| + rounds <= |b.world.store.hist|
  }

  lemma OneMore(a: Moment, b: Moment, c: Moment, id: nat, up: Ups, migs: seq<int>, rounds: nat, grew: bool)
    requires RoundsRun(a, b, id, up, migs, rounds) && Ran(b.world, c.world, id, true) && b.clock <= c.clock
    requires Landed(b.world.store, c.world.store, id, up, migs, Reachable(b.world))
    requires grew ==> |b.world.store.hist| < |c.world.store.hist|
    ensures RoundsRun(a, c, id, up, migs, if grew then rounds + 1 else rounds)
  {
    RanTrans(a.world, b.world, c.world, id, true, true);
    RanExtends(b.world, c.world, id, true);
    if Reachable(a.world) {
      EvolvesGood(a.world, b.world);
    }
    LandedTrans(a.world.store, b.world.store, c.world.store, id, up, migs, Reachable(a.world), Reachable(b.world));
  }

  lemma AtTheEnd(a: Moment, b: Moment, c: Moment, oracle: nat -> Reply, id: nat, up: Ups, migs: seq<int>, rounds: nat,
                 at: int, m: Manifest, ok: bool)
    requires RoundsRun(a, b, id, up, migs, rounds) && RoundsRun(a, c, id, up, migs, rounds) && IncreasingVersions(migs)
    requires ok ==> UpToDate(b.world.store, c.world.store, at, m, migs)
    requires Reachable(b.world) && !ok ==> CannotMigrate(oracle, b, c, up, migs)
    ensures ok ==> UpToDate(a.world.store, c.world.store, at, m, migs)
    ensures ok && Reachable(a.world) && OnlyMigrator(a.world.store, c.world.store, id) ==>
              AllOfThem(a.world.store, c.world.store, id, migs)
    ensures !ok && Reachable(a.world) ==> CannotMigrate(oracle, a, c, up, migs)
  {
    if Reachable(a.world) {
      EvolvesGood(a.world, b.world);
      if !ok {
        CannotMigrateSince(oracle, a, b, c, up, migs);
      } else if OnlyMigrator(a.world.store, c.world.store, id) {
        SuccessMeans(a.world, c.world, id, up, migs, at, m);
      }
    }
  }
}
