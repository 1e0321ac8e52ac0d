/** What holds in every run of any number of clients, from an empty store. */
module Theorems {
  import opened Basics
  import opened Changesets
  import opened Transactions
  import opened Manifests
  import opened Protocol
  import opened Frames
  import opened Invariant
  import opened Steps
  import opened Swapping
  import opened Writes

  // ---------------------------------------------------------------- runs

  /** No action of the run rolls back entries that do not cancel out while leaving `localSeq` past
      them. */
  predicate SafeRun(w: World, acts: seq<Action>)
    decreases |acts|
  {
    acts != [] ==> Safe(w, acts[0]) && (Next(w, acts[0]).Some? ==> SafeRun(Next(w, acts[0]).value, acts[1..]))
  }

  /** The invariant holds in every state of the run. */
  ghost predicate GoodRun(w: World, acts: seq<Action>)
    decreases |acts|
  {
    Inv(w) && (acts != [] && Next(w, acts[0]).Some? ==> GoodRun(Next(w, acts[0]).value, acts[1..]))
  }

  /** No rollback of the run leaves a cache that is not what (snapshotKey, localSeq) say. */
  ghost predicate TruthfulRun(w: World, acts: seq<Action>)
    decreases |acts|
  {
    acts != [] && Next(w, acts[0]).Some? ==>
      var v := Next(w, acts[0]).value;
      && (RollsBack(w, acts[0]) ==> acts[0].c in v.clients && Truthful(v.store, v.clients[acts[0].c]))
      && TruthfulRun(v, acts[1..])
  }

  lemma InitialIsGood(w: World)
    requires Initial(w)
    ensures Inv(w)
  {
    forall c | c in w.clients
      ensures ClientInv(w.store, w.clients[c]) && OwnedOk(w.store, w.clients[c]) && ActiveOk(w, c)
    {
      assert InitialClient(w.clients[c]);
    }
    forall c, d | c in w.clients && d in w.clients && c != d
      ensures Owned(w.clients[c]).None? && Active(w.clients[c]).None?
    {
      assert InitialClient(w.clients[c]);
    }
  }

  lemma TruthfulSame(s: Store, x: Client, y: Client)
    requires x.conn == y.conn && x.snapshotKey == y.snapshotKey && x.localSeq == y.localSeq
    ensures Truthful(s, x) <==> Truthful(s, y)
  {
  }

  lemma CommitRollbackTruth(w: World, c: nat, cl: Client, u: Upd, r: Reply)
    requires Inv(w) && c in w.clients && w.clients[c] == cl && cl.op == CasReady(u)
    requires PutOutcome(w.store, CommitManifest(cl, u), PutCondition(cl.etag, false), r).Unknown?
    ensures var v := NextCommit(w, c, cl, r);
            c in v.clients
            && (Truthful(v.store, v.clients[c]) <==> SafeRollback(w.store, w.restoreSeqOnRollback, cl, u))
  {
    var v := NextCommit(w, c, cl, r);
    TruthfulSame(v.store, v.clients[c], Rollback(w.restoreSeqOnRollback, cl, u));
    if Lands(w.store, CommitManifest(cl, u), PutCondition(cl.etag, false), r) {
      assert OwnedOk(w.store, cl) && ActiveOk(w, c);
      CommitLanded(w.store, cl, u, w.restoreSeqOnRollback);
    } else {
      RollbackFaithful(w.store, w.restoreSeqOnRollback, cl, u);
    }
  }

  /** What the two rollbacks without a manifest write leave. */
  lemma RollbackShape(w: World, a: Action, v: World)
    requires Next(w, a) == Some(v) && RollsBack(w, a) && !a.Cas?
    ensures v.store == w.store && a.c in v.clients
    ensures var x, y := v.clients[a.c], Rollback(w.restoreSeqOnRollback, w.clients[a.c], w.clients[a.c].op.u);
            x.conn == y.conn && x.snapshotKey == y.snapshotKey && x.localSeq == y.localSeq
  {
  }

  lemma HasUpdate(s: Store, cl: Client)
    requires ClientInv(s, cl) && (cl.op.CasReady? || cl.op.CasLost? || cl.op.Rebasing?)
    ensures UpdateOk(s, cl, cl.op.u)
  {
  }

  /** A rollback leaves a cache that is what it claims to be exactly when it is safe. */
  lemma RollbackTruth(w: World, a: Action, v: World)
    requires Inv(w) && Next(w, a) == Some(v) && RollsBack(w, a)
    ensures a.c in v.clients && (Truthful(v.store, v.clients[a.c]) <==> Safe(w, a))
  {
    var cl := w.clients[a.c];
    assert ClientInv(w.store, cl);
    if a.Cas? {
      CommitRollbackTruth(w, a.c, cl, cl.op.u, a.reply);
    } else {
      HasUpdate(w.store, cl);
      RollbackShape(w, a, v);
      RollbackFaithful(w.store, w.restoreSeqOnRollback, cl, cl.op.u);
      TruthfulSame(w.store, v.clients[a.c], Rollback(w.restoreSeqOnRollback, cl, cl.op.u));
    }
  }

  /** Exactly when the code as written is correct.  A run keeps the invariant at every step if and
      only if no step of it is an unsafe rollback, and that is so if and only if no rollback of it
      leaves a cache that is not what it claims to be. */
  lemma {:induction false} GoodRunIffSafeRun(w: World, acts: seq<Action>)
    requires Inv(w) && Run(w, acts).Some?
    ensures GoodRun(w, acts) <==> SafeRun(w, acts)
    ensures TruthfulRun(w, acts) <==> SafeRun(w, acts)
    decreases |acts|
  {
    if acts != [] {
      var v := Next(w, acts[0]).value;
      StepIsGoodIffSafe(w, acts[0], v);
      if RollsBack(w, acts[0]) {
        RollbackTruth(w, acts[0], v);
      }
      if Inv(v) {
        GoodRunIffSafeRun(v, acts[1..]);
      }
    }
  }

  lemma {:induction false} GoodRunEndsGood(w: World, acts: seq<Action>, v: World)
    requires GoodRun(w, acts) && Run(w, acts) == Some(v)
    ensures Inv(v)
    decreases |acts|
  {
    if acts != [] {
      GoodRunEndsGood(Next(w, acts[0]).value, acts[1..], v);
    }
  }

  /** With `localSeq` restored on rollback every run is safe. */
  lemma {:induction false} RestoringRunsAreSafe(w: World, acts: seq<Action>)
    requires w.restoreSeqOnRollback
    ensures SafeRun(w, acts)
    decreases |acts|
  {
    if acts != [] && Next(w, acts[0]).Some? {
      NextIsFramed(w, acts[0], Next(w, acts[0]).value);
      RestoringRunsAreSafe(Next(w, acts[0]).value, acts[1..]);
    }
  }

  lemma ReachableIsGood(w: World, acts: seq<Action>, v: World)
    requires Initial(w) && Run(w, acts) == Some(v) && SafeRun(w, acts)
    ensures Inv(v)
  {
    InitialIsGood(w);
    GoodRunIffSafeRun(w, acts);
    GoodRunEndsGood(w, acts, v);
  }

  lemma ReachableStore(w: World, acts: seq<Action>, v: World)
    requires Initial(w) && Run(w, acts) == Some(v) && SafeRun(w, acts)
    ensures StoreInv(v.store)
  {
    ReachableIsGood(w, acts, v);
  }

  lemma ReachableClientInv(w: World, acts: seq<Action>, v: World, c: nat)
    requires Initial(w) && Run(w, acts) == Some(v) && SafeRun(w, acts) && c in v.clients
    ensures StoreInv(v.store) && ClientInv(v.store, v.clients[c])
  {
    ReachableIsGood(w, acts, v);
  }

  lemma ReachableClient(w: World, acts: seq<Action>, v: World, c: nat)
    requires Initial(w) && Run(w, acts) == Some(v) && SafeRun(w, acts) && c in v.clients
    ensures StoreInv(v.store) && ClientInv(v.store, v.clients[c]) && OwnedOk(v.store, v.clients[c]) && ActiveOk(v, c)
  {
    ReachableIsGood(w, acts, v);
  }

  // ---------------------------------------------------------------- refinement

  lemma {:induction false} ReplayIsFold(s: Store, i: nat)
    requires StoreInv(s) && i < |s.hist|
    ensures StateAt(s, i).Some? && StateAt(s, i) == Fold(s.events[..i + 1])
    decreases i
  {
    assert EventOk(s, i);
    assert s.events[..i + 1][..i] == s.events[..i];
    if i > 0 {
      ReplayIsFold(s, i - 1);
    }
  }

  /** Whole-system refinement.  In every state of every safe run, the stored manifest replays
      without conflict, and to exactly the fold, in commit order, of every committed transaction,
      push and migration; so does every manifest that was ever stored. */
  lemma WholeSystemRefinement(w: World, acts: seq<Action>, v: World)
    requires Initial(w) && Run(w, acts) == Some(v) && SafeRun(w, acts)
    ensures |v.store.events| == |v.store.hist|
    ensures forall i :: 0 <= i < |v.store.hist| ==>
              Replay(v.store.content, v.store.hist[i]).Some? &&
              Replay(v.store.content, v.store.hist[i]) == Fold(v.store.events[..i + 1])
    ensures v.store.hist != [] ==>
              Replay(v.store.content, v.store.hist[|v.store.hist| - 1]) == Fold(v.store.events)
  {
    ReachableStore(w, acts, v);
    var s := v.store;
    forall i | 0 <= i < |s.hist|
      ensures Replay(s.content, s.hist[i]).Some? && Replay(s.content, s.hist[i]) == Fold(s.events[..i + 1])
    {
      ReplayIsFold(s, i);
      assert StateAt(s, i) == Replay(s.content, s.hist[i]);
    }
    assert s.events[..|s.events|] == s.events;
  }

  /** Step discipline, history prefixes, monotone counters and no ABA, over whole runs. */
  lemma HistoryIsDisciplined(w: World, acts: seq<Action>, v: World, i: nat, j: nat)
    requires Initial(w) && Run(w, acts) == Some(v) && SafeRun(w, acts) && i <= j < |v.store.hist|
    ensures Disciplined(v.store.hist)
    ensures v.store.hist[i].seqNo <= v.store.hist[j].seqNo && v.store.hist[i].schema <= v.store.hist[j].schema
    ensures v.store.hist[i].snapshot.key == v.store.hist[j].snapshot.key ==>
              v.store.hist[i].schema == v.store.hist[j].schema && v.store.hist[i].log <= v.store.hist[j].log
    ensures Md5(v.store.hist[i]) == Md5(v.store.hist[j]) ==> i == j
  {
    ReachableStore(w, acts, v);
    var h := v.store.hist;
    Monotone(h, i, j);
    NoAba(h, i, j);
    if h[i].snapshot.key == h[j].snapshot.key {
      SameEpochIsPrefix(h, i, j);
    }
  }

  /** Every conditional write of the protocol is truly conditional, and when it goes through, the
      manifest it replaces is the very one its writer loaded. */
  lemma CasReplacesWhatWasLoaded(w: World, acts: seq<Action>, v: World, c: nat)
    requires Initial(w) && Run(w, acts) == Some(v) && SafeRun(w, acts) && c in v.clients
    requires WritesManifest(v.clients[c].op)
    ensures CasETag(v.clients[c]) != NoETag
    ensures Meets(v.store, PutCondition(CasETag(v.clients[c]), false)) <==> LoadedAt(v.clients[c]) == |v.store.hist| - 1
  {
    ReachableClientInv(w, acts, v, c);
    CasIffLatest(v.store, v.clients[c]);
  }

  lemma CasIffLatest(s: Store, cl: Client)
    requires StoreInv(s) && ClientInv(s, cl) && WritesManifest(cl.op)
    ensures CasETag(cl) != NoETag
    ensures Meets(s, PutCondition(CasETag(cl), false)) <==> LoadedAt(cl) == |s.hist| - 1
  {
    CasETagIsLoaded(s, cl);
    NoAba(s.hist, LoadedAt(cl), |s.hist| - 1);
  }

  // ---------------------------------------------------------------- clients

  /** Rebase invariant.  Whenever an update is about to write the manifest, after any number of
      clean rebases, its changeset applies to the replay of the manifest it holds, and the local
      database (base, ours, theirs) equals that result (base, theirs, ours). */
  lemma RebaseInvariant(w: World, acts: seq<Action>, v: World, c: nat)
    requires Initial(w) && Run(w, acts) == Some(v) && SafeRun(w, acts) && c in v.clients && v.clients[c].op.CasReady?
    ensures var cl := v.clients[c];
            var u := cl.op.u;
            && Replay(v.store.content, cl.m).Some?
            && Apply(Replay(v.store.content, cl.m).value, u.cs) == cl.conn && cl.conn.Some?
            && SameShape(u.save, u.after) && u.cs == Diff(u.save, u.after)
  {
    ReachableClient(w, acts, v, c);
    var cl := v.clients[c];
    ReplayRecaptures(cl.op.u.save, cl.op.u.cs);
  }

  /** Whatever a client reads, captures or migrates, it does on the replay of the manifest it
      loaded: fn inside Update, a compaction's snapshot, `Up` of a migration (never on a database a
      losing `Up` already touched), and a sweep's starting point. */
  lemma OperationsSeeReplay(w: World, acts: seq<Action>, v: World, c: nat)
    requires Initial(w) && Run(w, acts) == Some(v) && SafeRun(w, acts) && c in v.clients
    requires var op := v.clients[c].op;
             op.Capturing? || op.Compacting? || op.CompactReady? || op.Migrating? || op.Sweeping?
    ensures var cl := v.clients[c];
            cl.conn.Some? && cl.conn == Replay(v.store.content, cl.m) && cl.m in v.store.hist
  {
    ReachableClient(w, acts, v, c);
  }

  /** Cache agreement at run level: a completed sync (View, Open, and the start of everything else)
      leaves the replay of the loaded manifest; a failed one leaves nothing or a database that is
      exactly what (snapshotKey, localSeq) say. */
  lemma SyncAgreesInRuns(w: World, acts: seq<Action>, v: World, c: nat, outcome: SyncOutcome, x: World)
    requires Initial(w) && Run(w, acts) == Some(v) && SafeRun(w, acts)
    requires Next(v, Sync(c, outcome)) == Some(x)
    ensures outcome.Completed? ==> x.clients[c].conn == Replay(x.store.content, x.clients[c].m)
    ensures Faithful(x.store, x.clients[c])
  {
    ReachableClient(w, acts, v, c);
    var cl := v.clients[c];
    SyncAgrees(v.store, cl, outcome);
  }

  // ---------------------------------------------------------------- commits

  /** The commit at position `j` left what running `fn` on the state right before it leaves. */
  ghost predicate IsSerial(s: Store, j: nat, fn: Transaction) {
    0 < j < |s.hist| && StateAt(s, j - 1).Some? && StateAt(s, j) == fn(StateAt(s, j - 1).value)
  }

  lemma CommitIsSerial(s: Store, j: nat, fn: Transaction)
    requires StoreInv(s) && j < |s.events| && s.events[j].Txn? && fn(s.events[j].before) == Some(s.events[j].after)
    ensures 0 < j < |s.hist| && StateAt(s, j - 1).Some?
    ensures var ev, d := s.events[j], StateAt(s, j - 1).value;
            && (IsSerial(s, j, fn) <==> fn(d).Some? && Diff(d, fn(d).value) == ev.cs)
            && (ev.base == j - 1 || WriteLocalAt(fn, ev.before) ==> IsSerial(s, j, fn))
  {
    assert EventOk(s, j) && EventOk(s, j - 1);
    var ev, d := s.events[j], StateAt(s, j - 1).value;
    RerunMatches(fn, ev.before, ev.after, ev.cs, d);
  }

  lemma RerunMatches(fn: Transaction, before: Database, after: Database, cs: Changeset, d: Database)
    requires Minimal(cs) && Apply(before, cs) == Some(after) && fn(before) == Some(after) && Apply(d, cs).Some?
    ensures Apply(d, cs) == fn(d) <==> fn(d).Some? && Diff(d, fn(d).value) == cs
    ensures d == before || WriteLocalAt(fn, before) ==> Apply(d, cs) == fn(d)
  {
    ReplayIsRerunAt(fn, cs, d);
    ReplayRecaptures(before, cs);
    ReplayIsRerun(fn, before);
  }

  /** Conditional serial equivalence.  Take a commit of `fn`.  It equals running `fn` on the
      immediately preceding state exactly when `fn` would record the same changeset there.  That is
      so without any condition if `fn` was captured on that state, and after any number of clean
      rebases if `fn` depended, on the state it was captured on, only on the cells it wrote. */
  lemma SerialEquivalence(w: World, acts: seq<Action>, v: World, j: nat, fn: Transaction)
    requires Initial(w) && Run(w, acts) == Some(v) && SafeRun(w, acts)
    requires j < |v.store.events| && v.store.events[j].Txn?
    requires fn(v.store.events[j].before) == Some(v.store.events[j].after)
    ensures 0 < j < |v.store.hist| && StateAt(v.store, j - 1).Some?
    ensures var ev, d := v.store.events[j], StateAt(v.store, j - 1).value;
            && (IsSerial(v.store, j, fn) <==> fn(d).Some? && Diff(d, fn(d).value) == ev.cs)
            && (ev.base == j - 1 || WriteLocalAt(fn, ev.before) ==> IsSerial(v.store, j, fn))
  {
    ReachableStore(w, acts, v);
    CommitIsSerial(v.store, j, fn);
  }

  /** At-most-once commit, even when a failed Put hid a success: a call commits at most once;
      exactly once if it reported success; never if it reported a conflict or nothing to do; and not
      yet while it is still running. */
  lemma AtMostOnce(w: World, acts: seq<Action>, v: World, call: nat)
    requires Initial(w) && Run(w, acts) == Some(v) && SafeRun(w, acts)
    ensures forall i, j :: CommittedBy(v.store, call, i) && CommittedBy(v.store, call, j) ==> i == j
    ensures call in v.results && v.results[call].Committed? ==> exists i :: CommittedBy(v.store, call, i)
    ensures call in v.results && (v.results[call].Conflict? || v.results[call].NothingToCommit?) ==>
              NeverCommitted(v.store, call)
    ensures forall c :: c in v.clients && Active(v.clients[c]) == Some(call) ==>
              call !in v.results && NeverCommitted(v.store, call)
  {
    ReachableIsGood(w, acts, v);
    assert UniqueCommits(v.store.events);
    if call in v.results {
      assert ResultOk(v, call);
    }
    forall c | c in v.clients && Active(v.clients[c]) == Some(call)
      ensures call !in v.results && NeverCommitted(v.store, call)
    {
      assert ActiveOk(v, c);
    }
  }

  /** No two commits ever append the same blob. */
  lemma EachBlobCommittedOnce(w: World, acts: seq<Action>, v: World, i: nat, j: nat)
    requires Initial(w) && Run(w, acts) == Some(v) && SafeRun(w, acts)
    requires i < j < |v.store.events| && v.store.events[i].Txn? && v.store.events[j].Txn?
    ensures v.store.events[i].key != v.store.events[j].key
  {
    ReachableStore(w, acts, v);
  }

  /** Compaction is a stutter step: same Seq, same schema version, same contents. */
  lemma CompactionStutters(w: World, acts: seq<Action>, v: World, j: nat)
    requires Initial(w) && Run(w, acts) == Some(v) && SafeRun(w, acts)
    requires j < |v.store.events| && v.store.events[j].Compacted?
    ensures 0 < j < |v.store.hist|
    ensures StateAt(v.store, j) == StateAt(v.store, j - 1)
    ensures v.store.hist[j].seqNo == v.store.hist[j - 1].seqNo && v.store.hist[j].schema == v.store.hist[j - 1].schema
  {
    ReachableStore(w, acts, v);
    assert EventOk(v.store, j);
    assert Linked(v.store.hist, j);
  }

  lemma MigrationVersionsDiffer(s: Store, i: int, j: int)
    requires StoreInv(s) && 0 <= i < j < |s.events| && s.events[i].Migrated? && s.events[j].Migrated?
    ensures s.events[i].version < s.events[j].version
  {
    assert EventOk(s, i) && EventOk(s, j);
    Monotone(s.hist, i, j - 1);
  }

  /** Migrations land at most once per version, on the state `Up` saw. */
  lemma MigrationReplacesWhatItSaw(w: World, acts: seq<Action>, v: World, j: nat)
    requires Initial(w) && Run(w, acts) == Some(v) && SafeRun(w, acts)
    requires j < |v.store.events| && v.store.events[j].Migrated?
    ensures var ev := v.store.events[j];
            && 0 < j < |v.store.hist|
            && StateAt(v.store, j - 1) == Some(ev.before) && StateAt(v.store, j) == Some(ev.after)
            && v.store.hist[j - 1].schema < ev.version == v.store.hist[j].schema
    ensures forall i :: 0 <= i < j && v.store.events[i].Migrated? ==>
              v.store.events[i].version < v.store.events[j].version
  {
    ReachableStore(w, acts, v);
    assert EventOk(v.store, j) && EventOk(v.store, j - 1);
    forall i | 0 <= i < j && v.store.events[i].Migrated? ensures v.store.events[i].version < v.store.events[j].version {
      MigrationVersionsDiffer(v.store, i, j);
    }
  }

  lemma {:induction false} SchemaSteps(s: Store, p: nat, j: nat)
    requires StoreInv(s) && p <= j < |s.hist|
    ensures s.hist[p].schema == s.hist[j].schema <==> forall k :: p < k <= j ==> !s.events[k].Migrated?
    decreases j
  {
    if p < j {
      SchemaSteps(s, p, j - 1);
      Monotone(s.hist, p, j - 1);
      assert EventOk(s, j) && Linked(s.hist, j);
    }
  }

  /** The schema version moves at migrations and nowhere else: it is the same at two positions of a
      run exactly when no migration landed between them. */
  lemma SchemaMovesByMigrationOnly(w: World, acts: seq<Action>, v: World, p: nat, j: nat)
    requires Initial(w) && Run(w, acts) == Some(v) && SafeRun(w, acts) && p <= j < |v.store.hist|
    ensures |v.store.events| == |v.store.hist|
    ensures v.store.hist[j].schema == v.store.hist[p].schema <==> forall k :: p < k <= j ==>
              !v.store.events[k].Migrated?
  {
    ReachableStore(w, acts, v);
    SchemaSteps(v.store, p, j);
  }

  lemma {:induction false} CompactionsKeepState(s: Store, p: nat, j: nat)
    requires StoreInv(s) && p <= j < |s.hist| && forall k :: p < k <= j ==> s.events[k].Compacted?
    ensures StateAt(s, j) == StateAt(s, p)
    decreases j
  {
    if p < j {
      assert EventOk(s, j);
      CompactionsKeepState(s, p, j - 1);
    }
  }

  lemma PushGuardStore(s: Store, p: nat, j: nat)
    requires StoreInv(s) && p < j < |s.hist| && s.events[j].Pushed? && s.events[j].expected == s.hist[p].seqNo
    ensures forall k :: p < k < j ==> !s.events[k].Txn?
    ensures s.hist[j].seqNo == s.hist[p].seqNo
    ensures p == j - 1 <==> s.hist[j - 1].snapshot.key == s.hist[p].snapshot.key
    ensures (forall k :: p < k < j ==> s.events[k].Compacted?) ==> StateAt(s, j - 1) == StateAt(s, p)
  {
    assert ValidManifest(s.hist[p]) && EventOk(s, j) && Linked(s.hist, j);
    EqualSeqMeansNoAppend(s.hist, p, j - 1);
    forall k | p < k < j ensures !s.events[k].Txn? {
      assert EventOk(s, k) && Swaps(s.hist[k - 1], s.hist[k]);
    }
    SeqAndSnapshotPinPosition(s.hist, p, j - 1);
    if forall k :: p < k < j ==> s.events[k].Compacted? {
      CompactionsKeepState(s, p, j - 1);
    }
  }

  /** Push guard.  A Pull loaded history position `p`; a Push guarded by the Seq it returned landed
      at `j`.  Then no changeset was committed in between, so none was discarded.  The guard sees
      changesets only: nothing at all happened in between exactly when the snapshot key is also
      still the pulled one; and if only compactions happened, what was replaced is what was pulled. */
  lemma PushGuard(w: World, acts: seq<Action>, v: World, p: nat, j: nat)
    requires Initial(w) && Run(w, acts) == Some(v) && SafeRun(w, acts)
    requires p < j < |v.store.hist| && j < |v.store.events| && v.store.events[j].Pushed?
    requires v.store.events[j].expected == v.store.hist[p].seqNo
    ensures forall k :: p < k < j ==> !v.store.events[k].Txn?
    ensures v.store.hist[j].seqNo == v.store.hist[p].seqNo
    ensures p == j - 1 <==> v.store.hist[j - 1].snapshot.key == v.store.hist[p].snapshot.key
    ensures (forall k :: p < k < j ==> v.store.events[k].Compacted?) ==>
              StateAt(v.store, j - 1) == StateAt(v.store, p)
  {
    ReachableStore(w, acts, v);
    PushGuardStore(v.store, p, j);
  }

  /** Exactly one creation, at the start of history, however many bootstraps raced. */
  lemma CreatedOnce(w: World, acts: seq<Action>, v: World, i: nat)
    requires Initial(w) && Run(w, acts) == Some(v) && SafeRun(w, acts) && i < |v.store.events|
    ensures v.store.events[i].Created? <==> i == 0
  {
    ReachableStore(w, acts, v);
    assert EventOk(v.store, i);
  }

  // ---------------------------------------------------------------- dead blobs

  /** A blob that was written, is named by no manifest, and belongs to no operation in flight. */
  ghost predicate Dead(w: World, k: Key) {
    && k in w.store.content && k != InitKey && Unreferenced(w.store, k)
    && forall c :: c in w.clients ==> Owned(w.clients[c]) != Some(k)
  }

  lemma DeadStaysDead(w: World, a: Action, v: World, k: Key)
    requires Inv(w) && Next(w, a) == Some(v) && Dead(w, k)
    ensures Dead(v, k)
  {
    NextIsFramed(w, a, v);
    if a.Cas? {
      var cl := w.clients[a.c];
      assert ClientInv(w.store, cl);
      CasStore(w, a.c, cl, a.reply, v);
      ManifestNames(w.store, v.store, cl, k);
    }
  }

  lemma {:induction false} DeadForever(w: World, acts: seq<Action>, v: World, k: Key)
    requires Inv(w) && Run(w, acts) == Some(v) && SafeRun(w, acts) && Dead(w, k)
    ensures Dead(v, k)
    decreases |acts|
  {
    if acts != [] {
      var x := Next(w, acts[0]).value;
      StepIsGoodIffSafe(w, acts[0], x);
      DeadStaysDead(w, acts[0], x, k);
      DeadForever(x, acts[1..], v, k);
    }
  }

  lemma DeletedOrphanIsDead(w: World, c: nat, cl: Client, v: World)
    requires OwnedInv(w) && c in w.clients && w.clients[c] == cl && NextDeleteOrphan(w, c, cl) == Some(v)
    ensures Unreferenced(w.store, cl.op.orphan.value) && Dead(v, cl.op.orphan.value)
  {
    assert OwnedOk(w.store, cl);
  }

  /** Orphan deletes are safe: the blob `doUpdate` deletes is named by no past or present manifest,
      and by no manifest of any continuation of the run. */
  lemma OrphanDeletesAreSafe(w: World, acts: seq<Action>, v: World, c: nat, x: World, later: seq<Action>, y: World)
    requires Initial(w) && Run(w, acts) == Some(v) && SafeRun(w, acts)
    requires Next(v, DeleteOrphan(c)) == Some(x) && Run(x, later) == Some(y) && SafeRun(x, later)
    ensures var k := v.clients[c].op.orphan.value;
            Unreferenced(v.store, k) && Unreferenced(y.store, k)
  {
    ReachableIsGood(w, acts, v);
    StepIsGoodIffSafe(v, DeleteOrphan(c), x);
    DeletedOrphanIsDead(v, c, v.clients[c], x);
    DeadForever(x, later, y, v.clients[c].op.orphan.value);
  }
}
