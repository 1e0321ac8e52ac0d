/** The filesystem store as a transition system: directories and files, any number of processes, one
    filesystem call per step.  Puts stage a temporary file without the lock, then check and rename
    under it; deletes remove and prune under it. */
module FsStore {
  import opened Basics
  import opened Download
  import opened MemStore

  /** One path component.  Key validation keeps the temporary names (and the lock file's) out of
      keys. */
  datatype Comp = Name(s: string) | Temp(n: nat)
  type Path = seq<Comp>

  predicate IsKey(k: Path) {
    k != [] && forall i :: 0 <= i < |k| ==> k[i].Name?
  }

  function Parent(p: Path): Path
    requires p != []
  {
    p[..|p| - 1]
  }

  predicate IsTempIn(dir: Path, t: Path) {
    t != [] && t[|t| - 1].Temp? && Parent(t) == dir
  }

  // ---------------------------------------------------------------- the flat map

  type Blobs = map<Path, Bytes>

  predicate Holds(blobs: Blobs, key: Path, cond: Condition) {
    && (cond.ifNoneMatch ==> key !in blobs)
    && (cond.ifMatch != NoTag ==> key in blobs && HashOf(blobs[key]) == cond.ifMatch)
  }

  /** What an operation did, as an operation on a flat map. */
  datatype FlatOp =
    | PutDone(key: Path, body: Bytes, cond: Condition)
    | PutRefused(key: Path, cond: Condition)
    | DeleteDone(key: Path)

  function FlatStep(blobs: Blobs, op: FlatOp): Option<Blobs> {
    match op
    case PutDone(key, body, cond) => if Holds(blobs, key, cond) then Some(blobs[key := body]) else None
    case PutRefused(key, cond) => if Holds(blobs, key, cond) then None else Some(blobs)
    case DeleteDone(key) => Some(blobs - {key})
  }

  /** The flat map after a whole log of operations; None if some answer was wrong. */
  function FlatRun(log: seq<FlatOp>): Option<Blobs> {
    if log == [] then Some(map[])
    else match FlatRun(log[..|log| - 1])
      case None => None
      case Some(b) => FlatStep(b, log[|log| - 1])
  }

  // ---------------------------------------------------------------- processes

  datatype PutOp = PutOp(key: Path, body: Bytes, cond: Condition)

  datatype Proc =
    | Idle
    | Mkdir(op: PutOp, level: nat, tries: nat)
    | Open(op: PutOp, tries: nat)
    | Staged(op: PutOp, tmp: Path)
    | Locked(op: PutOp, tmp: Path)
    | Checked(op: PutOp, tmp: Path)
    | Cleanup(tmp: Path)
    | DeleteWait(key: Path)
    | DeleteLocked(key: Path)
    | Prune(dir: Path)

  datatype State = State(dirs: set<Path>, files: map<Path, Bytes>, procs: map<nat, Proc>, lock: Option<nat>,
      log: seq<FlatOp>)

  datatype Action =
    | BeginPut(p: nat, op: PutOp)
    | MkdirNext(p: nat)
    | OpenTemp(p: nat, n: nat)
    | TakeLock(p: nat)
    | Check(p: nat)
    | Rename(p: nat)
    | RemoveTemp(p: nat)
    | BeginDelete(p: nat, key: Path)
    | RemoveBlob(p: nat)
    | PruneOne(p: nat)
    | Stop(p: nat)

  const MAX_TRIES := 10

  function Visible(files: map<Path, Bytes>): Blobs {
    map k | k in files && IsKey(k) :: files[k]
  }

  function Set(s: State, p: nat, pr: Proc): State {
    s.(procs := s.procs[p := pr])
  }

  function Release(s: State, p: nat, pr: Proc): State {
    s.(procs := s.procs[p := pr], lock := None)
  }

  /** One call of MkdirAll's loop: make the next directory of the chain, or fail. */
  function StepMkdir(s: State, p: nat, pr: Proc): Option<State>
    requires pr.Mkdir? && pr.level < |pr.op.key|
  {
    var Mkdir(op, level, tries) := pr;
    var d := op.key[..level];
    if d == [] || d in s.dirs then
      Some(Set(s, p, if level + 1 == |op.key| then Open(op, tries) else Mkdir(op, level + 1, tries)))
    else if d in s.files || Parent(d) !in s.dirs then Some(Set(s, p, Idle))
    else Some(Set(s.(dirs := s.dirs + {d}), p, Mkdir(op, level, tries)))
  }

  /** `createTemp`: an exclusive create; a pruned directory is made again, ten tries in all. */
  function StepOpen(s: State, p: nat, pr: Proc, n: nat): Option<State>
    requires pr.Open? && pr.op.key != []
  {
    var Open(op, tries) := pr;
    var dir := Parent(op.key);
    var t := dir + [Temp(n)];
    if tries >= MAX_TRIES then Some(Set(s, p, Idle))
    else if dir !in s.dirs then Some(Set(s, p, if dir == [] then Idle else Mkdir(op, 0, tries + 1)))
    else if t in s.files || t in s.dirs then Some(Set(s, p, Open(op, tries + 1)))
    else Some(Set(s.(files := s.files[t := op.body]), p, Staged(op, t)))
  }

  /** Under the lock: look at the target and evaluate the precondition. */
  function StepCheck(s: State, p: nat, pr: Proc): Option<State>
    requires pr.Locked?
  {
    var Locked(op, tmp) := pr;
    if !Holds(Visible(s.files), op.key, op.cond) then
      Some(Release(s, p, Cleanup(tmp)).(log := s.log + [PutRefused(op.key, op.cond)]))
    else if op.key in s.dirs then Some(Release(s, p, Cleanup(tmp)))
    else Some(Set(s, p, Checked(op, tmp)))
  }

  /** The atomic rename over the target. */
  function StepRename(s: State, p: nat, pr: Proc): Option<State>
    requires pr.Checked? && pr.op.key != []
  {
    var Checked(op, tmp) := pr;
    if tmp !in s.files || op.key in s.dirs || Parent(op.key) !in s.dirs then Some(Release(s, p, Cleanup(tmp)))
    else
      Some(Release(s.(files := (s.files - {tmp})[op.key := s.files[tmp]]), p, Idle)
           .(log := s.log + [PutDone(op.key, s.files[tmp], op.cond)]))
  }

  function StepRemoveBlob(s: State, p: nat, pr: Proc): Option<State>
    requires pr.DeleteLocked? && pr.key != []
  {
    var s2 := s.(log := s.log + [DeleteDone(pr.key)]);
    if pr.key in s.files then Some(Set(s2.(files := s.files - {pr.key}), p, Prune(Parent(pr.key))))
    else Some(Release(s2, p, Idle))
  }

  predicate Empty(s: State, d: Path) {
    (forall f :: f in s.files && f != [] ==> Parent(f) != d) && (forall e :: e in s.dirs && e != [] ==> Parent(e) != d)
  }

  /** One turn of `pruneEmptyDirs`: remove the directory if it is empty, and go up. */
  function StepPrune(s: State, p: nat, pr: Proc): Option<State>
    requires pr.Prune?
  {
    if pr.dir != [] && pr.dir in s.dirs && Empty(s, pr.dir) then
      Some(Set(s.(dirs := s.dirs - {pr.dir}), p, Prune(Parent(pr.dir))))
    else Some(Release(s, p, Idle))
  }

  predicate HoldsLock(pr: Proc) {
    pr.Locked? || pr.Checked? || pr.DeleteLocked? || pr.Prune?
  }

  /** Errors, cancellation and crashes, at any point: the lock is freed, a temporary file may be left
      behind. */
  function StepStop(s: State, p: nat, pr: Proc): State {
    var s2 := if HoldsLock(pr) then s.(lock := None) else s;
    Set(s2, p, if pr.Staged? || pr.Locked? || pr.Checked? then Cleanup(pr.tmp) else Idle)
  }

  function Next(s: State, a: Action): Option<State> {
    if a.p !in s.procs then None
    else
      var p, pr := a.p, s.procs[a.p];
      match a
      case BeginPut(_, op) =>
        if pr.Idle? && IsKey(op.key) && !(op.cond.ifMatch != NoTag && op.cond.ifNoneMatch) then
          Some(Set(s, p, Mkdir(op, 0, 0)))
        else None
      case MkdirNext(_) => if pr.Mkdir? && pr.level < |pr.op.key| then StepMkdir(s, p, pr) else None
      case OpenTemp(_, n) => if pr.Open? && pr.op.key != [] then StepOpen(s, p, pr, n) else None
      case TakeLock(_) =>
        if s.lock.Some? then None
        else if pr.Staged? then Some(Set(s, p, Locked(pr.op, pr.tmp)).(lock := Some(p)))
        else if pr.DeleteWait? then Some(Set(s, p, DeleteLocked(pr.key)).(lock := Some(p)))
        else None
      case Check(_) => if pr.Locked? then StepCheck(s, p, pr) else None
      case Rename(_) => if pr.Checked? && pr.op.key != [] then StepRename(s, p, pr) else None
      case RemoveTemp(_) => if pr.Cleanup? then Some(Set(s.(files := s.files - {pr.tmp}), p, Idle)) else None
      case BeginDelete(_, key) => if pr.Idle? && IsKey(key) then Some(Set(s, p, DeleteWait(key))) else None
      case RemoveBlob(_) => if pr.DeleteLocked? && pr.key != [] then StepRemoveBlob(s, p, pr) else None
      case PruneOne(_) => if pr.Prune? then StepPrune(s, p, pr) else None
      case Stop(_) => Some(StepStop(s, p, pr))
  }

  function Run(s: State, acts: seq<Action>): Option<State>
    decreases |acts|
  {
    if acts == [] then Some(s)
    else match Next(s, acts[0])
      case None => None
      case Some(x) => Run(x, acts[1..])
  }

  /** An empty store directory. */
  predicate Initial(s: State) {
    && s.dirs == {[]} && s.files == map[] && s.lock.None? && s.log == []
    && forall p :: p in s.procs ==> s.procs[p].Idle?
  }

  // ---------------------------------------------------------------- the invariant

  /** Every directory and file hangs from the root, and no path is both. */
  ghost predicate Tree(s: State) {
    && [] in s.dirs
    && (forall d :: d in s.dirs && d != [] ==> Parent(d) in s.dirs)
    && (forall f :: f in s.files ==> f != [] && Parent(f) in s.dirs && f !in s.dirs)
  }

  predicate StagedOk(s: State, op: PutOp, tmp: Path) {
    IsKey(op.key) && IsTempIn(Parent(op.key), tmp) && tmp in s.files && s.files[tmp] == op.body
  }

  predicate ProcOk(s: State, pr: Proc) {
    match pr
    case Idle => true
    case Mkdir(op, level, _) => IsKey(op.key) && level < |op.key|
    case Open(op, _) => IsKey(op.key)
    case Staged(op, tmp) => StagedOk(s, op, tmp)
    case Locked(op, tmp) => StagedOk(s, op, tmp)
    case Checked(op, tmp) => StagedOk(s, op, tmp) && Holds(Visible(s.files), op.key, op.cond)
    case Cleanup(tmp) => tmp != [] && tmp[|tmp| - 1].Temp? && tmp in s.files
    case DeleteWait(key) => IsKey(key)
    case DeleteLocked(key) => IsKey(key)
    case Prune(_) => true
  }

  function TempOf(pr: Proc): Option<Path> {
    if pr.Staged? || pr.Locked? || pr.Checked? || pr.Cleanup? then Some(pr.tmp) else None
  }

  ghost predicate Inv(s: State) {
    && Tree(s)
    && (forall p :: p in s.procs ==> ProcOk(s, s.procs[p]))
    && (forall p :: p in s.procs ==> (HoldsLock(s.procs[p]) <==> s.lock == Some(p)))
    && (forall p, q :: p in s.procs && q in s.procs && p != q && TempOf(s.procs[p]).Some? ==>
        TempOf(s.procs[p]) != TempOf(s.procs[q]))
    && FlatRun(s.log) == Some(Visible(s.files))
  }

  lemma FlatSnoc(log: seq<FlatOp>, op: FlatOp)
    requires FlatRun(log).Some?
    ensures FlatRun(log + [op]) == FlatStep(FlatRun(log).value, op)
  {
    assert (log + [op])[..|log|] == log;
  }

  /** Who holds the lock, before and after a step of `p`. */
  lemma LockKept(s: State, t: State, p: nat)
    requires p in s.procs && p in t.procs && t.procs == s.procs[p := t.procs[p]]
    requires forall q :: q in s.procs ==> (HoldsLock(s.procs[q]) <==> s.lock == Some(q))
    requires t.lock == s.lock || (s.lock.None? && t.lock == Some(p)) || (s.lock == Some(p) && t.lock.None?)
    requires HoldsLock(t.procs[p]) <==> t.lock == Some(p)
    ensures forall q :: q in t.procs ==> (HoldsLock(t.procs[q]) <==> t.lock == Some(q))
  {
    forall q | q in t.procs ensures HoldsLock(t.procs[q]) <==> t.lock == Some(q) {
      assert HoldsLock(s.procs[q]) <==> s.lock == Some(q);
    }
  }

  lemma TempsKept(s: State, t: State, p: nat)
    requires p in s.procs && p in t.procs && t.procs == s.procs[p := t.procs[p]]
    requires forall q :: q in s.procs ==> ProcOk(s, s.procs[q])
    requires forall q, r :: q in s.procs && r in s.procs && q != r && TempOf(s.procs[q]).Some? ==>
               TempOf(s.procs[q]) != TempOf(s.procs[r])
    requires TempOf(t.procs[p]).None? || TempOf(t.procs[p]) == TempOf(s.procs[p])
               || TempOf(t.procs[p]).value !in s.files
    ensures forall q, r :: q in t.procs && r in t.procs && q != r && TempOf(t.procs[q]).Some? ==>
              TempOf(t.procs[q]) != TempOf(t.procs[r])
  {
    forall q, r | q in t.procs && r in t.procs && q != r && TempOf(t.procs[q]).Some?
      ensures TempOf(t.procs[q]) != TempOf(t.procs[r])
    {
      assert ProcOk(s, s.procs[q]) && ProcOk(s, s.procs[r]);
    }
  }

  /** What one process knows survives a step that leaves its temporary file and the visible blobs
      alone. */
  lemma ProcKept(s: State, t: State, pr: Proc)
    requires ProcOk(s, pr) && Visible(t.files) == Visible(s.files)
    requires TempOf(pr).Some? && TempOf(pr).value in s.files ==>
               TempOf(pr).value in t.files && t.files[TempOf(pr).value] == s.files[TempOf(pr).value]
    ensures ProcOk(t, pr)
  {
  }

  /** A step of `p` that leaves the visible blobs alone keeps what the others know. */
  lemma QuietStep(s: State, t: State, p: nat)
    requires Inv(s) && p in s.procs && p in t.procs && Tree(t)
    requires t.procs == s.procs[p := t.procs[p]]
    requires Visible(t.files) == Visible(s.files) && FlatRun(t.log) == FlatRun(s.log)
    requires forall f :: f in s.files && TempOf(s.procs[p]) != Some(f) ==> f in t.files && t.files[f] == s.files[f]
    requires ProcOk(t, t.procs[p])
    requires t.lock == s.lock || (s.lock.None? && t.lock == Some(p)) || (s.lock == Some(p) && t.lock.None?)
    requires HoldsLock(t.procs[p]) <==> t.lock == Some(p)
    requires TempOf(t.procs[p]).None? || TempOf(t.procs[p]) == TempOf(s.procs[p])
               || TempOf(t.procs[p]).value !in s.files
    ensures Inv(t)
  {
    forall q | q in t.procs ensures ProcOk(t, t.procs[q]) {
      if q != p {
        assert ProcOk(s, s.procs[q]);
        ProcKept(s, t, s.procs[q]);
      }
    }
    LockKept(s, t, p);
    TempsKept(s, t, p);
  }

  /** A step of the lock holder that changes the visible blobs. */
  lemma LockedStep(s: State, t: State, p: nat)
    requires Inv(s) && p in s.procs && p in t.procs && Tree(t) && s.lock == Some(p)
    requires t.procs == s.procs[p := t.procs[p]]
    requires FlatRun(t.log) == Some(Visible(t.files))
    requires forall f :: f in s.files && !IsKey(f) && TempOf(s.procs[p]) != Some(f) ==>
               f in t.files && t.files[f] == s.files[f]
    requires ProcOk(t, t.procs[p]) && TempOf(t.procs[p]).None?
    requires t.lock == s.lock || t.lock.None?
    requires HoldsLock(t.procs[p]) <==> t.lock == Some(p)
    ensures Inv(t)
  {
    forall q | q in t.procs ensures ProcOk(t, t.procs[q]) {
      assert ProcOk(s, s.procs[q]);
      assert HoldsLock(s.procs[q]) <==> s.lock == Some(q);
    }
    LockKept(s, t, p);
    TempsKept(s, t, p);
  }

  // ---------------------------------------------------------------- every step keeps it

  lemma TempsAreInvisible(files: map<Path, Bytes>, t: Path, b: Bytes)
    requires t != [] && t[|t| - 1].Temp?
    ensures Visible(files - {t}) == Visible(files) && Visible(files[t := b]) == Visible(files)
  {
  }

  lemma TreeGrows(s: State, d: Path, f: Path, b: Bytes)
    requires Tree(s)
    ensures d != [] && d !in s.files && Parent(d) in s.dirs ==> Tree(s.(dirs := s.dirs + {d}))
    ensures f != [] && f !in s.dirs && Parent(f) in s.dirs ==> Tree(s.(files := s.files[f := b]))
  {
  }

  lemma RemoveTempKeeps(s: State, p: nat, pr: Proc)
    requires Inv(s) && p in s.procs && s.procs[p] == pr && pr.Cleanup?
    ensures Inv(Set(s.(files := s.files - {pr.tmp}), p, Idle))
  {
    assert ProcOk(s, pr);
    assert !HoldsLock(pr) && s.lock != Some(p);
    TempsAreInvisible(s.files, pr.tmp, []);
    QuietStep(s, Set(s.(files := s.files - {pr.tmp}), p, Idle), p);
  }

  lemma OpenKeeps(s: State, p: nat, pr: Proc, n: nat, t: State)
    requires Inv(s) && p in s.procs && s.procs[p] == pr && pr.Open? && pr.op.key != []
               && StepOpen(s, p, pr, n) == Some(t)
    ensures Inv(t)
  {
    assert ProcOk(s, pr);
    assert !HoldsLock(pr) && s.lock != Some(p);
    var tmp := Parent(pr.op.key) + [Temp(n)];
    assert Parent(tmp) == Parent(pr.op.key);
    TempsAreInvisible(s.files, tmp, pr.op.body);
    TreeGrows(s, [], tmp, pr.op.body);
    QuietStep(s, t, p);
  }

  lemma MkdirKeeps(s: State, p: nat, pr: Proc, t: State)
    requires Inv(s) && p in s.procs && s.procs[p] == pr && pr.Mkdir? && pr.level < |pr.op.key|
               && StepMkdir(s, p, pr) == Some(t)
    ensures Inv(t)
  {
    assert ProcOk(s, pr);
    assert !HoldsLock(pr) && s.lock != Some(p);
    TreeGrows(s, pr.op.key[..pr.level], [], []);
    QuietStep(s, t, p);
  }

  lemma CheckKeeps(s: State, p: nat, pr: Proc, t: State)
    requires Inv(s) && p in s.procs && s.procs[p] == pr && pr.Locked? && StepCheck(s, p, pr) == Some(t)
    ensures Inv(t)
  {
    assert ProcOk(s, pr);
    assert HoldsLock(pr);
    FlatSnoc(s.log, PutRefused(pr.op.key, pr.op.cond));
    QuietStep(s, t, p);
  }

  lemma RenameVisible(files: map<Path, Bytes>, t: Path, key: Path)
    requires t in files && t != [] && t[|t| - 1].Temp? && IsKey(key)
    ensures Visible((files - {t})[key := files[t]]) == Visible(files)[key := files[t]]
  {
  }

  lemma RenameKeeps(s: State, p: nat, pr: Proc, t: State)
    requires Inv(s) && p in s.procs && s.procs[p] == pr && pr.Checked? && pr.op.key != []
               && StepRename(s, p, pr) == Some(t)
    ensures Inv(t)
  {
    assert ProcOk(s, pr);
    assert HoldsLock(pr);
    var op, tmp := pr.op, pr.tmp;
    if op.key in s.dirs || Parent(op.key) !in s.dirs {
      QuietStep(s, t, p);
    } else {
      RenameVisible(s.files, tmp, op.key);
      FlatSnoc(s.log, PutDone(op.key, s.files[tmp], op.cond));
      LockedStep(s, t, p);
    }
  }

  lemma RemoveBlobKeeps(s: State, p: nat, pr: Proc, t: State)
    requires Inv(s) && p in s.procs && s.procs[p] == pr && pr.DeleteLocked? && pr.key != []
               && StepRemoveBlob(s, p, pr) == Some(t)
    ensures Inv(t)
  {
    assert ProcOk(s, pr);
    assert HoldsLock(pr);
    FlatSnoc(s.log, DeleteDone(pr.key));
    assert Visible(t.files) == Visible(s.files) - {pr.key};
    LockedStep(s, t, p);
  }

  /** Pruning: only an empty directory goes, so no directory above a file, temporary or not, ever
      does. */
  lemma PruneKeeps(s: State, p: nat, pr: Proc, t: State)
    requires Inv(s) && p in s.procs && s.procs[p] == pr && pr.Prune? && StepPrune(s, p, pr) == Some(t)
    ensures Inv(t)
  {
    assert ProcOk(s, pr);
    assert HoldsLock(pr);
    QuietStep(s, t, p);
  }

  lemma StopKeeps(s: State, p: nat, pr: Proc)
    requires Inv(s) && p in s.procs && s.procs[p] == pr
    ensures Inv(StepStop(s, p, pr))
  {
    assert ProcOk(s, pr);
    assert HoldsLock(pr) <==> s.lock == Some(p);
    QuietStep(s, StepStop(s, p, pr), p);
  }

  lemma StepKeeps(s: State, a: Action, t: State)
    requires Inv(s) && Next(s, a) == Some(t)
    ensures Inv(t)
  {
    var pr := s.procs[a.p];
    assert ProcOk(s, pr);
    assert HoldsLock(pr) <==> s.lock == Some(a.p);
    match a
    case BeginPut(p, _) => QuietStep(s, t, p);
    case MkdirNext(p) => MkdirKeeps(s, p, pr, t);
    case OpenTemp(p, n) => OpenKeeps(s, p, pr, n, t);
    case TakeLock(p) => QuietStep(s, t, p);
    case Check(p) => CheckKeeps(s, p, pr, t);
    case Rename(p) => RenameKeeps(s, p, pr, t);
    case RemoveTemp(p) => RemoveTempKeeps(s, p, pr);
    case BeginDelete(p, _) => QuietStep(s, t, p);
    case RemoveBlob(p) => RemoveBlobKeeps(s, p, pr, t);
    case PruneOne(p) => PruneKeeps(s, p, pr, t);
    case Stop(p) => StopKeeps(s, p, pr);
  }

  lemma {:induction false} RunKeeps(s: State, acts: seq<Action>, t: State)
    requires Inv(s) && Run(s, acts) == Some(t)
    ensures Inv(t)
    decreases |acts|
  {
    if acts != [] {
      var x := Next(s, acts[0]).value;
      StepKeeps(s, acts[0], x);
      RunKeeps(x, acts[1..], t);
    }
  }

  // ---------------------------------------------------------------- the reference store

  /** Different paths are different names in the reference store. */
  ghost predicate Distinct(name: Path -> string) {
    forall a, b :: name(a) == name(b) ==> a == b
  }

  /** The path of a name. */
  ghost function PathOf(name: Path -> string, n: string): Path {
    if exists k :: name(k) == n then var k :| name(k) == n; k else []
  }

  lemma PathOfName(name: Path -> string, k: Path)
    requires Distinct(name)
    ensures PathOf(name, name(k)) == k
  {
  }

  /** The blobs as objects of the reference store. */
  ghost function Named(blobs: Blobs, name: Path -> string): Objects {
    var names := set k | k in blobs :: name(k);
    map n | n in names && PathOf(name, n) in blobs :: blobs[PathOf(name, n)]
  }

  lemma NamedAt(blobs: Blobs, name: Path -> string, k: Path)
    requires Distinct(name)
    ensures k in blobs <==> name(k) in Named(blobs, name)
    ensures k in blobs ==> Named(blobs, name)[name(k)] == blobs[k]
  {
    PathOfName(name, k);
  }

  /** One logged operation on the reference store, under the condition of its own Put; None if the
      reference store would have answered differently. */
  ghost function RefStep(objects: Objects, op: FlatOp, name: Path -> string): Option<Objects> {
    match op
    case PutDone(key, body, cond) =>
      if MemStore.Holds(objects, name(key), cond) then Some(objects[name(key) := body]) else None
    case PutRefused(key, cond) => if MemStore.Holds(objects, name(key), cond) then None else Some(objects)
    case DeleteDone(key) => Some(objects - {name(key)})
  }

  ghost function RefRun(log: seq<FlatOp>, name: Path -> string): Option<Objects> {
    if log == [] then Some(map[])
    else match RefRun(log[..|log| - 1], name)
      case None => None
      case Some(o) => RefStep(o, log[|log| - 1], name)
  }

  /** A precondition means here what it means to the reference store. */
  lemma SameCondition(blobs: Blobs, name: Path -> string, key: Path, cond: Condition)
    requires Distinct(name)
    ensures Holds(blobs, key, cond) <==> MemStore.Holds(Named(blobs, name), name(key), cond)
  {
    NamedAt(blobs, name, key);
  }

  lemma SamePut(blobs: Blobs, key: Path, body: Bytes, name: Path -> string)
    requires Distinct(name)
    ensures Named(blobs[key := body], name) == Named(blobs, name)[name(key) := body]
  {
    var l, r := Named(blobs[key := body], name), Named(blobs, name)[name(key) := body];
    forall n ensures n in l <==> n in r {
      SameName(blobs[key := body], name, n);
      SameName(blobs, name, n);
      PathOfName(name, key);
    }
    PathOfName(name, key);
  }

  lemma SameName(blobs: Blobs, name: Path -> string, n: string)
    requires Distinct(name)
    ensures n in Named(blobs, name) <==> PathOf(name, n) in blobs && name(PathOf(name, n)) == n
  {
    if n in Named(blobs, name) {
      var k :| k in blobs && name(k) == n;
      PathOfName(name, k);
    }
  }

  lemma SameDelete(blobs: Blobs, key: Path, name: Path -> string)
    requires Distinct(name)
    ensures Named(blobs - {key}, name) == Named(blobs, name) - {name(key)}
  {
    var l, r := Named(blobs - {key}, name), Named(blobs, name) - {name(key)};
    forall n ensures n in l <==> n in r {
      SameName(blobs - {key}, name, n);
      SameName(blobs, name, n);
      PathOfName(name, key);
    }
  }

  lemma SameStep(blobs: Blobs, op: FlatOp, name: Path -> string)
    requires Distinct(name) && FlatStep(blobs, op).Some?
    ensures RefStep(Named(blobs, name), op, name) == Some(Named(FlatStep(blobs, op).value, name))
  {
    match op
    case PutDone(key, body, cond) =>
      SameCondition(blobs, name, key, cond);
      SamePut(blobs, key, body, name);
    case PutRefused(key, cond) => SameCondition(blobs, name, key, cond);
    case DeleteDone(key) => SameDelete(blobs, key, name);
  }

  lemma {:induction false} SameRun(log: seq<FlatOp>, name: Path -> string)
    requires Distinct(name) && FlatRun(log).Some?
    ensures RefRun(log, name) == Some(Named(FlatRun(log).value, name))
    decreases |log|
  {
    if log != [] {
      SameRun(log[..|log| - 1], name);
      SameStep(FlatRun(log[..|log| - 1]).value, log[|log| - 1], name);
    }
  }

  // ---------------------------------------------------------------- the theorems

  /** A file keeps every directory above it. */
  lemma {:induction false} ChainAlive(s: State, p: Path, i: nat)
    requires Tree(s) && p in s.dirs && i <= |p|
    ensures p[..i] in s.dirs
    decreases |p|
  {
    if i < |p| {
      ChainAlive(s, Parent(p), i);
      assert Parent(p)[..i] == p[..i];
    } else {
      assert p[..i] == p;
    }
  }

  lemma InitialInv(s: State)
    requires Initial(s)
    ensures Inv(s)
  {
  }

  /** Refinement, for every interleaving of processes, with errors and crashes anywhere: the visible
      blobs are those of a flat map on which every completed Put and Delete took effect atomically, in
      log order, each Put with the answer the map would have given; and the same operations on the
      reference store, under any naming of the paths, get the same answers and leave the same objects. */
  lemma RefinesFlatMap(s: State, acts: seq<Action>, t: State, name: Path -> string)
    requires Initial(s) && Run(s, acts) == Some(t) && Distinct(name)
    ensures FlatRun(t.log) == Some(Visible(t.files))
    ensures RefRun(t.log, name) == Some(Named(Visible(t.files), name))
  {
    InitialInv(s);
    RunKeeps(s, acts, t);
    SameRun(t.log, name);
  }

  lemma OtherStepsAreInvisible(s: State, a: Action, t: State)
    requires Inv(s) && Next(s, a) == Some(t) && !a.Rename? && !a.RemoveBlob?
    ensures Visible(t.files) == Visible(s.files)
  {
    var pr := s.procs[a.p];
    assert ProcOk(s, pr);
    if a.OpenTemp? {
      TempsAreInvisible(s.files, Parent(pr.op.key) + [Temp(a.n)], pr.op.body);
    } else if a.RemoveTemp? {
      TempsAreInvisible(s.files, pr.tmp, []);
    }
  }

  /** A Put takes effect here, where the reference store would take it, or not at all. */
  ghost predicate PutLands(s: State, a: Action, t: State, name: Path -> string)
    requires Distinct(name)
  {
    && a.p in s.procs && s.procs[a.p].Checked? && s.lock == Some(a.p)
    && var op := s.procs[a.p].op;
       && MemStore.Holds(Named(Visible(s.files), name), name(op.key), op.cond)
       && Visible(t.files) == Visible(s.files)[op.key := op.body]
  }

  ghost predicate DeleteLands(s: State, a: Action, t: State) {
    && a.p in s.procs && s.procs[a.p].DeleteLocked? && s.lock == Some(a.p)
    && Visible(t.files) == Visible(s.files) - {s.procs[a.p].key}
  }

  lemma RenameLands(s: State, a: Action, t: State)
    requires Inv(s) && a.Rename? && Next(s, a) == Some(t)
    ensures var pr := s.procs[a.p];
            && pr.Checked? && s.lock == Some(a.p) && Holds(Visible(s.files), pr.op.key, pr.op.cond)
            && (Visible(t.files) == Visible(s.files) || Visible(t.files) == Visible(s.files)[pr.op.key := pr.op.body])
  {
    var pr := s.procs[a.p];
    assert ProcOk(s, pr);
    assert HoldsLock(pr);
    RenameVisible(s.files, pr.tmp, pr.op.key);
  }

  lemma RemovalLands(s: State, a: Action, t: State)
    requires Inv(s) && a.RemoveBlob? && Next(s, a) == Some(t)
    ensures DeleteLands(s, a, t)
  {
    var pr := s.procs[a.p];
    assert ProcOk(s, pr);
    assert HoldsLock(pr);
    assert Visible(s.files - {pr.key}) == Visible(s.files) - {pr.key};
  }

  /** One step changes the visible blobs only at a rename, where the precondition holds and the
      staged body replaces the blob, or at a removal; both by the holder of the lock. */
  lemma BlobsChangeAtomically(s: State, acts: seq<Action>, t: State, a: Action, u: State, name: Path -> string)
    requires Initial(s) && Run(s, acts) == Some(t) && Next(t, a) == Some(u) && Distinct(name)
    ensures Visible(u.files) != Visible(t.files) ==> PutLands(t, a, u, name) || DeleteLands(t, a, u)
  {
    InitialInv(s);
    RunKeeps(s, acts, t);
    if a.Rename? {
      RenameLands(t, a, u);
      SameCondition(Visible(t.files), name, t.procs[a.p].op.key, t.procs[a.p].op.cond);
    } else if a.RemoveBlob? {
      RemovalLands(t, a, u);
    } else {
      OtherStepsAreInvisible(t, a, u);
    }
  }

  /** From the moment its temporary file exists until the rename, a Put's whole directory chain is
      there, whatever deletes prune meanwhile; and its staged body is intact. */
  lemma TempKeepsChainAlive(s: State, acts: seq<Action>, t: State, p: nat, i: nat)
    requires Initial(s) && Run(s, acts) == Some(t) && p in t.procs
    requires t.procs[p].Staged? || t.procs[p].Locked? || t.procs[p].Checked?
    requires i < |t.procs[p].op.key|
    ensures t.procs[p].op.key[..i] in t.dirs
    ensures t.procs[p].tmp in t.files && t.files[t.procs[p].tmp] == t.procs[p].op.body
  {
    InitialInv(s);
    RunKeeps(s, acts, t);
    var pr := t.procs[p];
    assert ProcOk(t, pr);
    ChainAlive(t, Parent(pr.op.key), i);
    assert Parent(pr.op.key)[..i] == pr.op.key[..i];
  }

  // ---------------------------------------------------------------- prefix-free keys

  predicate StrictPrefix(a: Path, b: Path) {
    |a| < |b| && a == b[..|a|]
  }

  ghost predicate PrefixFree(keys: iset<Path>) {
    forall a, b :: a in keys && b in keys ==> !StrictPrefix(a, b)
  }

  /** Every Put of the run uses one of `keys`. */
  predicate PutsOnly(acts: seq<Action>, keys: iset<Path>) {
    forall i :: 0 <= i < |acts| && acts[i].BeginPut? ==> acts[i].op.key in keys
  }

  function OpOf(pr: Proc): Option<PutOp> {
    if pr.Mkdir? || pr.Open? || pr.Staged? || pr.Locked? || pr.Checked? then Some(pr.op) else None
  }

  ghost predicate Inner(d: Path, keys: iset<Path>) {
    d == [] || exists k :: k in keys && StrictPrefix(d, k)
  }

  /** Directories are proper prefixes of keys, blobs and pending Puts are keys. */
  ghost predicate Within(s: State, keys: iset<Path>) {
    && (forall d :: d in s.dirs ==> Inner(d, keys))
    && (forall f :: f in s.files && IsKey(f) ==> f in keys)
    && (forall p :: p in s.procs && OpOf(s.procs[p]).Some? ==> OpOf(s.procs[p]).value.key in keys)
  }

  lemma VisibleNames(s: State, a: Action, t: State)
    requires Inv(s) && Next(s, a) == Some(t)
    ensures forall f :: f in Visible(t.files) ==>
              f in Visible(s.files) || (OpOf(s.procs[a.p]).Some? && f == OpOf(s.procs[a.p]).value.key)
  {
    if a.Rename? {
      RenameLands(s, a, t);
    } else if a.RemoveBlob? {
      RemovalLands(s, a, t);
    } else {
      OtherStepsAreInvisible(s, a, t);
    }
  }

  lemma DirNames(s: State, a: Action, t: State, d: Path)
    requires Inv(s) && Next(s, a) == Some(t) && d in t.dirs
    ensures d in s.dirs || (OpOf(s.procs[a.p]).Some? && StrictPrefix(d, OpOf(s.procs[a.p]).value.key))
  {
    assert ProcOk(s, s.procs[a.p]);
  }

  lemma OpNames(s: State, a: Action, t: State)
    requires Next(s, a) == Some(t)
    ensures t.procs.Keys == s.procs.Keys && forall p :: p in t.procs && p != a.p ==> t.procs[p] == s.procs[p]
    ensures var o := OpOf(t.procs[a.p]); o.Some? ==> o == OpOf(s.procs[a.p]) || (a.BeginPut? && o.value == a.op)
  {
  }

  lemma WithinStep(s: State, a: Action, t: State, keys: iset<Path>)
    requires Inv(s) && Within(s, keys) && Next(s, a) == Some(t) && (a.BeginPut? ==> a.op.key in keys)
    ensures Within(t, keys)
  {
    OpNames(s, a, t);
    forall d | d in t.dirs ensures Inner(d, keys) {
      DirNames(s, a, t, d);
    }
    VisibleNames(s, a, t);
    forall f | f in t.files && IsKey(f) ensures f in keys {
      assert f in Visible(t.files);
    }
  }

  lemma {:induction false} WithinRun(s: State, acts: seq<Action>, t: State, keys: iset<Path>)
    requires Inv(s) && Within(s, keys) && Run(s, acts) == Some(t) && PutsOnly(acts, keys)
    ensures Within(t, keys)
    decreases |acts|
  {
    if acts != [] {
      var x := Next(s, acts[0]).value;
      StepKeeps(s, acts[0], x);
      WithinStep(s, acts[0], x, keys);
      forall i | 0 <= i < |acts[1..]| && acts[1..][i].BeginPut? ensures acts[1..][i].op.key in keys {
        assert acts[1..][i] == acts[i + 1];
      }
      WithinRun(x, acts[1..], t, keys);
    }
  }

  /** A key is no proper prefix of a key, and no proper prefix of it is one. */
  lemma KeysDoNotNest(key: Path, keys: iset<Path>, i: nat)
    requires PrefixFree(keys) && key in keys && IsKey(key) && i < |key|
    ensures !Inner(key, keys) && key[..i] !in keys && (key[..i] == [] || IsKey(key[..i]))
  {
    assert StrictPrefix(key[..i], key);
  }

  /** For prefix-free keys the directory tree never gets in the way: a Put that passed its check
      always renames successfully, and the flat map takes its body. */
  lemma CheckedPutLands(s: State, acts: seq<Action>, t: State, p: nat, keys: iset<Path>)
    requires Initial(s) && Run(s, acts) == Some(t) && PrefixFree(keys) && PutsOnly(acts, keys)
    requires p in t.procs && t.procs[p].Checked?
    ensures var op := t.procs[p].op;
            var u := Next(t, Rename(p));
            u.Some? && Visible(u.value.files) == Visible(t.files)[op.key := op.body]
                && u.value.log == t.log + [PutDone(op.key, op.body, op.cond)]
  {
    InitialInv(s);
    RunKeeps(s, acts, t);
    WithinRun(s, acts, t, keys);
    var pr := t.procs[p];
    assert ProcOk(t, pr);
    KeysDoNotNest(pr.op.key, keys, 0);
    ChainAlive(t, Parent(pr.op.key), |pr.op.key| - 1);
    RenameStep(t, p);
  }

  lemma RenameStep(t: State, p: nat)
    requires p in t.procs && t.procs[p].Checked? && StagedOk(t, t.procs[p].op, t.procs[p].tmp)
    requires t.procs[p].op.key !in t.dirs && Parent(t.procs[p].op.key) in t.dirs
    ensures var op := t.procs[p].op;
            var u := Next(t, Rename(p));
            u.Some? && Visible(u.value.files) == Visible(t.files)[op.key := op.body]
                && u.value.log == t.log + [PutDone(op.key, op.body, op.cond)]
  {
    RenameVisible(t.files, t.procs[p].tmp, t.procs[p].op.key);
  }

  /** ... and no directory a Put needs is ever shadowed by a blob, nor its target by a directory. */
  lemma NoCollisions(s: State, acts: seq<Action>, t: State, p: nat, keys: iset<Path>, i: nat)
    requires Initial(s) && Run(s, acts) == Some(t) && PrefixFree(keys) && PutsOnly(acts, keys)
    requires p in t.procs && OpOf(t.procs[p]).Some? && i < |OpOf(t.procs[p]).value.key|
    ensures OpOf(t.procs[p]).value.key !in t.dirs && OpOf(t.procs[p]).value.key[..i] !in t.files
  {
    InitialInv(s);
    RunKeeps(s, acts, t);
    WithinRun(s, acts, t, keys);
    var key := OpOf(t.procs[p]).value.key;
    assert ProcOk(t, t.procs[p]);
    KeysDoNotNest(key, keys, i);
  }

  // ---------------------------------------------------------------- a Put that runs alone

  predicate AllBy(acts: seq<Action>, p: nat) {
    forall i :: 0 <= i < |acts| ==> acts[i].p == p && !acts[i].Stop?
  }

  lemma RunStep(s: State, a: Action, x: State, acts: seq<Action>, t: State)
    requires Next(s, a) == Some(x) && Run(x, acts) == Some(t)
    ensures Run(s, [a] + acts) == Some(t)
  {
    assert ([a] + acts)[1..] == acts;
  }

  /** Nothing at or above the key's directory is in the way of its Put. */
  ghost predicate Free(s: State, key: Path) {
    IsKey(key) && key !in s.dirs && forall i :: 0 <= i < |key| ==> key[..i] !in s.files
  }

  /** Only process `p` has moved, and the visible blobs, the log and the lock are as before. */
  ghost predicate Prepared(s: State, t: State, p: nat) {
    && Visible(t.files) == Visible(s.files) && t.log == s.log && t.lock.None? && s.lock.None?
    && p in t.procs && (forall d :: d in s.dirs ==> d in t.dirs)
  }

  lemma MkdirOnce(s: State, p: nat, op: PutOp, level: nat) returns (x: State)
    requires Inv(s) && p in s.procs && s.procs[p] == Mkdir(op, level, 0) && Free(s, op.key)
    requires level < |op.key| && (level > 0 ==> op.key[..level - 1] in s.dirs)
    ensures Next(s, MkdirNext(p)) == Some(x) && Inv(x) && x.files == s.files && x.log == s.log && x.lock == s.lock
    ensures var d := op.key[..level];
            if d !in s.dirs then x.dirs == s.dirs + {d} && x.procs == s.procs[p := Mkdir(op, level, 0)]
            else x.dirs == s.dirs && x.procs == s.procs[p := if level + 1 == |op.key| then Open(op, 0)
                                                            else Mkdir(op, level + 1, 0)]
  {
    assert level > 0 ==> Parent(op.key[..level]) == op.key[..level - 1];
    x := Next(s, MkdirNext(p)).value;
    StepKeeps(s, MkdirNext(p), x);
  }

  /** Making the directory chain, one level after the other. */
  lemma {:induction false} MkdirAlone(s: State, p: nat, op: PutOp, level: nat) returns (acts: seq<Action>, t: State)
    requires Inv(s) && p in s.procs && s.procs[p] == Mkdir(op, level, 0) && s.lock.None? && Free(s, op.key)
    requires level < |op.key| && (level > 0 ==> op.key[..level - 1] in s.dirs)
    ensures Run(s, acts) == Some(t) && AllBy(acts, p) && Inv(t) && Prepared(s, t, p) && t.files == s.files
    ensures t.procs[p] == Open(op, 0) && Parent(op.key) in t.dirs && op.key !in t.dirs
    decreases |op.key| - level, if op.key[..level] in s.dirs then 0 else 1
  {
    var d := op.key[..level];
    var x := MkdirOnce(s, p, op, level);
    var rest;
    if d !in s.dirs {
      rest, t := MkdirAlone(x, p, op, level);
    } else if level + 1 < |op.key| {
      rest, t := MkdirAlone(x, p, op, level + 1);
    } else {
      rest, t := [], x;
      assert Run(x, []) == Some(x);
    }
    acts := [MkdirNext(p)] + rest;
    RunStep(s, MkdirNext(p), x, rest, t);
  }

  function TempId(p: Path): nat {
    if p != [] && p[|p| - 1].Temp? then p[|p| - 1].n else 0
  }

  lemma {:induction false} UnusedTemp(paths: set<Path>) returns (n: nat)
    ensures forall q :: q in paths ==> TempId(q) < n
    decreases |paths|
  {
    n := 0;
    if paths != {} {
      var q :| q in paths;
      n := UnusedTemp(paths - {q});
      n := if TempId(q) < n then n else TempId(q) + 1;
    }
  }

  /** Staging the body. */
  lemma StageAlone(s: State, p: nat, op: PutOp) returns (acts: seq<Action>, t: State)
    requires Inv(s) && p in s.procs && s.procs[p] == Open(op, 0) && s.lock.None? && IsKey(op.key)
    requires Parent(op.key) in s.dirs
    ensures Run(s, acts) == Some(t) && AllBy(acts, p) && Inv(t) && Prepared(s, t, p) && t.dirs == s.dirs
    ensures t.procs[p].Staged? && t.procs[p].op == op
  {
    var n := UnusedTemp(s.files.Keys + s.dirs);
    var tmp := Parent(op.key) + [Temp(n)];
    assert TempId(tmp) == n;
    t := Next(s, OpenTemp(p, n)).value;
    StepKeeps(s, OpenTemp(p, n), t);
    TempsAreInvisible(s.files, tmp, op.body);
    acts := [OpenTemp(p, n)];
    assert Run(t, []) == Some(t);
    RunStep(s, OpenTemp(p, n), t, [], t);
  }

  /** What a Put is to leave: its body if the reference store would take it, and the answer in the
      log. */
  ghost predicate Answered(s: State, t: State, op: PutOp, name: Path -> string)
    requires Distinct(name)
  {
    if MemStore.Holds(Named(Visible(s.files), name), name(op.key), op.cond) then
      && Visible(t.files) == Visible(s.files)[op.key := op.body]
      && t.log == s.log + [PutDone(op.key, op.body, op.cond)]
    else
      Visible(t.files) == Visible(s.files) && t.log == s.log + [PutRefused(op.key, op.cond)]
  }

  lemma RunThree(s: State, a: Action, x: State, b: Action, y: State, c: Action, t: State) returns (acts: seq<Action>)
    requires Next(s, a) == Some(x) && Next(x, b) == Some(y) && Next(y, c) == Some(t)
    requires a.p == b.p == c.p && !a.Stop? && !b.Stop? && !c.Stop?
    ensures Run(s, acts) == Some(t) && AllBy(acts, a.p)
  {
    assert Run(t, []) == Some(t);
    RunStep(y, c, t, [], t);
    RunStep(x, b, y, [c] + [], t);
    RunStep(s, a, x, [b] + ([c] + []), t);
    acts := [a] + ([b] + ([c] + []));
  }

  /** Lock and check. */
  lemma CheckAlone(s: State, p: nat, op: PutOp) returns (x: State, y: State)
    requires Inv(s) && p in s.procs && s.procs[p].Staged? && s.procs[p].op == op && s.lock.None?
    requires op.key !in s.dirs
    ensures Next(s, TakeLock(p)) == Some(x) && Next(x, Check(p)) == Some(y)
    ensures y.files == s.files && y.dirs == s.dirs && p in y.procs
    ensures if Holds(Visible(s.files), op.key, op.cond) then
              y.procs[p] == Checked(op, s.procs[p].tmp) && y.log == s.log
            else
              y.procs[p] == Cleanup(s.procs[p].tmp) && y.log == s.log + [PutRefused(op.key, op.cond)] && y.lock.None?
  {
    x := Next(s, TakeLock(p)).value;
    y := Next(x, Check(p)).value;
  }

  /** Rename or clean up. */
  lemma LastAlone(s: State, y: State, p: nat, op: PutOp, tmp: Path) returns (last: Action, t: State)
    requires y.files == s.files && p in y.procs && StagedOk(s, op, tmp)
    requires op.key !in y.dirs && Parent(op.key) in y.dirs
    requires if Holds(Visible(s.files), op.key, op.cond) then y.procs[p] == Checked(op, tmp) && y.log == s.log
             else y.procs[p] == Cleanup(tmp) && y.log == s.log + [PutRefused(op.key, op.cond)] && y.lock.None?
    ensures last.p == p && !last.Stop? && Next(y, last) == Some(t)
    ensures p in t.procs && t.procs[p].Idle? && t.lock.None?
    ensures if Holds(Visible(s.files), op.key, op.cond) then
              && Visible(t.files) == Visible(s.files)[op.key := op.body]
              && t.log == s.log + [PutDone(op.key, op.body, op.cond)]
            else Visible(t.files) == Visible(s.files) && t.log == s.log + [PutRefused(op.key, op.cond)]
  {
    if Holds(Visible(s.files), op.key, op.cond) {
      last := Rename(p);
      RenameVisible(s.files, tmp, op.key);
    } else {
      last := RemoveTemp(p);
      TempsAreInvisible(s.files, tmp, []);
    }
    t := Next(y, last).value;
  }

  /** Lock, check, and rename or clean up. */
  lemma FinishAlone(s: State, p: nat, op: PutOp, name: Path -> string) returns (acts: seq<Action>, t: State)
    requires Inv(s) && p in s.procs && s.procs[p].Staged? && s.procs[p].op == op && s.lock.None?
    requires op.key !in s.dirs && Parent(op.key) in s.dirs && Distinct(name)
    ensures Run(s, acts) == Some(t) && AllBy(acts, p) && p in t.procs && t.procs[p].Idle? && t.lock.None?
    ensures Answered(s, t, op, name)
  {
    assert ProcOk(s, s.procs[p]);
    SameCondition(Visible(s.files), name, op.key, op.cond);
    var x, y := CheckAlone(s, p, op);
    var last;
    last, t := LastAlone(s, y, p, op, s.procs[p].tmp);
    acts := RunThree(s, TakeLock(p), x, Check(p), y, last, t);
  }

  lemma {:induction false} RunsJoin(s: State, a: seq<Action>, x: State, b: seq<Action>, t: State)
    requires Run(s, a) == Some(x) && Run(x, b) == Some(t)
    ensures Run(s, a + b) == Some(t)
    ensures forall p :: AllBy(a, p) && AllBy(b, p) ==> AllBy(a + b, p)
    decreases |a|
  {
    if a == [] {
      assert a + b == b;
    } else {
      RunsJoin(Next(s, a[0]).value, a[1..], x, b, t);
      assert (a + b)[1..] == a[1..] + b;
    }
  }

  /** For prefix-free keys a Put is not merely safe: from any reachable state in which nobody holds the
      lock, a process that takes its steps alone and meets no error ends its Put with the answer of the
      reference store, and with its body in place exactly if that answer is success; whatever crashed
      or half-done Puts and Deletes of others left behind. */
  lemma PutAloneLands(s: State, acts: seq<Action>, t: State, p: nat, op: PutOp, keys: iset<Path>,
                      name: Path -> string)
      returns (more: seq<Action>, u: State)
    requires Initial(s) && Run(s, acts) == Some(t) && PrefixFree(keys) && PutsOnly(acts, keys) && Distinct(name)
    requires p in t.procs && t.procs[p].Idle? && t.lock.None?
    requires op.key in keys && IsKey(op.key) && !(op.cond.ifMatch != NoTag && op.cond.ifNoneMatch)
    ensures Run(t, more) == Some(u) && AllBy(more, p) && p in u.procs && u.procs[p].Idle? && u.lock.None?
    ensures Answered(t, u, op, name)
  {
    InitialInv(s);
    RunKeeps(s, acts, t);
    WithinRun(s, acts, t, keys);
    more, u := PutAlone(t, p, op, keys, name);
  }

  lemma PutAlone(t: State, p: nat, op: PutOp, keys: iset<Path>, name: Path -> string)
      returns (more: seq<Action>, u: State)
    requires Inv(t) && Within(t, keys) && PrefixFree(keys) && Distinct(name)
    requires p in t.procs && t.procs[p].Idle? && t.lock.None?
    requires op.key in keys && IsKey(op.key) && !(op.cond.ifMatch != NoTag && op.cond.ifNoneMatch)
    ensures Run(t, more) == Some(u) && AllBy(more, p) && p in u.procs && u.procs[p].Idle? && u.lock.None?
    ensures Answered(t, u, op, name)
  {
    var x := BeginAlone(t, p, op, keys);
    var rest;
    rest, u := RestAlone(x, p, op, name);
    more := OneFirst(t, BeginPut(p, op), x, rest, u);
  }

  lemma OneFirst(s: State, a: Action, x: State, acts: seq<Action>, t: State) returns (more: seq<Action>)
    requires Next(s, a) == Some(x) && Run(x, acts) == Some(t) && AllBy(acts, a.p) && !a.Stop?
    ensures Run(s, more) == Some(t) && AllBy(more, a.p)
  {
    RunStep(s, a, x, acts, t);
    more := [a] + acts;
  }

  lemma RestAlone(x: State, p: nat, op: PutOp, name: Path -> string) returns (acts: seq<Action>, u: State)
    requires Inv(x) && p in x.procs && x.procs[p] == Mkdir(op, 0, 0) && x.lock.None? && Free(x, op.key)
    requires Distinct(name)
    ensures Run(x, acts) == Some(u) && AllBy(acts, p) && p in u.procs && u.procs[p].Idle? && u.lock.None?
    ensures Answered(x, u, op, name)
  {
    var a, y := StagedAlone(x, p, op);
    var b;
    b, u := FinishAlone(y, p, op, name);
    RunsJoin(x, a, y, b, u);
    acts := a + b;
  }

  lemma BeginAlone(t: State, p: nat, op: PutOp, keys: iset<Path>) returns (x: State)
    requires Inv(t) && Within(t, keys) && PrefixFree(keys) && op.key in keys && IsKey(op.key)
    requires p in t.procs && t.procs[p].Idle? && !(op.cond.ifMatch != NoTag && op.cond.ifNoneMatch)
    ensures Next(t, BeginPut(p, op)) == Some(x) && Inv(x) && Free(x, op.key)
    ensures p in x.procs && x.procs[p] == Mkdir(op, 0, 0) && x.lock == t.lock && x.files == t.files && x.log == t.log
  {
    x := Next(t, BeginPut(p, op)).value;
    StepKeeps(t, BeginPut(p, op), x);
    KeyIsFree(x, keys, op.key, t);
  }

  lemma StagedAlone(s: State, p: nat, op: PutOp) returns (acts: seq<Action>, t: State)
    requires Inv(s) && p in s.procs && s.procs[p] == Mkdir(op, 0, 0) && s.lock.None? && Free(s, op.key)
    ensures Run(s, acts) == Some(t) && AllBy(acts, p) && Inv(t) && Prepared(s, t, p)
    ensures t.procs[p].Staged? && t.procs[p].op == op && op.key !in t.dirs && Parent(op.key) in t.dirs
  {
    var a, x := MkdirAlone(s, p, op, 0);
    var b;
    b, t := StageAlone(x, p, op);
    RunsJoin(s, a, x, b, t);
    acts := a + b;
  }

  lemma KeyIsFree(x: State, keys: iset<Path>, key: Path, t: State)
    requires Inv(t) && Within(t, keys) && PrefixFree(keys) && key in keys && IsKey(key)
    requires x.dirs == t.dirs && x.files == t.files
    ensures Free(x, key)
  {
    forall i | 0 <= i < |key| ensures key !in x.dirs && key[..i] !in x.files {
      KeysDoNotNest(key, keys, i);
    }
    assert key !in x.dirs by {
      KeysDoNotNest(key, keys, 0);
    }
  }

  // ---------------------------------------------------------------- a Delete that runs alone

  /** No directory on the way down to `dir` is empty, but for the root. */
  ghost predicate Pruned(s: State, dir: Path) {
    forall i :: 0 < i <= |dir| && dir[..i] in s.dirs ==> !Empty(s, dir[..i])
  }

  lemma NonEmptyAbove(s: State, dir: Path)
    requires Tree(s) && dir in s.dirs && (dir == [] || !Empty(s, dir))
    ensures Pruned(s, dir)
  {
    forall i | 0 < i <= |dir| ensures !Empty(s, dir[..i]) {
      if i < |dir| {
        ChainAlive(s, dir, i + 1);
        assert Parent(dir[..i + 1]) == dir[..i];
      } else {
        assert dir[..i] == dir;
      }
    }
  }

  /** `pruneEmptyDirs`, up to the first directory that is not empty. */
  lemma {:induction false} PruneAlone(s: State, p: nat, dir: Path) returns (acts: seq<Action>, t: State)
    requires Inv(s) && p in s.procs && s.procs[p] == Prune(dir) && dir in s.dirs
    ensures Run(s, acts) == Some(t) && AllBy(acts, p) && p in t.procs && t.procs[p].Idle? && t.lock.None?
    ensures t.files == s.files && t.log == s.log && Tree(t) && t.dirs <= s.dirs && Pruned(t, dir)
    decreases |dir|
  {
    var x := Next(s, PruneOne(p)).value;
    StepKeeps(s, PruneOne(p), x);
    var rest;
    if dir != [] && Empty(s, dir) {
      rest, t := PruneAlone(x, p, Parent(dir));
      assert dir[..|dir|] == dir && dir !in t.dirs;
      forall i | 0 < i < |dir| && dir[..i] in t.dirs ensures !Empty(t, dir[..i]) {
        assert dir[..i] == Parent(dir)[..i];
      }
    } else {
      rest, t := [], x;
      assert Run(x, []) == Some(x);
      NonEmptyAbove(x, dir);
    }
    acts := OneFirst(s, PruneOne(p), x, rest, t);
  }

  /** What a Delete leaves: the blob is gone, nothing else is, the answer is in the log; and if it was
      there, no directory above it is left empty. */
  ghost predicate DeletedAndPruned(s: State, t: State, key: Path)
    requires key != []
  {
    && Visible(t.files) == Visible(s.files) - {key} && t.log == s.log + [DeleteDone(key)]
    && (key in s.files ==> Pruned(t, Parent(key)))
  }

  /** From any reachable state in which nobody holds the lock, a process that takes its steps alone
      completes its Delete and prunes every directory the Delete emptied. */
  lemma DeleteAloneLands(s: State, acts: seq<Action>, t: State, p: nat, key: Path)
      returns (more: seq<Action>, u: State)
    requires Initial(s) && Run(s, acts) == Some(t) && IsKey(key)
    requires p in t.procs && t.procs[p].Idle? && t.lock.None?
    ensures Run(t, more) == Some(u) && AllBy(more, p) && p in u.procs && u.procs[p].Idle? && u.lock.None?
    ensures DeletedAndPruned(t, u, key)
  {
    InitialInv(s);
    RunKeeps(s, acts, t);
    var x := Next(t, BeginDelete(p, key)).value;
    StepKeeps(t, BeginDelete(p, key), x);
    var rest;
    rest, u := DeleteAlone(x, p, key);
    more := OneFirst(t, BeginDelete(p, key), x, rest, u);
  }

  lemma DeleteAlone(s: State, p: nat, key: Path) returns (acts: seq<Action>, t: State)
    requires Inv(s) && p in s.procs && s.procs[p] == DeleteWait(key) && s.lock.None? && IsKey(key)
    ensures Run(s, acts) == Some(t) && AllBy(acts, p) && p in t.procs && t.procs[p].Idle? && t.lock.None?
    ensures DeletedAndPruned(s, t, key)
  {
    var x := Next(s, TakeLock(p)).value;
    StepKeeps(s, TakeLock(p), x);
    var rest;
    rest, t := RemoveAlone(x, p, key);
    acts := OneFirst(s, TakeLock(p), x, rest, t);
  }

  lemma RemoveAlone(s: State, p: nat, key: Path) returns (acts: seq<Action>, t: State)
    requires Inv(s) && p in s.procs && s.procs[p] == DeleteLocked(key) && IsKey(key)
    ensures Run(s, acts) == Some(t) && AllBy(acts, p) && p in t.procs && t.procs[p].Idle? && t.lock.None?
    ensures DeletedAndPruned(s, t, key)
  {
    var x := Next(s, RemoveBlob(p)).value;
    StepKeeps(s, RemoveBlob(p), x);
    assert Visible(s.files - {key}) == Visible(s.files) - {key};
    var rest;
    if key in s.files {
      rest, t := PruneAlone(x, p, Parent(key));
    } else {
      rest, t := [], x;
      assert Run(x, []) == Some(x);
    }
    acts := OneFirst(s, RemoveBlob(p), x, rest, t);
  }
}
