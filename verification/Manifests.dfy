/** The manifest: the one contended object, its validity rule, its two transformations, and what
    follows for any disciplined history of manifests. */
module Manifests {
  import opened Basics

  /** Blob names.  `NoKey` is the empty string, `InitKey` the fixed name of the bootstrap
      snapshot; every other name ends in a UUID, the `id` here.  A changeset name carries the epoch
      it was written under, which is the name of the snapshot it builds on. */
  datatype Key = NoKey | InitKey | SnapKey(id: nat) | CsKey(epoch: Key, id: nat)

  datatype BlobRef = BlobRef(key: Key, seqNo: int, size: int)
  datatype LogEntry = LogEntry(key: Key, seqNo: int, size: int)
  datatype Manifest = Manifest(formatVersion: int, seqNo: int, schema: int, snapshot: BlobRef, log: seq<LogEntry>)

  const FORMAT_VERSION := 1

  /** A content hash, injective because it carries what it hashes.  `NoETag` is the empty
      string, which the store reads as "no condition". */
  datatype ETag = NoETag | Md5(body: Manifest)

  predicate ValidEntry(m: Manifest, i: nat)
    requires i < |m.log|
  {
    m.log[i].key != NoKey && m.log[i].seqNo == m.snapshot.seqNo + 1 + i
  }

  predicate ValidManifest(m: Manifest) {
    && m.snapshot.key != NoKey
    && m.snapshot.seqNo >= 0
    && m.formatVersion <= FORMAT_VERSION
    && m.schema >= 0
    && (forall i :: 0 <= i < |m.log| ==> ValidEntry(m, i))
    && m.seqNo == m.snapshot.seqNo + |m.log|
  }

  datatype ManifestError =
    EmptySnapshotKey | NegativeSnapshotSeq | NewerFormat | NegativeSchema | BadEntry(i: nat) | SeqMismatch

  /** The complaint is true of the manifest. */
  predicate Complains(m: Manifest, err: ManifestError) {
    match err
    case EmptySnapshotKey => m.snapshot.key == NoKey
    case NegativeSnapshotSeq => m.snapshot.seqNo < 0
    case NewerFormat => m.formatVersion > 1
    case NegativeSchema => m.schema < 0
    case BadEntry(i) => i < |m.log| && (m.log[i].key == NoKey || m.log[i].seqNo != m.snapshot.seqNo + 1 + i)
    case SeqMismatch => m.seqNo != (if m.log == [] then m.snapshot.seqNo else m.log[|m.log| - 1].seqNo)
  }

  /** `validate`: the running-counter check decides exactly `ValidManifest`; a manifest is rejected
      exactly if some complaint is true of it, with one that is, and a rejected log entry is the first
      bad one. */
  method Validate(m: Manifest) returns (err: Option<ManifestError>)
    ensures err.None? <==> ValidManifest(m)
    ensures if err.Some? then Complains(m, err.value) else forall e :: !Complains(m, e)
    ensures err.Some? && err.value.BadEntry? ==>
              err.value.i < |m.log| && !ValidEntry(m, err.value.i) && forall j: nat :: j < err.value.i ==>
                  ValidEntry(m, j)
  {
    if m.snapshot.key == NoKey {
      return Some(EmptySnapshotKey);
    }
    if m.snapshot.seqNo < 0 {
      return Some(NegativeSnapshotSeq);
    }
    if m.formatVersion > FORMAT_VERSION {
      return Some(NewerFormat);
    }
    if m.schema < 0 {
      return Some(NegativeSchema);
    }
    var want := m.snapshot.seqNo + 1;
    for i := 0 to |m.log|
      invariant want == m.snapshot.seqNo + 1 + i
      invariant forall j: nat :: j < i ==> ValidEntry(m, j)
    {
      var e := m.log[i];
      if e.key == NoKey || e.seqNo != want {
        assert !ValidEntry(m, i);
        return Some(BadEntry(i));
      }
      want := want + 1;
    }
    var expectSeq := m.snapshot.seqNo;
    if |m.log| > 0 {
      assert ValidEntry(m, |m.log| - 1);
      expectSeq := m.log[|m.log| - 1].seqNo;
    }
    if m.seqNo != expectSeq {
      return Some(SeqMismatch);
    }
    forall e ensures !Complains(m, e) {
      assert e.BadEntry? && e.i < |m.log| ==> ValidEntry(m, e.i);
    }
    return None;
  }

  function AppendLog(m: Manifest, e: LogEntry): Manifest {
    m.(log := m.log + [e], seqNo := e.seqNo)
  }

  function WithSnapshot(m: Manifest, snap: BlobRef): Manifest {
    Manifest(FORMAT_VERSION, snap.seqNo, m.schema, snap, [])
  }

  function Stamped(m: Manifest): Manifest {
    m.(formatVersion := FORMAT_VERSION)
  }

  /** The epoch of a manifest is named after its snapshot. */
  function Epoch(m: Manifest): Key {
    m.snapshot.key
  }

  predicate Mentions(m: Manifest, k: Key) {
    m.snapshot.key == k || exists i :: 0 <= i < |m.log| && m.log[i].key == k
  }

  /** The log tail a reader at `fromSeq` still has to apply. */
  function Need(log: seq<LogEntry>, fromSeq: int): (need: seq<LogEntry>) {
    if log == [] then []
    else (if log[0].seqNo > fromSeq then [log[0]] else []) + Need(log[1..], fromSeq)
  }

  lemma {:induction false} NeedIsSuffix(log: seq<LogEntry>, first: int, n: nat)
    requires forall i :: 0 <= i < |log| ==> log[i].seqNo == first + i
    requires n <= |log|
    ensures Need(log, first + n - 1) == log[n..]
    decreases |log|
  {
    if log != [] {
      var rest := log[1..];
      assert forall i :: 0 <= i < |rest| ==> rest[i].seqNo == first + 1 + i;
      assert log[0].seqNo == first;
      if n == 0 {
        NeedIsSuffix(rest, first + 1, 0);
        NeedAbove(rest, first - 1, first);
        assert log[0..] == [log[0]] + rest;
      } else {
        NeedIsSuffix(rest, first + 1, n - 1);
        assert rest[n - 1..] == log[n..];
      }
    }
  }

  lemma {:induction false} NeedAbove(log: seq<LogEntry>, a: int, b: int)
    requires forall i :: 0 <= i < |log| ==> log[i].seqNo > a && log[i].seqNo > b
    ensures Need(log, a) == Need(log, b)
    decreases |log|
  {
    if log != [] {
      NeedAbove(log[1..], a, b);
    }
  }

  /** For a valid manifest, filtering by `Seq > fromSeq` selects exactly the unread suffix. */
  lemma NeedOfValid(m: Manifest, fromSeq: int)
    requires ValidManifest(m) && m.snapshot.seqNo <= fromSeq <= m.seqNo
    ensures Need(m.log, fromSeq) == m.log[fromSeq - m.snapshot.seqNo..]
  {
    forall i | 0 <= i < |m.log| ensures m.log[i].seqNo == m.snapshot.seqNo + 1 + i {
      assert ValidEntry(m, i);
    }
    NeedIsSuffix(m.log, m.snapshot.seqNo + 1, fromSeq - m.snapshot.seqNo);
  }

  /** An Update: one more entry, Seq + 1, same snapshot and schema. */
  predicate Appends(a: Manifest, b: Manifest) {
    && |b.log| == |a.log| + 1 && b.log[..|a.log|] == a.log
    && b.seqNo == a.seqNo + 1
    && b.snapshot == a.snapshot && b.schema == a.schema
  }

  /** A compaction, push or migration: same Seq, empty log, schema not lower. */
  predicate Swaps(a: Manifest, b: Manifest) {
    && b.log == [] && b.seqNo == a.seqNo && b.snapshot.seqNo == a.seqNo && b.schema >= a.schema
  }

  predicate Linked(hist: seq<Manifest>, i: int)
    requires 1 <= i < |hist|
  {
    Appends(hist[i - 1], hist[i]) || Swaps(hist[i - 1], hist[i])
  }

  ghost predicate FreshSnapshots(hist: seq<Manifest>) {
    forall i, j :: 0 <= i < j < |hist| && hist[j].log == [] ==> hist[i].snapshot.key != hist[j].snapshot.key
  }

  ghost predicate Disciplined(hist: seq<Manifest>) {
    && (forall i :: 0 <= i < |hist| ==> ValidManifest(hist[i]) && hist[i].formatVersion == FORMAT_VERSION)
    && (hist != [] ==> hist[0].log == [])
    && (forall i :: 1 <= i < |hist| ==> Linked(hist, i))
    && FreshSnapshots(hist)
  }

  /** History prefix lemma: manifests that share a snapshot key are one run of appends, so the
      older log is a prefix of the newer one and nothing else about them differs. */
  lemma {:induction false} SameEpochIsPrefix(hist: seq<Manifest>, i: nat, j: nat)
    requires Disciplined(hist) && i <= j < |hist|
    requires hist[i].snapshot.key == hist[j].snapshot.key
    ensures hist[i].snapshot == hist[j].snapshot && hist[i].schema == hist[j].schema
    ensures |hist[j].log| == |hist[i].log| + (j - i) && hist[j].seqNo == hist[i].seqNo + (j - i)
    ensures hist[j].log[..|hist[i].log|] == hist[i].log
    ensures forall k :: i <= k <= j ==> hist[k].snapshot.key == hist[j].snapshot.key
    decreases j
  {
    if i < j {
      assert hist[j].log != [] && Linked(hist, j);
      SameEpochIsPrefix(hist, i, j - 1);
      assert hist[j].log[..|hist[i].log|] == hist[j].log[..|hist[j - 1].log|][..|hist[i].log|];
    }
  }

  /** Three positions of one epoch: what lies between the first two is a slice of the last log. */
  lemma EpochSlice(hist: seq<Manifest>, i: nat, j: nat, n: nat)
    requires Disciplined(hist) && i <= j <= n < |hist| && hist[i].snapshot.key == hist[n].snapshot.key
    ensures hist[j].snapshot.key == hist[n].snapshot.key
    ensures |hist[i].log| + (j - i) == |hist[j].log| <= |hist[n].log| == |hist[i].log| + (n - i)
    ensures hist[j].seqNo == hist[i].seqNo + (j - i) && hist[i].seqNo == hist[n].snapshot.seqNo + |hist[i].log|
    ensures Need(hist[n].log, hist[i].seqNo) == hist[n].log[|hist[i].log|..]
    ensures hist[j].log[|hist[i].log|..] == hist[n].log[|hist[i].log|..][..j - i]
    ensures forall k :: 0 <= k < |hist[n].log| ==> hist[n].log[k].seqNo == hist[n].snapshot.seqNo + 1 + k
  {
    SameEpochIsPrefix(hist, i, n);
    SameEpochIsPrefix(hist, i, j);
    SameEpochIsPrefix(hist, j, n);
    assert ValidManifest(hist[i]) && ValidManifest(hist[n]);
    NeedOfValid(hist[n], hist[i].seqNo);
    forall k | 0 <= k < |hist[n].log| ensures hist[n].log[k].seqNo == hist[n].snapshot.seqNo + 1 + k {
      assert ValidEntry(hist[n], k);
    }
  }

  /** The unread suffix of the last log starts with the entry the next position added. */
  lemma NextPosition(hist: seq<Manifest>, i: nat, n: nat)
    requires Disciplined(hist) && i <= n < |hist| && hist[i].snapshot.key == hist[n].snapshot.key
    requires |hist[i].log| <= |hist[n].log| && hist[n].log[|hist[i].log|..] != []
    ensures i < n && hist[i + 1].snapshot.key == hist[n].snapshot.key
              && |hist[i + 1].log| == |hist[i].log| + 1 <= |hist[n].log|
    ensures hist[i + 1].log[|hist[i].log|..] == [hist[n].log[|hist[i].log|..][0]]
    ensures hist[n].log[|hist[i].log|..][1..] == hist[n].log[|hist[i + 1].log|..]
  {
    EpochSlice(hist, i, i, n);
    EpochSlice(hist, i, i + 1, n);
  }

  /** The epoch of a manifest started with an empty log, |log| steps earlier. */
  lemma {:induction false} EpochStart(hist: seq<Manifest>, j: nat)
    requires Disciplined(hist) && j < |hist|
    ensures |hist[j].log| <= j
    ensures hist[j - |hist[j].log|].snapshot == hist[j].snapshot && hist[j - |hist[j].log|].log == []
    decreases j
  {
    if hist[j].log != [] {
      assert Linked(hist, j);
      EpochStart(hist, j - 1);
    }
  }

  /** Seq and schema version never go backward. */
  lemma {:induction false} Monotone(hist: seq<Manifest>, i: nat, j: nat)
    requires Disciplined(hist) && i <= j < |hist|
    ensures hist[i].seqNo <= hist[j].seqNo && hist[i].schema <= hist[j].schema
    decreases j
  {
    if i < j {
      Monotone(hist, i, j - 1);
      assert Linked(hist, j);
    }
  }

  /** No ABA: no two manifests of a history have equal content, so equal ETags mean the same
      position. */
  lemma NoAba(hist: seq<Manifest>, i: nat, j: nat)
    requires Disciplined(hist) && i < |hist| && j < |hist|
    ensures Md5(hist[i]) == Md5(hist[j]) <==> i == j
  {
    if i < j && hist[i] == hist[j] {
      SameEpochIsPrefix(hist, i, j);
    } else if j < i && hist[i] == hist[j] {
      SameEpochIsPrefix(hist, j, i);
    }
  }

  /** Equal Seq at two positions means that no changeset was committed in between. */
  lemma EqualSeqMeansNoAppend(hist: seq<Manifest>, i: nat, j: nat)
    requires Disciplined(hist) && i <= j < |hist| && hist[i].seqNo == hist[j].seqNo
    ensures forall k :: i < k <= j ==> hist[k].seqNo == hist[i].seqNo && Swaps(hist[k - 1], hist[k])
  {
    forall k | i < k <= j ensures hist[k].seqNo == hist[i].seqNo && Swaps(hist[k - 1], hist[k]) {
      Monotone(hist, i, k - 1);
      Monotone(hist, k, j);
      Monotone(hist, k - 1, k);
      assert Linked(hist, k);
    }
  }

  /** Seq together with the snapshot key does pin down the position. */
  lemma SeqAndSnapshotPinPosition(hist: seq<Manifest>, i: nat, j: nat)
    requires Disciplined(hist) && i <= j < |hist|
    ensures hist[i].seqNo == hist[j].seqNo && hist[i].snapshot.key == hist[j].snapshot.key <==> i == j
  {
    if hist[i].snapshot.key == hist[j].snapshot.key {
      SameEpochIsPrefix(hist, i, j);
    }
  }

  /** Extending a disciplined history by one manifest. */
  lemma ExtendHistory(hist: seq<Manifest>, m: Manifest)
    requires Disciplined(hist)
    requires ValidManifest(m) && m.formatVersion == FORMAT_VERSION
    requires hist == [] ==> m.log == []
    requires hist != [] ==> Appends(hist[|hist| - 1], m) || Swaps(hist[|hist| - 1], m)
    requires m.log == [] ==> forall i :: 0 <= i < |hist| ==> hist[i].snapshot.key != m.snapshot.key
    ensures Disciplined(hist + [m])
  {
    var h := hist + [m];
    assert forall i :: 0 <= i < |hist| ==> h[i] == hist[i];
    forall i | 1 <= i < |h| ensures Linked(h, i) {
      if i < |hist| {
        assert Linked(hist, i);
      }
    }
  }

  /** The two protocol writes keep a history disciplined. */
  lemma AppendIsDisciplined(m: Manifest, e: LogEntry)
    requires ValidManifest(m) && m.formatVersion == FORMAT_VERSION
    requires e.key != NoKey && e.seqNo == m.seqNo + 1
    ensures ValidManifest(Stamped(AppendLog(m, e))) && Appends(m, Stamped(AppendLog(m, e)))
  {
    var n := Stamped(AppendLog(m, e));
    forall i | 0 <= i < |n.log| ensures ValidEntry(n, i) {
      if i < |m.log| {
        assert ValidEntry(m, i);
      }
    }
  }
}
