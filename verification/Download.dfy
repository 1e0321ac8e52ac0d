/** The parallel snapshot download: the byte ranges, the writers that share one file, and every
    interleaving of their writes. */
module Download {
  newtype Byte = x: int | 0 <= x < 256
  type Bytes = seq<Byte>

  function Min(a: int, b: int): int {
    if a < b then a else b
  }

  // ---------------------------------------------------------------- ranges

  /** The number of ranges really used, and their length. */
  function Parts(size: nat, parts: nat): nat
    requires parts >= 1
  {
    if size / parts == 0 then 1 else parts
  }

  function ChunkSize(size: nat, parts: nat): nat
    requires parts >= 1
  {
    if size / parts == 0 then size else size / parts
  }

  function Start(size: nat, parts: nat, i: nat): nat
    requires parts >= 1
  {
    i * ChunkSize(size, parts)
  }

  /** Inclusive, as in an HTTP range; the last part takes the remainder. */
  function End(size: nat, parts: nat, i: nat): int
    requires parts >= 1
  {
    if i == Parts(size, parts) - 1 then size - 1 else Start(size, parts, i) + ChunkSize(size, parts) - 1
  }

  predicate Covers(size: nat, parts: nat, i: nat, x: int)
    requires parts >= 1
  {
    i < Parts(size, parts) && Start(size, parts, i) <= x <= End(size, parts, i)
  }

  lemma ProductGrows(a: nat, b: nat, c: nat)
    requires a <= b
    ensures a * c <= b * c
  {
  }

  lemma ChunksFit(size: nat, parts: nat)
    requires parts >= 1
    ensures ChunkSize(size, parts) * Parts(size, parts) <= size
    ensures size > 0 ==> ChunkSize(size, parts) > 0
  {
    if size / parts == 0 {
      assert size < parts || size == 0;
    }
  }

  /** Part `i` is a sub-range of [0, size), the last one ends it, and the next one starts where it
      ends. */
  lemma PartBounds(size: nat, parts: nat, i: nat)
    requires parts >= 1 && i < Parts(size, parts)
    ensures 0 <= Start(size, parts, i) <= End(size, parts, i) + 1 <= size
    ensures i + 1 < Parts(size, parts) ==> End(size, parts, i) + 1 == Start(size, parts, i + 1)
    ensures i + 1 == Parts(size, parts) ==> End(size, parts, i) + 1 == size
  {
    var n, c := Parts(size, parts), ChunkSize(size, parts);
    ChunksFit(size, parts);
    ProductGrows(i + 1, n, c);
    assert (i + 1) * c == i * c + c;
  }

  lemma PartsInOrder(size: nat, parts: nat, i: nat, j: nat)
    requires parts >= 1 && i < j < Parts(size, parts)
    ensures End(size, parts, i) < Start(size, parts, j)
  {
    PartBounds(size, parts, i);
    ProductGrows(i + 1, j, ChunkSize(size, parts));
  }

  /** The ranges tile [0, size): every byte belongs to exactly one part. */
  lemma RangesTile(size: nat, parts: nat, x: int)
    requires parts >= 1
    ensures (exists i: nat :: Covers(size, parts, i, x)) <==> 0 <= x < size
    ensures forall i: nat, j: nat :: Covers(size, parts, i, x) && Covers(size, parts, j, x) ==> i == j
  {
    forall i: nat | Covers(size, parts, i, x) ensures 0 <= x < size {
      PartBounds(size, parts, i);
    }
    if 0 <= x < size {
      var i := PartOf(size, parts, x);
    }
    forall i: nat, j: nat | Covers(size, parts, i, x) && Covers(size, parts, j, x) ensures i == j {
      if i < j {
        PartsInOrder(size, parts, i, j);
      } else if j < i {
        PartsInOrder(size, parts, j, i);
      }
    }
  }

  /** The part a byte belongs to, found by walking from the last part down. */
  lemma PartOf(size: nat, parts: nat, x: int) returns (i: nat)
    requires parts >= 1 && 0 <= x < size
    ensures Covers(size, parts, i, x)
  {
    i := Parts(size, parts) - 1;
    PartBounds(size, parts, i);
    while x < Start(size, parts, i)
      invariant i < Parts(size, parts) && x <= End(size, parts, i)
    {
      assert i > 0;
      i := i - 1;
      PartBounds(size, parts, i);
    }
  }

  // ---------------------------------------------------------------- the store's side

  /** `GetRange` with an exact, clamped range. */
  function GetRange(body: Bytes, start: nat, end: int): Bytes
    requires end >= start - 1
  {
    if start >= |body| then [] else body[start..Min(end, |body| - 1) + 1]
  }

  /** Which parts the store answers with the whole object instead of the range. */
  type Answers = nat -> bool

  /** What one goroutine copies: the range it asked for, or everything. */
  function Served(body: Bytes, size: nat, parts: nat, i: nat, whole: Answers): Bytes
    requires parts >= 1 && i < Parts(size, parts)
  {
    PartBounds(size, parts, i);
    if whole(i) then body else GetRange(body, Start(size, parts, i), End(size, parts, i))
  }

  // ---------------------------------------------------------------- the file

  /** `WriteAt`: overwrite in place; a write past the end extends the file with zeros. */
  function Written(data: Bytes, p: Bytes, offset: nat): (r: Bytes)
    ensures p != [] ==> |r| == if offset + |p| > |data| then offset + |p| else |data|
    ensures p == [] ==> r == data
    ensures forall x :: 0 <= x < |r| ==>
              r[x] == if offset <= x < offset + |p| then p[x - offset] else if x < |data| then data[x] else 0
  {
    if p == [] then data
    else
      seq(if offset + |p| > |data| then offset + |p| else |data|,
          (x: int) requires 0 <= x < (if offset + |p| > |data| then offset + |p| else |data|) =>
            if offset <= x < offset + |p| then p[x - offset] else if x < |data| then data[x] else 0)
  }

  class File {
    var data: Bytes

    constructor ()
      ensures data == []
    {
      data := [];
    }

    method WriteAt(p: Bytes, offset: nat)
      modifies this
      ensures data == Written(old(data), p, offset)
    {
      data := Written(data, p, offset);
    }
  }

  // ---------------------------------------------------------------- interleavings

  /** One step of a schedule: goroutine `part` copies up to `count` more bytes. */
  datatype Turn = Turn(part: nat, count: nat)

  /** The goroutines: where each one writes, and what it is sent. */
  datatype Jobs = Jobs(starts: seq<nat>, streams: seq<Bytes>)

  predicate Counts(jobs: Jobs, sent: seq<nat>) {
    |jobs.starts| == |jobs.streams| == |sent| && forall i :: 0 <= i < |sent| ==> sent[i] <= |jobs.streams[i]|
  }

  predicate AllSent(jobs: Jobs, sent: seq<nat>)
    requires |jobs.streams| == |sent|
  {
    forall i :: 0 <= i < |sent| ==> sent[i] == |jobs.streams[i]|
  }

  /** Has goroutine `i` written byte `x`? */
  predicate Wrote(jobs: Jobs, sent: seq<nat>, i: nat, x: int) {
    i < |jobs.starts| == |sent| && jobs.starts[i] <= x < jobs.starts[i] + sent[i]
  }

  predicate ByteOk(data: Bytes, body: Bytes, x: int) {
    0 <= x < |data| && x < |body| && data[x] == body[x]
  }

  /** A stream that is a piece of the blob, sent to where it belongs. */
  predicate InPlace(body: Bytes, limit: nat, start: nat, stream: Bytes) {
    && (stream != [] ==> start + |stream| <= limit)
    && forall y :: 0 <= y < |stream| ==> start + y < |body| && stream[y] == body[start + y]
  }

  predicate AllInPlace(body: Bytes, limit: nat, jobs: Jobs) {
    && limit <= |body| && |jobs.starts| == |jobs.streams|
    && forall i :: 0 <= i < |jobs.starts| ==> InPlace(body, limit, jobs.starts[i], jobs.streams[i])
  }

  /** Every byte in the file that some goroutine has written is the blob's byte. */
  ghost predicate Faithful(data: Bytes, body: Bytes, limit: nat, jobs: Jobs, sent: seq<nat>) {
    |data| <= limit && forall i: nat, x :: Wrote(jobs, sent, i, x) ==> ByteOk(data, body, x)
  }

  /** The file reaches at least as far as each goroutine has written. */
  ghost predicate Reaches(data: Bytes, jobs: Jobs, sent: seq<nat>) {
    forall i: nat, x :: Wrote(jobs, sent, i, x) ==> x < |data|
  }

  /** What holds between any two writes. */
  ghost predicate Underway(data: Bytes, body: Bytes, limit: nat, jobs: Jobs, sent: seq<nat>) {
    && Counts(jobs, sent) && Reaches(data, jobs, sent)
    && (AllInPlace(body, limit, jobs) ==> Faithful(data, body, limit, jobs, sent))
  }

  /** Writing the blob's own bytes in place spoils nothing. */
  lemma WriteKeepsBytes(data: Bytes, body: Bytes, p: Bytes, offset: nat, limit: nat)
    requires |data| <= limit <= |body| && InPlace(body, limit, offset, p)
    ensures var r := Written(data, p, offset);
            && |r| <= limit
            && (forall x :: ByteOk(data, body, x) ==> ByteOk(r, body, x))
            && (forall x :: offset <= x < offset + |p| ==> ByteOk(r, body, x))
  {
  }

  lemma TurnKeepsFaithful(data: Bytes, body: Bytes, limit: nat, jobs: Jobs, sent: seq<nat>, i: nat, p: Bytes)
    requires Counts(jobs, sent) && AllInPlace(body, limit, jobs) && Faithful(data, body, limit, jobs, sent)
    requires i < |sent| && sent[i] + |p| <= |jobs.streams[i]| && p == jobs.streams[i][sent[i]..sent[i] + |p|]
    ensures Faithful(Written(data, p, jobs.starts[i] + sent[i]), body, limit, jobs, sent[i := sent[i] + |p|])
  {
    var offset := jobs.starts[i] + sent[i];
    assert InPlace(body, limit, jobs.starts[i], jobs.streams[i]);
    WriteKeepsBytes(data, body, p, offset, limit);
    var r, next := Written(data, p, offset), sent[i := sent[i] + |p|];
    forall j: nat, x | Wrote(jobs, next, j, x) ensures ByteOk(r, body, x) {
      if j != i || x < offset {
        assert Wrote(jobs, sent, j, x);
      }
    }
  }

  lemma TurnKeepsReaching(data: Bytes, jobs: Jobs, sent: seq<nat>, i: nat, p: Bytes)
    requires Reaches(data, jobs, sent) && i < |jobs.starts| == |sent|
    ensures Reaches(Written(data, p, jobs.starts[i] + sent[i]), jobs, sent[i := sent[i] + |p|])
  {
    var offset := jobs.starts[i] + sent[i];
    var r, next := Written(data, p, offset), sent[i := sent[i] + |p|];
    forall j: nat, x | Wrote(jobs, next, j, x) ensures x < |r| {
      if j != i || x < offset {
        assert Wrote(jobs, sent, j, x);
      }
    }
  }

  lemma TurnKeeps(data: Bytes, body: Bytes, limit: nat, jobs: Jobs, sent: seq<nat>, i: nat, p: Bytes)
    requires Underway(data, body, limit, jobs, sent)
    requires i < |sent| && sent[i] + |p| <= |jobs.streams[i]| && p == jobs.streams[i][sent[i]..sent[i] + |p|]
    ensures Underway(Written(data, p, jobs.starts[i] + sent[i]), body, limit, jobs, sent[i := sent[i] + |p|])
  {
    TurnKeepsReaching(data, jobs, sent, i, p);
    if AllInPlace(body, limit, jobs) {
      TurnKeepsFaithful(data, body, limit, jobs, sent, i, p);
    }
  }

  /** One turn of one goroutine: read a piece of its stream and write it at its offset. */
  method CopyPiece(dst: File, ghost body: Bytes, ghost limit: nat, jobs: Jobs, sent: seq<nat>, turn: Turn)
      returns (next: seq<nat>)
    requires Underway(dst.data, body, limit, jobs, sent)
    modifies dst
    ensures Underway(dst.data, body, limit, jobs, next) && |next| == |sent|
    ensures turn.part >= |sent| || jobs.streams[turn.part] == [] ==> dst.data == old(dst.data)
    ensures forall i :: 0 <= i < |sent| ==>
              next[i] == if i == turn.part then Min(sent[i] + turn.count, |jobs.streams[i]|) else sent[i]
  {
    var i := turn.part;
    if i >= |sent| {
      return sent;
    }
    var to := Min(sent[i] + turn.count, |jobs.streams[i]|);
    var p := jobs.streams[i][sent[i]..to];
    TurnKeeps(dst.data, body, limit, jobs, sent, i, p);
    dst.WriteAt(p, jobs.starts[i] + sent[i]);
    next := sent[i := sent[i] + |p|];
  }

  /** How many bytes a schedule lets part `i` copy. */
  function Allotted(schedule: seq<Turn>, i: nat): nat {
    if schedule == [] then 0
    else
      var last := schedule[|schedule| - 1];
      Allotted(schedule[..|schedule| - 1], i) + (if last.part == i then last.count else 0)
  }

  /** All goroutines, interleaved as the schedule says; success means that all of them finished. */
  method CopyAll(dst: File, ghost body: Bytes, ghost limit: nat, jobs: Jobs, schedule: seq<Turn>)
      returns (ok: bool, ghost sent: seq<nat>)
    requires dst.data == [] && |jobs.starts| == |jobs.streams|
    modifies dst
    ensures Underway(dst.data, body, limit, jobs, sent) && (ok <==> AllSent(jobs, sent))
    ensures ok <==> forall i :: 0 <= i < |jobs.streams| ==> Allotted(schedule, i) >= |jobs.streams[i]|
    ensures (forall i :: 0 <= i < |jobs.streams| ==> jobs.streams[i] == []) ==> dst.data == []
  {
    var count: seq<nat> := seq(|jobs.streams|, _ => 0);
    assert schedule[..|schedule|] == schedule;
    for t := 0 to |schedule|
      invariant Underway(dst.data, body, limit, jobs, count)
      invariant forall i :: 0 <= i < |count| ==> count[i] == Min(Allotted(schedule[..t], i), |jobs.streams[i]|)
      invariant (forall i :: 0 <= i < |jobs.streams| ==> jobs.streams[i] == []) ==> dst.data == []
    {
      assert schedule[..t + 1][..t] == schedule[..t];
      count := CopyPiece(dst, body, limit, jobs, count, schedule[t]);
    }
    sent := count;
    ok := AllSent(jobs, count);
  }

  // ---------------------------------------------------------------- the whole download

  /** Every part after the first is answered with its range. */
  predicate RangesHonoured(size: nat, parts: nat, whole: Answers)
    requires parts >= 1
  {
    forall i: nat :: 0 < i < Parts(size, parts) ==> !whole(i)
  }

  /** How much of the blob the parts cover: all of it if the first one gets the whole object, else
      what lies below the size hint. */
  function Limit(body: Bytes, size: nat, whole: Answers): nat {
    if whole(0) then |body| else Min(size, |body|)
  }

  /** One goroutine for each part. */
  ghost predicate JobsOf(jobs: Jobs, body: Bytes, size: nat, parts: nat, whole: Answers)
    requires parts >= 1
  {
    && |jobs.starts| == |jobs.streams| == Parts(size, parts)
    && forall i :: 0 <= i < |jobs.starts| ==>
         jobs.starts[i] == Start(size, parts, i) && jobs.streams[i] == Served(body, size, parts, i, whole)
  }

  method StartParts(body: Bytes, size: nat, parts: nat, whole: Answers) returns (jobs: Jobs)
    requires parts >= 1
    ensures JobsOf(jobs, body, size, parts, whole)
  {
    jobs := Jobs([], []);
    for i := 0 to Parts(size, parts)
      invariant |jobs.starts| == |jobs.streams| == i
      invariant forall j :: 0 <= j < i ==>
                  jobs.starts[j] == Start(size, parts, j) && jobs.streams[j] == Served(body, size, parts, j, whole)
    {
      jobs := Jobs(jobs.starts + [Start(size, parts, i)], jobs.streams + [Served(body, size, parts, i, whole)]);
    }
  }

  lemma ServedBytes(body: Bytes, size: nat, parts: nat, i: nat, whole: Answers)
    requires parts >= 1 && i < Parts(size, parts) && RangesHonoured(size, parts, whole)
    ensures var p, start := Served(body, size, parts, i, whole), Start(size, parts, i);
            && InPlace(body, Limit(body, size, whole), start, p)
            && (forall x :: Covers(size, parts, i, x) && x < |body| ==> x < start + |p|)
            && (whole(0) && i == 0 ==> start == 0 && p == body)
  {
    PartBounds(size, parts, i);
  }

  lemma PartsInPlace(body: Bytes, size: nat, parts: nat, whole: Answers, jobs: Jobs)
    requires parts >= 1 && JobsOf(jobs, body, size, parts, whole) && RangesHonoured(size, parts, whole)
    ensures AllInPlace(body, Limit(body, size, whole), jobs)
  {
    forall i | 0 <= i < |jobs.starts|
      ensures InPlace(body, Limit(body, size, whole), jobs.starts[i], jobs.streams[i])
    {
      ServedBytes(body, size, parts, i, whole);
    }
  }

  lemma SentBytes(data: Bytes, body: Bytes, size: nat, parts: nat, whole: Answers, jobs: Jobs, sent: seq<nat>, x: nat)
    requires parts >= 1 && JobsOf(jobs, body, size, parts, whole) && RangesHonoured(size, parts, whole)
    requires |jobs.streams| == |sent| && AllSent(jobs, sent) && x < Limit(body, size, whole)
    requires Faithful(data, body, Limit(body, size, whole), jobs, sent)
    ensures ByteOk(data, body, x)
  {
    var i := 0;
    if !whole(0) {
      i := PartOf(size, parts, x);
    }
    ServedBytes(body, size, parts, i, whole);
    assert sent[i] == |jobs.streams[i]|;
    assert Wrote(jobs, sent, i, x);
  }

  lemma AllSentIsBlob(data: Bytes, body: Bytes, size: nat, parts: nat, whole: Answers, jobs: Jobs, sent: seq<nat>)
    requires parts >= 1 && JobsOf(jobs, body, size, parts, whole) && RangesHonoured(size, parts, whole)
    requires |jobs.streams| == |sent| && AllSent(jobs, sent)
    requires Faithful(data, body, Limit(body, size, whole), jobs, sent)
    ensures data == body[..Limit(body, size, whole)]
  {
    if |data| < Limit(body, size, whole) {
      SentBytes(data, body, size, parts, whole, jobs, sent, |data|);
    }
    forall x | 0 <= x < |data| ensures data[x] == body[x] {
      SentBytes(data, body, size, parts, whole, jobs, sent, x);
    }
  }

  /** A later part that got the whole object leaves a file longer than the blob. */
  lemma OverrunIsWrong(data: Bytes, body: Bytes, size: nat, parts: nat, whole: Answers, jobs: Jobs, sent: seq<nat>,
        i: nat)
    requires parts >= 1 && JobsOf(jobs, body, size, parts, whole) && 0 < i < Parts(size, parts) && whole(i)
               && body != []
    requires |jobs.streams| == |sent| && AllSent(jobs, sent) && Reaches(data, jobs, sent)
    ensures |data| > |body|
  {
    assert sent[i] == |jobs.streams[i]| == |body|;
    ChunksFit(size, parts);
    ProductGrows(1, i, ChunkSize(size, parts));
    assert Wrote(jobs, sent, i, jobs.starts[i] + |body| - 1);
  }

  lemma NothingToSend(size: nat, parts: nat, whole: Answers, jobs: Jobs)
    requires parts >= 1 && JobsOf(jobs, [], size, parts, whole)
    ensures forall i :: 0 <= i < |jobs.streams| ==> jobs.streams[i] == []
  {
  }

  /** The finished file, for every way the store may answer the parts. */
  lemma FinishedFile(data: Bytes, body: Bytes, size: nat, parts: nat, whole: Answers, jobs: Jobs, sent: seq<nat>)
    requires parts >= 1 && JobsOf(jobs, body, size, parts, whole)
    requires Underway(data, body, Limit(body, size, whole), jobs, sent) && AllSent(jobs, sent)
    requires body == [] ==> data == []
    ensures RangesHonoured(size, parts, whole) ==> data == body[..Limit(body, size, whole)]
    ensures data == body <==> body == [] || (RangesHonoured(size, parts, whole) && (whole(0) || size >= |body|))
  {
    if RangesHonoured(size, parts, whole) {
      PartsInPlace(body, size, parts, whole, jobs);
      AllSentIsBlob(data, body, size, parts, whole, jobs, sent);
    } else if body != [] {
      var i: nat :| 0 < i < Parts(size, parts) && whole(i);
      OverrunIsWrong(data, body, size, parts, whole, jobs, sent, i);
    }
  }

  /** `downloadParallel`, for every schedule of the goroutines' writes, any way the streams are cut
      into writes, and any choice of parts that the store answers with the whole object.  The download
      succeeds if every goroutine finishes.  With all ranges honoured the file is then the blob up to
      the size hint; in general it is the blob exactly when it is empty, or no part but the first got
      the whole object and the hint is large enough or the first part did get it. */
  method DownloadParallel(dst: File, body: Bytes, size: nat, parts: nat, whole: Answers, schedule: seq<Turn>)
      returns (ok: bool)
    requires parts >= 1 && dst.data == []
    modifies dst
    ensures ok <==> forall i :: 0 <= i < Parts(size, parts) ==>
              Allotted(schedule, i) >= |Served(body, size, parts, i, whole)|
    ensures ok && RangesHonoured(size, parts, whole) ==> dst.data == body[..Limit(body, size, whole)]
    ensures ok ==> (dst.data == body <==>
              body == [] || (RangesHonoured(size, parts, whole) && (whole(0) || size >= |body|)))
  {
    var jobs := StartParts(body, size, parts, whole);
    if body == [] {
      NothingToSend(size, parts, whole, jobs);
    }
    ghost var sent;
    ok, sent := CopyAll(dst, body, Limit(body, size, whole), jobs, schedule);
    if ok {
      FinishedFile(dst.data, body, size, parts, whole, jobs, sent);
    }
  }

  function Sum(pieces: seq<nat>): nat {
    if pieces == [] then 0 else Sum(pieces[..|pieces| - 1]) + pieces[|pieces| - 1]
  }

  /** `downloadSingle`: one GET, whose stream arrives in pieces of any sizes.  It succeeds exactly if
      the pieces make up the whole object, and leaves a prefix of it otherwise. */
  method DownloadSingle(dst: File, body: Bytes, pieces: seq<nat>) returns (ok: bool)
    requires dst.data == []
    modifies dst
    ensures dst.data == body[..Min(Sum(pieces), |body|)]
    ensures ok <==> dst.data == body
  {
    var sent := 0;
    for t := 0 to |pieces|
      invariant sent == Min(Sum(pieces[..t]), |body|) && dst.data == body[..sent]
    {
      assert pieces[..t + 1][..t] == pieces[..t];
      var k := Min(pieces[t], |body| - sent);
      dst.WriteAt(body[sent..sent + k], sent);
      sent := sent + k;
    }
    assert pieces[..|pieces|] == pieces;
    ok := sent == |body|;
  }

  const PARALLEL_THRESHOLD := 4 * 1024 * 1024
  const PARALLEL_PARTS := 4

  /** `downloadSnapshot`: the parallel form refines the single GET for every size hint that is zero
      (unknown), below the threshold of 4 MiB, or not smaller than the blob. */
  method DownloadSnapshot(dst: File, body: Bytes, size: nat, schedule: seq<Turn>) returns (ok: bool)
    requires dst.data == []
    modifies dst
    ensures ok ==> dst.data == if size >= PARALLEL_THRESHOLD then body[..Min(size, |body|)] else body
    ensures ok ==> (dst.data == body <==> size < PARALLEL_THRESHOLD || size >= |body|)
    ensures ok && size < 4194304 ==> dst.data == body
  {
    if size >= PARALLEL_THRESHOLD {
      ok := DownloadParallel(dst, body, size, PARALLEL_PARTS, _ => false, schedule);
    } else {
      ok := DownloadSingle(dst, body, seq(|schedule|, i requires 0 <= i < |schedule| => schedule[i].count));
    }
  }
}
