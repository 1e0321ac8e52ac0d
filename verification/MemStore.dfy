/** `MemBlobStore`, the reference store with real compare-and-swap, and the proof that it is a store
    as the protocol assumes one. */
module MemStore {
  import opened Basics
  import opened Download
  import P = Protocol
  import M = Manifests

  /** A content hash of the body; `NoTag` is the empty string. */
  datatype Tag = NoTag | HashOf(body: Bytes)
  datatype Condition = Condition(ifMatch: Tag, ifNoneMatch: bool)
  datatype PutError = BothConditions | PreconditionFailed

  type Objects = map<string, Bytes>

  // ---------------------------------------------------------------- lexicographic order

  predicate Less(a: string, b: string) {
    b != [] && (a == [] || a[0] < b[0] || (a[0] == b[0] && Less(a[1..], b[1..])))
  }

  lemma {:induction false} LessTrans(a: string, b: string, c: string)
    requires Less(a, b) && Less(b, c)
    ensures Less(a, c)
    decreases |a|
  {
    if a != [] && a[0] == b[0] && b[0] == c[0] {
      LessTrans(a[1..], b[1..], c[1..]);
    }
  }

  lemma {:induction false} LessTotal(a: string, b: string)
    ensures Less(a, b) || a == b || Less(b, a)
    ensures !(Less(a, b) && Less(b, a)) && !(Less(a, b) && a == b)
    decreases |a|
  {
    if a != [] && b != [] && a[0] == b[0] {
      LessTotal(a[1..], b[1..]);
      assert a == [a[0]] + a[1..] && b == [b[0]] + b[1..];
    }
  }

  /** Where two names part, if they do: the first ends there, or has the smaller character. */
  predicate PartsAt(a: string, b: string, i: nat) {
    i <= |a| && i < |b| && a[..i] == b[..i] && (i == |a| || a[i] < b[i])
  }

  lemma {:induction false} LessIsLexicographic(a: string, b: string)
    ensures Less(a, b) <==> exists i :: PartsAt(a, b, i)
    decreases |a|
  {
    if a == [] || b == [] || a[0] < b[0] {
      assert b != [] ==> PartsAt(a, b, 0);
    } else {
      LessIsLexicographic(a[1..], b[1..]);
      if a[0] == b[0] && Less(a[1..], b[1..]) {
        var i: nat :| PartsAt(a[1..], b[1..], i);
        assert a[..i + 1] == [a[0]] + a[1..][..i] && b[..i + 1] == [b[0]] + b[1..][..i];
        assert PartsAt(a, b, i + 1);
      }
      forall i: nat | PartsAt(a, b, i) ensures a[0] == b[0] && exists j :: PartsAt(a[1..], b[1..], j) {
        assert i > 0;
        assert a[0] == a[..i][0] && b[0] == b[..i][0];
        assert a[1..][..i - 1] == a[..i][1..] && b[1..][..i - 1] == b[..i][1..];
        assert PartsAt(a[1..], b[1..], i - 1);
      }
    }
  }

  predicate Sorted(keys: seq<string>) {
    forall i, j :: 0 <= i < j < |keys| ==> Less(keys[i], keys[j])
  }

  /** Insert one name into a sorted listing. */
  method InsertSorted(keys: seq<string>, k: string) returns (r: seq<string>)
    requires Sorted(keys) && k !in keys
    ensures Sorted(r) && forall x :: x in r <==> x in keys || x == k
  {
    var i := 0;
    while i < |keys| && Less(keys[i], k)
      invariant 0 <= i <= |keys|
      invariant forall j :: 0 <= j < i ==> Less(keys[j], k)
    {
      i := i + 1;
    }
    r := keys[..i] + [k] + keys[i..];
    forall j | i <= j < |keys| ensures Less(k, keys[j]) {
      LessTotal(keys[i], k);
      if j > i {
        LessTrans(k, keys[i], keys[j]);
      }
    }
    assert keys == keys[..i] + keys[i..];
  }

  // ---------------------------------------------------------------- the store

  predicate Holds(objects: Objects, key: string, cond: Condition) {
    && (cond.ifNoneMatch ==> key !in objects)
    && (cond.ifMatch != NoTag ==> key in objects && HashOf(objects[key]) == cond.ifMatch)
  }

  class MemBlobStore {
    var objects: Objects

    constructor ()
      ensures objects == map[]
    {
      objects := map[];
    }

    method Get(key: string) returns (r: Option<(Bytes, Tag)>)
      ensures r.Some? <==> key in objects
      ensures r.Some? ==> r.value == (objects[key], HashOf(objects[key]))
    {
      if key !in objects {
        return None;
      }
      return Some((objects[key], HashOf(objects[key])));
    }

    /** Bytes start to end inclusive, clamped to the object: exactly the bytes of the object whose
        position lies in the range. */
    method GetRange(key: string, start: nat, end: int) returns (r: Option<Bytes>)
      requires end >= start - 1
      ensures r.Some? <==> key in objects
      ensures r.Some? ==> r.value == Download.GetRange(objects[key], start, end)
    {
      if key !in objects {
        return None;
      }
      var body, last := objects[key], end;
      if start >= |body| {
        return Some([]);
      }
      if last >= |body| {
        last := |body| - 1;
      }
      return Some(body[start..last + 1]);
    }

    /** Compare-and-swap: the write happens exactly when its condition holds of the object as it is
        at that instant; a refused write changes nothing. */
    method Put(key: string, body: Bytes, cond: Condition) returns (tag: Tag, err: Option<PutError>)
      modifies this
      ensures cond.ifMatch != NoTag && cond.ifNoneMatch <==> err == Some(BothConditions)
      ensures err != Some(BothConditions) ==> (err.None? <==> Holds(old(objects), key, cond))
      ensures err.None? ==> objects == old(objects)[key := body] && tag == HashOf(body) && tag != NoTag
      ensures err.Some? ==> objects == old(objects)
    {
      tag := NoTag;
      if cond.ifMatch != NoTag && cond.ifNoneMatch {
        return NoTag, Some(BothConditions);
      }
      var present := key in objects;
      if cond.ifNoneMatch && present {
        return NoTag, Some(PreconditionFailed);
      }
      if cond.ifMatch != NoTag {
        if !present {
          return NoTag, Some(PreconditionFailed);
        }
        if HashOf(objects[key]) != cond.ifMatch {
          return NoTag, Some(PreconditionFailed);
        }
      }
      objects := objects[key := body];
      return HashOf(body), None;
    }

    /** All names with the prefix, each once, in lexicographic order. */
    method List(prefix: string) returns (keys: seq<string>)
      ensures Sorted(keys) && forall k :: k in keys <==> k in objects && prefix <= k
    {
      keys := [];
      var left := objects.Keys;
      while left != {}
        invariant left <= objects.Keys && Sorted(keys)
        invariant forall k :: k in keys <==> k in objects && k !in left && prefix <= k
        decreases |left|
      {
        var k :| k in left;
        left := left - {k};
        if prefix <= k {
          keys := InsertSorted(keys, k);
        }
      }
    }

    method Delete(key: string)
      modifies this
      ensures objects == old(objects) - {key}
    {
      objects := objects - {key};
    }

    method DeletePrefix(prefix: string)
      modifies this
      ensures objects == map k | k in old(objects) && !(prefix <= k) :: old(objects)[k]
    {
      var left := objects.Keys;
      while left != {}
        invariant left <= old(objects).Keys
        invariant objects == map k | k in old(objects) && (k in left || !(prefix <= k)) :: old(objects)[k]
        decreases |left|
      {
        var k :| k in left;
        left := left - {k};
        if prefix <= k {
          objects := objects - {k};
        }
      }
    }
  }

  // ---------------------------------------------------------------- what the protocol assumes

  /** How the protocol's objects appear in the store: names, and an encoding of manifests and blobs. */
  datatype Layout = Layout(manifestName: string, name: M.Key -> string, manifest: M.Manifest -> Bytes,
      blob: P.Blob -> Bytes)

  ghost predicate Injective(l: Layout) {
    && (forall a, b :: l.name(a) == l.name(b) ==> a == b)
    && (forall a :: l.name(a) != l.manifestName)
    && (forall a, b :: l.manifest(a) == l.manifest(b) ==> a == b)
  }

  /** The objects are the protocol's store: the last manifest under its name, and the live blobs. */
  ghost predicate Represents(l: Layout, o: Objects, s: P.Store) {
    && (l.manifestName in o <==> s.hist != [])
    && (s.hist != [] ==> o[l.manifestName] == l.manifest(s.hist[|s.hist| - 1]))
    && (forall k :: k in s.live ==> k in s.content && l.name(k) in o && o[l.name(k)] == l.blob(s.content[k]))
    && (forall k :: l.name(k) in o ==> k in s.live)
  }

  function Encoded(l: Layout, cond: P.PutCondition): Condition {
    Condition(match cond.ifMatch case NoETag => NoTag case Md5(m) => HashOf(l.manifest(m)), cond.ifNoneMatch)
  }

  /** The conditional manifest write of the protocol is exactly `Put`: it is refused under the same
      condition, and where it lands the objects represent the extended history. */
  lemma ManifestPutRefines(l: Layout, o: Objects, s: P.Store, m: M.Manifest, ev: P.Event, cond: P.PutCondition)
    requires Injective(l) && Represents(l, o, s) && M.ValidManifest(M.Stamped(m))
    ensures Holds(o, l.manifestName, Encoded(l, cond)) <==> P.Lands(s, m, cond, P.Answered)
    ensures Holds(o, l.manifestName, Encoded(l, cond)) ==>
              Represents(l, o[l.manifestName := l.manifest(M.Stamped(m))], P.PutManifest(s, m, ev, cond, P.Answered))
    ensures !Holds(o, l.manifestName, Encoded(l, cond)) ==> Represents(l, o, P.PutManifest(s, m, ev, cond, P.Answered))
  {
  }

  /** An unconditional upload under a fresh name is `Put` with no condition. */
  lemma BlobPutRefines(l: Layout, o: Objects, s: P.Store, k: M.Key, b: P.Blob)
    requires Injective(l) && Represents(l, o, s) && k !in s.content
    ensures Holds(o, l.name(k), Condition(NoTag, false))
    ensures Represents(l, o[l.name(k) := l.blob(b)], P.PutBlob(s, k, b, P.Answered))
  {
    var o2, t := o[l.name(k) := l.blob(b)], P.PutBlob(s, k, b, P.Answered);
    forall j | l.name(j) in o2 ensures j in t.live {
      if j != k {
        assert l.name(j) in o;
      }
    }
  }

  lemma DeleteRefines(l: Layout, o: Objects, s: P.Store, k: M.Key)
    requires Injective(l) && Represents(l, o, s)
    ensures Represents(l, o - {l.name(k)}, P.DeleteBlobs(s, {k}))
  {
    var o2, t := o - {l.name(k)}, P.DeleteBlobs(s, {k});
    forall j | j in t.live ensures l.name(j) in o2 {
      assert j in s.live;
    }
    forall j | l.name(j) in o2 ensures j in t.live {
      assert l.name(j) in o;
    }
  }

  /** Deleting an epoch's prefix is the sweep step of the protocol, if the prefix names exactly that
      epoch. */
  lemma DeletePrefixRefines(l: Layout, o: Objects, s: P.Store, prefix: string, epoch: M.Key)
    requires Injective(l) && Represents(l, o, s)
    requires forall k :: prefix <= l.name(k) <==> k.CsKey? && k.epoch == epoch
    requires !(prefix <= l.manifestName)
    ensures Represents(l, map n | n in o && !(prefix <= n) :: o[n],
                       P.DeleteBlobs(s, set k | k in s.live && k.CsKey? && k.epoch == epoch))
  {
    var o2 := map n | n in o && !(prefix <= n) :: o[n];
    var t := P.DeleteBlobs(s, set k | k in s.live && k.CsKey? && k.epoch == epoch);
    forall j | j in t.live ensures j in t.content && l.name(j) in o2 && o2[l.name(j)] == l.blob(t.content[j]) {
      assert j in s.live;
    }
    forall j | l.name(j) in o2 ensures j in t.live {
      assert l.name(j) in o;
    }
  }
}
