/** The key-value store on values: buckets of pairs, newest first, and the shadow map that is written to the file. */
module Buckets {
  import opened Entries
  import opened Protocol

  const BUCKETS := 101

  datatype Option<T> = None | Some(value: T)

  datatype Pair = Pair(key: Bytes, data: Bytes)

  type Bucket = seq<Pair>

  datatype Kv = Kv(buckets: seq<Bucket>, shadow: Map)

  // ----- Hashing -----

  /** Distance of a byte from 'A'; the subtraction is one of bytes and wraps around. */
  function Offset(b: Byte): int {
    if b >= 65 then b as int - 65 else b as int + 191
  }

  function Hash(key: Bytes): (h: nat)
    ensures h < BUCKETS
  {
    if key == [] then 1
    else (Hash(key[..|key| - 1]) * 17004 + Offset(key[|key| - 1])) % BUCKETS
  }

  // ----- One bucket -----

  /** The position of the newest pair with the key, or the length of the bucket. */
  function First(b: Bucket, key: Bytes): (i: nat)
    ensures i <= |b| && (i < |b| ==> b[i].key == key)
    ensures forall j :: 0 <= j < i ==> b[j].key != key
  {
    if b == [] || b[0].key == key then 0 else 1 + First(b[1..], key)
  }

  lemma FirstIs(b: Bucket, key: Bytes, i: nat)
    requires i <= |b| && (i < |b| ==> b[i].key == key)
    requires forall j :: 0 <= j < i ==> b[j].key != key
    ensures First(b, key) == i
  {
  }

  function Lookup(b: Bucket, key: Bytes): Option<Bytes> {
    var i := First(b, key);
    if i < |b| then Some(b[i].data) else None
  }

  function Replaced(b: Bucket, key: Bytes, value: Bytes): Bucket {
    var i := First(b, key);
    if i < |b| then b[i := Pair(key, value)] else b
  }

  function Removed(b: Bucket, key: Bytes): Bucket {
    var i := First(b, key);
    if i < |b| then b[..i] + b[i + 1..] else b
  }

  ghost predicate Unique(b: Bucket) {
    forall i, j :: 0 <= i < j < |b| ==> b[i].key != b[j].key
  }

  lemma LookupPushed(b: Bucket, p: Pair, key: Bytes)
    ensures Lookup([p] + b, key) == if key == p.key then Some(p.data) else Lookup(b, key)
  {
    var c := [p] + b;
    if key == p.key {
      FirstIs(c, key, 0);
    } else {
      var i := First(b, key);
      FirstIs(c, key, 1 + i);
    }
  }

  lemma LookupReplaced(b: Bucket, k: Bytes, value: Bytes, key: Bytes)
    ensures Lookup(Replaced(b, k, value), key) == if key == k && Lookup(b, k).Some? then Some(value) else Lookup(b, key)
    ensures Unique(b) ==> Unique(Replaced(b, k, value))
  {
    FirstIs(Replaced(b, k, value), key, First(b, key));
  }

  /** With unique keys, removing the first match removes the key. */
  lemma LookupRemoved(b: Bucket, k: Bytes, key: Bytes)
    requires Unique(b)
    ensures Unique(Removed(b, k))
    ensures Lookup(Removed(b, k), key) == if key == k then None else Lookup(b, key)
  {
    var c, i, j := Removed(b, k), First(b, k), First(b, key);
    FirstIs(c, key, if key == k then |c| else if i < j then j - 1 else j);
  }

  // ----- The whole store -----

  /** Buckets are addressed by hash, and no key is in a bucket twice. */
  ghost predicate WellFormed(bs: seq<Bucket>) {
    && |bs| == BUCKETS
    && (forall i {:trigger bs[i]} :: 0 <= i < BUCKETS ==> Unique(bs[i]) && Hashed(bs[i], i))
  }

  ghost predicate Hashed(b: Bucket, i: nat) {
    forall j :: 0 <= j < |b| ==> Hash(b[j].key) == i
  }

  /** The buckets answer every lookup as the map does. */
  ghost predicate Refines(bs: seq<Bucket>, m: Map) {
    && |bs| == BUCKETS
    && forall k {:trigger Answers(bs, m, k)} :: Answers(bs, m, k)
  }

  ghost predicate Answers(bs: seq<Bucket>, m: Map, k: Bytes)
    requires |bs| == BUCKETS
  {
    Lookup(bs[Hash(k)], k) == Entry(m, k)
  }

  function Entry(m: Map, k: Bytes): Option<Bytes> {
    if k in m then Some(m[k]) else None
  }

  function Get(bs: seq<Bucket>, key: Bytes): Bytes
    requires |bs| == BUCKETS
  {
    match Lookup(bs[Hash(key)], key)
    case None => INVALID
    case Some(value) => value
  }

  function Pushed(bs: seq<Bucket>, key: Bytes, value: Bytes): (r: seq<Bucket>)
    requires |bs| == BUCKETS
  {
    bs[Hash(key) := [Pair(key, value)] + bs[Hash(key)]]
  }

  function Updated(bs: seq<Bucket>, key: Bytes, value: Bytes): seq<Bucket>
    requires |bs| == BUCKETS
  {
    bs[Hash(key) := Replaced(bs[Hash(key)], key, value)]
  }

  function Erased(bs: seq<Bucket>, key: Bytes): seq<Bucket>
    requires |bs| == BUCKETS
  {
    bs[Hash(key) := Removed(bs[Hash(key)], key)]
  }

  // ----- Requests -----

  /** POST takes a key for missing when its lookup returns the sentinel. */
  function OnPost(s: Kv, key: Bytes, value: Bytes): Kv
    requires |s.buckets| == BUCKETS
  {
    if Get(s.buckets, key) == INVALID
    then Kv(Pushed(s.buckets, key, value), s.shadow[key := value])
    else s
  }

  function OnPut(s: Kv, key: Bytes, value: Bytes): Kv
    requires |s.buckets| == BUCKETS
  {
    if Lookup(s.buckets[Hash(key)], key).Some?
    then Kv(Updated(s.buckets, key, value), s.shadow[key := value])
    else s
  }

  /** DELETE leaves a tombstone in the shadow map. */
  function OnDelete(s: Kv, key: Bytes): Kv
    requires |s.buckets| == BUCKETS
  {
    if Lookup(s.buckets[Hash(key)], key).Some?
    then Kv(Erased(s.buckets, key), s.shadow[key := []])
    else s
  }

  function Execute(s: Kv, op: Operation): (z: Kv)
    requires |s.buckets| == BUCKETS
    ensures |z.buckets| == BUCKETS
  {
    match op
    case NoOp => s
    case Post(k, v) => OnPost(s, k, v)
    case Put(k, v) => OnPut(s, k, v)
    case Delete(k) => OnDelete(s, k)
  }

  function ExecuteAll(s: Kv, entries: Log): (z: Kv)
    requires |s.buckets| == BUCKETS
    ensures |z.buckets| == BUCKETS
  {
    if entries == [] then s
    else Execute(ExecuteAll(s, entries[..|entries| - 1]), entries[|entries| - 1].operation)
  }

  /** The shadow map has every pair, and tombstones for nothing else. */
  ghost predicate Shadows(shadow: Map, m: Map) {
    && (forall k :: k in m ==> k in shadow && shadow[k] == m[k])
    && (forall k :: k in shadow && k !in m ==> shadow[k] == [])
  }

  /** The store stands for the map `m`. */
  ghost predicate Means(s: Kv, m: Map) {
    WellFormed(s.buckets) && Refines(s.buckets, m) && Shadows(s.shadow, m)
  }

  /** A POST finds the sentinel as the value of an existing key. */
  predicate Deceived(m: Map, op: Operation) {
    op.Post? && op.key in m && m[op.key] == INVALID
  }

  lemma PushedRefines(bs: seq<Bucket>, m: Map, key: Bytes, value: Bytes)
    requires WellFormed(bs) && Refines(bs, m)
    ensures Refines(Pushed(bs, key, value), m[key := value])
    ensures WellFormed(Pushed(bs, key, value)) <==> key !in m
  {
    var h, z, n := Hash(key), Pushed(bs, key, value), m[key := value];
    forall k
      ensures Answers(z, n, k)
    {
      assert Answers(bs, m, k);
      LookupPushed(bs[h], Pair(key, value), k);
    }
    var i := First(bs[h], key);
    assert Answers(bs, m, key);
    if key in m {
      assert z[h][0].key == z[h][i + 1].key;
    } else {
      forall j | 0 <= j < BUCKETS
        ensures Unique(z[j]) && Hashed(z[j], j)
      {
        assert Unique(bs[j]) && Hashed(bs[j], j);
      }
    }
  }

  lemma UpdatedRefines(bs: seq<Bucket>, m: Map, key: Bytes, value: Bytes)
    requires WellFormed(bs) && Refines(bs, m)
    ensures WellFormed(Updated(bs, key, value))
    ensures Refines(Updated(bs, key, value), if key in m then m[key := value] else m)
  {
    var h, z := Hash(key), Updated(bs, key, value);
    var n := if key in m then m[key := value] else m;
    assert Answers(bs, m, key);
    forall k
      ensures Answers(z, n, k)
    {
      assert Answers(bs, m, k);
      LookupReplaced(bs[h], key, value, k);
    }
    forall j | 0 <= j < BUCKETS
      ensures Unique(z[j]) && Hashed(z[j], j)
    {
      assert Unique(bs[j]) && Hashed(bs[j], j);
      LookupReplaced(bs[h], key, value, key);
    }
  }

  lemma ErasedRefines(bs: seq<Bucket>, m: Map, key: Bytes)
    requires WellFormed(bs) && Refines(bs, m)
    ensures WellFormed(Erased(bs, key)) && Refines(Erased(bs, key), m - {key})
  {
    var h, z, n := Hash(key), Erased(bs, key), m - {key};
    assert Unique(bs[h]) && Hashed(bs[h], h);
    forall k
      ensures Answers(z, n, k)
    {
      assert Answers(bs, m, k);
      LookupRemoved(bs[h], key, k);
    }
    forall j | 0 <= j < BUCKETS
      ensures Unique(z[j]) && Hashed(z[j], j)
    {
      assert Unique(bs[j]) && Hashed(bs[j], j);
      LookupRemoved(bs[h], key, key);
    }
  }

  /** One operation does to the buckets what it does to a map, unless a POST is deceived by the sentinel:
      then it puts a second pair with the same key into the bucket. */
  lemma ExecuteMeansApply(s: Kv, m: Map, op: Operation)
    requires Means(s, m)
    ensures Means(Execute(s, op), ApplyOne(m, op)) <==> !Deceived(m, op)
    ensures Deceived(m, op) ==> !WellFormed(Execute(s, op).buckets)
  {
    match op
    case NoOp =>
    case Post(k, v) =>
      assert Answers(s.buckets, m, k);
      PushedRefines(s.buckets, m, k, v);
    case Put(k, v) =>
      assert Answers(s.buckets, m, k);
      UpdatedRefines(s.buckets, m, k, v);
    case Delete(k) =>
      assert Answers(s.buckets, m, k);
      ErasedRefines(s.buckets, m, k);
      assert k !in m ==> m - {k} == m;
  }
}
