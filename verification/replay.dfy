/** Entries applied again after a crash in the middle of a batch. */
module Replay {
  import opened Entries
  import opened Protocol

  datatype Value = Absent | Present(value: Bytes)

  function Lookup(m: Map, key: Bytes): Value {
    if key in m then Present(m[key]) else Absent
  }

  /** Any number of crashes: after each, the store has seen the first `cuts[i]` entries once more. */
  function Replays(m: Map, entries: Log, cuts: seq<nat>): Map
    requires forall i :: 0 <= i < |cuts| ==> cuts[i] <= |entries|
  {
    if cuts == [] then m
    else ApplyAll(Replays(m, entries, cuts[..|cuts| - 1]), entries[..cuts[|cuts| - 1]])
  }

  predicate Posts(e: LogEntry, key: Bytes) {
    e.operation.Post? && e.operation.key == key
  }

  predicate Puts(e: LogEntry, key: Bytes) {
    e.operation.Put? && e.operation.key == key
  }

  predicate Deletes(e: LogEntry, key: Bytes) {
    e.operation.Delete? && e.operation.key == key
  }

  /** A PUT that misses, then the POST that creates the key with another value, then no PUT and no DELETE. */
  ghost predicate Hazard(entries: Log, key: Bytes) {
    && (forall i :: 0 <= i < |entries| ==> !Deletes(entries[i], key))
    && exists q, p :: HazardAt(entries, key, q, p)
  }

  ghost predicate HazardAt(entries: Log, key: Bytes, q: nat, p: nat) {
    && q < p < |entries|
    && Puts(entries[q], key) && Posts(entries[p], key)
    && entries[q].operation.value != entries[p].operation.value
    && (forall i :: 0 <= i < p ==> !Posts(entries[i], key))
    && (forall i :: q < i < |entries| ==> !Puts(entries[i], key))
  }

  /** Every PUT of the batch finds its key. */
  ghost predicate PutsHit(m: Map, entries: Log) {
    forall i :: 0 <= i < |entries| && entries[i].operation.Put? ==>
      entries[i].operation.key in ApplyAll(m, entries[..i])
  }

  // ----- One key at a time -----

  function KeyOne(v: Value, e: LogEntry, key: Bytes): Value {
    if Deletes(e, key) then Absent
    else if Posts(e, key) && v.Absent? then Present(e.operation.value)
    else if Puts(e, key) && v.Present? then Present(e.operation.value)
    else v
  }

  function KeyAll(v: Value, entries: Log, key: Bytes): Value {
    if entries == [] then v
    else KeyOne(KeyAll(v, entries[..|entries| - 1], key), entries[|entries| - 1], key)
  }

  lemma {:induction false} ApplyIsKeyAll(m: Map, entries: Log, key: Bytes)
    ensures Lookup(ApplyAll(m, entries), key) == KeyAll(Lookup(m, key), entries, key)
  {
    if entries != [] {
      ApplyIsKeyAll(m, entries[..|entries| - 1], key);
    }
  }

  lemma SameMap(x: Map, y: Map)
    requires forall key :: Lookup(x, key) == Lookup(y, key)
    ensures x == y
  {
    forall key
      ensures key in x <==> key in y
      ensures key in x ==> x[key] == y[key]
    {
      assert Lookup(x, key) == Lookup(y, key);
    }
  }

  /** What the PUTs make of a key that exists. */
  function LastPut(entries: Log, key: Bytes, start: Bytes): Bytes {
    if entries == [] then start
    else if Puts(entries[|entries| - 1], key) then entries[|entries| - 1].operation.value
    else LastPut(entries[..|entries| - 1], key, start)
  }

  ghost predicate NoDelete(entries: Log, key: Bytes) {
    forall i :: 0 <= i < |entries| ==> !Deletes(entries[i], key)
  }

  ghost predicate NoPost(entries: Log, key: Bytes) {
    forall i :: 0 <= i < |entries| ==> !Posts(entries[i], key)
  }

  ghost predicate NoPut(entries: Log, key: Bytes) {
    forall i :: 0 <= i < |entries| ==> !Puts(entries[i], key)
  }

  /** After a DELETE the past does not matter. */
  lemma {:induction false} DeleteForgets(v: Value, u: Value, entries: Log, key: Bytes)
    requires !NoDelete(entries, key)
    ensures KeyAll(v, entries, key) == KeyAll(u, entries, key)
  {
    var n := |entries| - 1;
    if !Deletes(entries[n], key) {
      var i :| 0 <= i < |entries| && Deletes(entries[i], key);
      assert entries[..n][i] == entries[i];
      DeleteForgets(v, u, entries[..n], key);
    }
  }

  lemma {:induction false} PresentStays(x: Bytes, entries: Log, key: Bytes)
    requires NoDelete(entries, key)
    ensures KeyAll(Present(x), entries, key) == Present(LastPut(entries, key, x))
  {
    if entries != [] {
      PresentStays(x, entries[..|entries| - 1], key);
    }
  }

  lemma {:induction false} AbsentStays(entries: Log, key: Bytes)
    requires NoDelete(entries, key) && NoPost(entries, key)
    ensures KeyAll(Absent, entries, key) == Absent
  {
    if entries != [] {
      AbsentStays(entries[..|entries| - 1], key);
    }
  }

  lemma {:induction false} KeyAllSplit(v: Value, a: Log, b: Log, key: Bytes)
    ensures KeyAll(v, a + b, key) == KeyAll(KeyAll(v, a, key), b, key)
    decreases |b|
  {
    if b == [] {
      assert a + b == a;
    } else {
      assert (a + b)[..|a + b| - 1] == a + b[..|b| - 1];
      KeyAllSplit(v, a, b[..|b| - 1], key);
    }
  }

  /** Either no PUT touches the key, or the last one decides whatever the key held. */
  lemma {:induction false} LastPutDecides(entries: Log, key: Bytes)
    ensures NoPut(entries, key) ==> forall x :: LastPut(entries, key, x) == x
    ensures !NoPut(entries, key) ==> forall x, y :: LastPut(entries, key, x) == LastPut(entries, key, y)
  {
    if entries != [] {
      var n := |entries| - 1;
      LastPutDecides(entries[..n], key);
      if !Puts(entries[n], key) && !NoPut(entries, key) {
        var i :| 0 <= i < |entries| && Puts(entries[i], key);
        assert entries[..n][i] == entries[i];
      }
    }
  }

  lemma {:induction false} FirstPost(entries: Log, key: Bytes) returns (p: nat)
    requires !NoPost(entries, key)
    ensures p < |entries| && Posts(entries[p], key) && NoPost(entries[..p], key)
  {
    var i :| 0 <= i < |entries| && Posts(entries[i], key);
    if NoPost(entries[..i], key) {
      p := i;
    } else {
      p := FirstPost(entries[..i], key);
      assert entries[..i][..p] == entries[..p];
    }
  }

  /** A key that starts absent: its first POST creates it, and only later PUTs change it. */
  lemma Created(entries: Log, key: Bytes, p: nat)
    requires NoDelete(entries, key) && p < |entries| && Posts(entries[p], key) && NoPost(entries[..p], key)
    ensures KeyAll(Absent, entries, key) == Present(LastPut(entries[p + 1..], key, entries[p].operation.value))
  {
    var a, b := entries[..p], entries[p + 1..];
    AbsentStays(a, key);
    assert entries[..p + 1][..p] == a;
    assert KeyAll(Absent, entries[..p + 1], key) == Present(entries[p].operation.value);
    assert entries == entries[..p + 1] + b;
    KeyAllSplit(Absent, entries[..p + 1], b, key);
    PresentStays(entries[p].operation.value, b, key);
  }

  /** What a key can hold between replays of a batch without DELETEs of it. */
  ghost predicate Between(v: Value, entries: Log, key: Bytes, x: Value) {
    || x == v
    || (x.Present? && (v.Absent? ==> !NoPost(entries, key)) && (v.Present? ==> !NoPut(entries, key))
        && (v.Absent? && NoPut(entries, key) ==> x == KeyAll(v, entries, key)))
  }

  lemma BetweenKept(v: Value, entries: Log, key: Bytes, x: Value, j: nat)
    requires NoDelete(entries, key) && Between(v, entries, key, x) && j <= |entries|
    ensures Between(v, entries, key, KeyAll(x, entries[..j], key))
  {
    var a, b := entries[..j], entries[j..];
    assert entries == a + b;
    if x.Present? {
      PresentStays(x.value, a, key);
      LastPutDecides(a, key);
    } else if NoPost(a, key) {
      AbsentStays(a, key);
    } else {
      var p := FirstPost(a, key);
      Created(a, key, p);
      assert !NoPost(entries, key) by {
        assert entries[p] == a[p];
      }
      if NoPut(entries, key) {
        KeyAllSplit(v, a, b, key);
        PresentStays(KeyAll(v, a, key).value, b, key);
        LastPutDecides(b, key);
      }
    }
  }

  lemma {:induction false} LastPutSplit(a: Log, b: Log, key: Bytes, x: Bytes)
    ensures LastPut(a + b, key, x) == LastPut(b, key, LastPut(a, key, x))
    decreases |b|
  {
    if b == [] {
      assert a + b == a;
    } else {
      assert (a + b)[..|a + b| - 1] == a + b[..|b| - 1];
      LastPutSplit(a, b[..|b| - 1], key, x);
    }
  }

  lemma {:induction false} LastPutAt(entries: Log, key: Bytes, x: Bytes) returns (q: nat)
    requires !NoPut(entries, key)
    ensures q < |entries| && Puts(entries[q], key) && LastPut(entries, key, x) == entries[q].operation.value
    ensures forall i :: q < i < |entries| ==> !Puts(entries[i], key)
  {
    var n := |entries| - 1;
    if Puts(entries[n], key) {
      q := n;
    } else {
      var i :| 0 <= i < |entries| && Puts(entries[i], key);
      assert entries[..n][i] == entries[i];
      q := LastPutAt(entries[..n], key, x);
      forall j | q < j < |entries|
        ensures !Puts(entries[j], key)
      {
        if j < n {
          assert entries[..n][j] == entries[j];
        }
      }
    }
  }

  /** Without the hazard the last PUT, or the POST itself, decides in either case. */
  lemma NoHazard(entries: Log, key: Bytes, x: Bytes)
    requires NoDelete(entries, key) && !NoPost(entries, key) && !NoPut(entries, key) && !Hazard(entries, key)
    ensures KeyAll(Absent, entries, key) == Present(LastPut(entries, key, x))
  {
    var p := FirstPost(entries, key);
    var a, b := entries[..p + 1], entries[p + 1..];
    var v := entries[p].operation.value;
    Created(entries, key, p);
    assert entries == a + b;
    LastPutSplit(a, b, key, x);
    LastPutDecides(b, key);
    if NoPut(b, key) {
      var q := LastPutAt(entries, key, x);
      forall i | p < i < |entries|
        ensures !Puts(entries[i], key)
      {
        assert b[i - (p + 1)] == entries[i];
      }
      forall i | 0 <= i < p
        ensures !Posts(entries[i], key)
      {
        assert entries[..p][i] == entries[i];
      }
      assert !HazardAt(entries, key, q, p);
    }
  }

  /** From anything in between, the whole batch leads to the same value, unless the key is a hazard. */
  lemma BetweenEnds(v: Value, entries: Log, key: Bytes, x: Value)
    requires NoDelete(entries, key) && Between(v, entries, key, x)
    requires v.Absent? ==> !Hazard(entries, key)
    ensures KeyAll(x, entries, key) == KeyAll(v, entries, key)
  {
    if x != v {
      PresentStays(x.value, entries, key);
      LastPutDecides(entries, key);
      if v.Present? {
        PresentStays(v.value, entries, key);
      } else if !NoPut(entries, key) {
        NoHazard(entries, key, x.value);
      }
    }
  }

  ghost predicate Cuts(entries: Log, cuts: seq<nat>) {
    forall i :: 0 <= i < |cuts| ==> cuts[i] <= |entries|
  }

  lemma {:induction false} ReplaysBetween(m: Map, entries: Log, cuts: seq<nat>, key: Bytes)
    requires Cuts(entries, cuts) && NoDelete(entries, key)
    ensures Between(Lookup(m, key), entries, key, Lookup(Replays(m, entries, cuts), key))
    decreases |cuts|
  {
    if cuts != [] {
      var n := |cuts| - 1;
      var y := Replays(m, entries, cuts[..n]);
      ReplaysBetween(m, entries, cuts[..n], key);
      BetweenKept(Lookup(m, key), entries, key, Lookup(y, key), cuts[n]);
      ApplyIsKeyAll(y, entries[..cuts[n]], key);
    }
  }

  ghost predicate Hazardous(m: Map, entries: Log) {
    exists key :: key !in m && Hazard(entries, key)
  }

  /** Re-applying the batch after any crashes gives the store one pass gives. */
  lemma ReplaysHarmless(m: Map, entries: Log, cuts: seq<nat>)
    requires Cuts(entries, cuts) && !Hazardous(m, entries)
    ensures ApplyAll(Replays(m, entries, cuts), entries) == ApplyAll(m, entries)
  {
    var y := Replays(m, entries, cuts);
    forall key
      ensures Lookup(ApplyAll(y, entries), key) == Lookup(ApplyAll(m, entries), key)
    {
      ApplyIsKeyAll(y, entries, key);
      ApplyIsKeyAll(m, entries, key);
      if NoDelete(entries, key) {
        ReplaysBetween(m, entries, cuts, key);
        BetweenEnds(Lookup(m, key), entries, key, Lookup(y, key));
      } else {
        DeleteForgets(Lookup(y, key), Lookup(m, key), entries, key);
      }
    }
    SameMap(ApplyAll(y, entries), ApplyAll(m, entries));
  }

  lemma OnePass(m: Map, entries: Log)
    ensures Replays(m, entries, [|entries|]) == ApplyAll(m, entries)
  {
    assert entries[..|entries|] == entries;
    assert [|entries|][..0] == [];
    assert Replays(m, entries, []) == m;
  }

  /** A hazard shows as soon as the whole batch is applied twice. */
  lemma HazardHarms(m: Map, entries: Log, key: Bytes)
    requires key !in m && Hazard(entries, key)
    ensures ApplyAll(Replays(m, entries, [|entries|]), entries) != ApplyAll(m, entries)
  {
    var q: nat, p: nat :| HazardAt(entries, key, q, p);
    OnePass(m, entries);
    ApplyIsKeyAll(m, entries, key);
    ApplyIsKeyAll(ApplyAll(m, entries), entries, key);
    Created(entries, key, p);
    LastPutDecides(entries[p + 1..], key);
    PresentStays(entries[p].operation.value, entries, key);
    var q2 := LastPutAt(entries, key, entries[p].operation.value);
    assert q2 == q;
  }

  /** Crash replay is harmless exactly when the batch has no hazard for a key the store lacks. */
  lemma ReplayHarmlessIff(m: Map, entries: Log)
    ensures (forall cuts :: Cuts(entries, cuts) ==>
               ApplyAll(Replays(m, entries, cuts), entries) == ApplyAll(m, entries))
      <==> !Hazardous(m, entries)
  {
    if Hazardous(m, entries) {
      var key :| key !in m && Hazard(entries, key);
      HazardHarms(m, entries, key);
      assert Cuts(entries, [|entries|]);
    } else {
      forall cuts | Cuts(entries, cuts)
        ensures ApplyAll(Replays(m, entries, cuts), entries) == ApplyAll(m, entries)
      {
        ReplaysHarmless(m, entries, cuts);
      }
    }
  }

  /** If every PUT finds its key in the first pass, there is no hazard. */
  lemma PutsHitNoHazard(m: Map, entries: Log)
    requires PutsHit(m, entries)
    ensures !Hazardous(m, entries)
  {
    forall key | key !in m
      ensures !Hazard(entries, key)
    {
      if Hazard(entries, key) {
        var q: nat, p: nat :| HazardAt(entries, key, q, p);
        ApplyIsKeyAll(m, entries[..q], key);
        AbsentStays(entries[..q], key);
        assert false;
      }
    }
  }

  /** The smallest hazard: PUT a 1 misses, POST a 2 creates, and the second pass overwrites. */
  lemma MissedPut()
    ensures var e := [LogEntry(1, Put([97], [49]), [99]), LogEntry(1, Post([97], [50]), [99])];
      && !PutsHit(map[], e)
      && ApplyAll(map[], e) == map[[97] := [50]]
      && ApplyAll(Replays(map[], e, [2]), e) == map[[97] := [49]]
  {
    var e := [LogEntry(1, Put([97], [49]), [99]), LogEntry(1, Post([97], [50]), [99])];
    assert e[..0] == [] && e[..1] == [e[0]] && e[..2] == e;
    assert e[0].operation.key !in ApplyAll(map[], e[..0]);
    assert [e[0]][..0] == [];
    assert ApplyAll(map[], e[..1]) == map[];
    assert ApplyAll(map[], e) == map[[97] := [50]];
    assert Replays(map[], e, [2]) == ApplyAll(map[], e);
    assert ApplyAll(map[[97] := [50]], e[..1]) == map[[97] := [49]];
  }

  lemma {:induction false} ApplyAllSplit(m: Map, a: Log, b: Log)
    ensures ApplyAll(m, a + b) == ApplyAll(ApplyAll(m, a), b)
    decreases |b|
  {
    if b == [] {
      assert a + b == a;
    } else {
      assert (a + b)[..|a + b| - 1] == a + b[..|b| - 1];
      ApplyAllSplit(m, a, b[..|b| - 1]);
    }
  }

  lemma PutsHitPrefix(m: Map, log: Log, k: nat)
    requires k <= |log| && PutsHit(m, log)
    ensures PutsHit(m, log[..k])
  {
    forall i | 0 <= i < k && log[..k][i].operation.Put?
      ensures log[..k][i].operation.key in ApplyAll(m, log[..k][..i])
    {
      assert log[..k][i] == log[i] && log[..k][..i] == log[..i];
    }
  }

  lemma PutsHitSnoc(m: Map, log: Log, e: LogEntry)
    ensures PutsHit(m, log + [e]) <==> PutsHit(m, log) && (e.operation.Put? ==> e.operation.key in ApplyAll(m, log))
  {
    var longer := log + [e];
    assert longer[..|log|] == log;
    if PutsHit(m, longer) {
      PutsHitPrefix(m, longer, |log|);
    }
    if PutsHit(m, log) && (e.operation.Put? ==> e.operation.key in ApplyAll(m, log)) {
      forall i | 0 <= i < |longer| && longer[i].operation.Put?
        ensures longer[i].operation.key in ApplyAll(m, longer[..i])
      {
        if i < |log| {
          assert longer[i] == log[i] && longer[..i] == log[..i];
        }
      }
    }
  }

  /** A key stays as long as nothing deletes it. */
  lemma {:induction false} KeyStays(m: Map, entries: Log, key: Bytes)
    requires key in m && NoDelete(entries, key)
    ensures key in ApplyAll(m, entries)
  {
    if entries != [] {
      var n := |entries| - 1;
      assert NoDelete(entries[..n], key);
      KeyStays(m, entries[..n], key);
    }
  }

  lemma {:induction false} ReplaysLonger(m: Map, short: Log, long: Log, cuts: seq<nat>)
    requires short <= long && Cuts(short, cuts)
    ensures Cuts(long, cuts) && Replays(m, short, cuts) == Replays(m, long, cuts)
    decreases |cuts|
  {
    if cuts != [] {
      var n := |cuts| - 1;
      ReplaysLonger(m, short, long, cuts[..n]);
      assert short[..cuts[n]] == long[..cuts[n]];
    }
  }

  lemma {:induction false} NoReplay(m: Map, entries: Log, cuts: seq<nat>)
    requires Cuts(entries, cuts) && forall i :: 0 <= i < |cuts| ==> cuts[i] == 0
    ensures Replays(m, entries, cuts) == m
    decreases |cuts|
  {
    if cuts != [] {
      var n := |cuts| - 1;
      NoReplay(m, entries, cuts[..n]);
      assert entries[..cuts[n]] == [];
    }
  }

  /** The condition on a whole log holds of any stretch of it, from the store at its start. */
  lemma PutsHitStretch(log: Log, a: nat, b: nat)
    requires a <= b <= |log| && PutsHit(map[], log)
    ensures PutsHit(ApplyAll(map[], log[..a]), log[a..b])
  {
    var m, entries := ApplyAll(map[], log[..a]), log[a..b];
    forall i | 0 <= i < |entries| && entries[i].operation.Put?
      ensures entries[i].operation.key in ApplyAll(m, entries[..i])
    {
      assert log[a + i] == entries[i];
      assert log[..a + i] == log[..a] + entries[..i];
      ApplyAllSplit(map[], log[..a], entries[..i]);
    }
  }

  // ----- Values nobody wrote -----

  ghost predicate Writes(op: Operation, value: Bytes) {
    (op.Post? || op.Put?) && op.value == value
  }

  ghost predicate NeverWritten(entries: Log, value: Bytes) {
    forall j :: 0 <= j < |entries| ==> !Writes(entries[j].operation, value)
  }

  lemma {:induction false} UnwrittenAbsent(m: Map, entries: Log, value: Bytes)
    requires value !in m.Values && NeverWritten(entries, value)
    ensures value !in ApplyAll(m, entries).Values
  {
    if entries != [] {
      UnwrittenAbsent(m, entries[..|entries| - 1], value);
    }
  }

  lemma {:induction false} ReplaysUnwritten(m: Map, entries: Log, cuts: seq<nat>, value: Bytes)
    requires value !in m.Values && NeverWritten(entries, value) && Cuts(entries, cuts)
    ensures value !in Replays(m, entries, cuts).Values
    decreases |cuts|
  {
    if cuts != [] {
      var n := |cuts| - 1;
      ReplaysUnwritten(m, entries, cuts[..n], value);
      UnwrittenAbsent(Replays(m, entries, cuts[..n]), entries[..cuts[n]], value);
    }
  }

  /** Recovery gives back a map exactly if it holds no empty value. */
  lemma LiveIs(m: Map)
    ensures Live(m) == m <==> [] !in m.Values
  {
    if [] in m.Values {
      var k :| k in m && m[k] == [];
      assert k in m && k !in Live(m);
    }
  }
}
