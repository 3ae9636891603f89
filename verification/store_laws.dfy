/** The bucketed store against a plain map, over whole histories and through recovery from the file. */
module StoreLaws {
  import opened Entries
  import opened Protocol
  import opened Buckets
  import Replay

  // ----- Whole histories -----

  function Empty(): (s: Kv)
    ensures Means(s, map[])
  {
    Kv(seq(BUCKETS, _ => []), map[])
  }

  /** No POST of the history meets a key whose value is the sentinel. */
  ghost predicate NeverDeceived(m: Map, entries: Log) {
    forall j {:trigger entries[j]} :: 0 <= j < |entries| ==> !Deceived(ApplyAll(m, entries[..j]), entries[j].operation)
  }

  ghost predicate MeansAfter(s: Kv, m: Map, entries: Log)
    requires |s.buckets| == BUCKETS
  {
    Means(ExecuteAll(s, entries), ApplyAll(m, entries))
  }

  /** The store stands for the map after every operation of the history. */
  ghost predicate FollowsMap(s: Kv, m: Map, entries: Log)
    requires |s.buckets| == BUCKETS
  {
    forall j {:trigger MeansAfter(s, m, entries[..j])} :: 0 <= j <= |entries| ==> MeansAfter(s, m, entries[..j])
  }

  lemma NeverDeceivedSnoc(m: Map, entries: Log)
    requires entries != []
    ensures var n := |entries| - 1;
      NeverDeceived(m, entries) <==>
        NeverDeceived(m, entries[..n]) && !Deceived(ApplyAll(m, entries[..n]), entries[n].operation)
  {
    var n := |entries| - 1;
    forall j | 0 <= j < n
      ensures entries[..n][..j] == entries[..j] && entries[..n][j] == entries[j]
    {
    }
    if NeverDeceived(m, entries[..n]) && !Deceived(ApplyAll(m, entries[..n]), entries[n].operation) {
      forall j | 0 <= j < |entries|
        ensures !Deceived(ApplyAll(m, entries[..j]), entries[j].operation)
      {
        if j < n {
          assert !Deceived(ApplyAll(m, entries[..n][..j]), entries[..n][j].operation);
        }
      }
    }
    if NeverDeceived(m, entries) {
      forall j | 0 <= j < n
        ensures !Deceived(ApplyAll(m, entries[..n][..j]), entries[..n][j].operation)
      {
        assert !Deceived(ApplyAll(m, entries[..j]), entries[j].operation);
      }
    }
  }

  lemma FollowsMapSnoc(s: Kv, m: Map, entries: Log)
    requires |s.buckets| == BUCKETS && entries != []
    ensures FollowsMap(s, m, entries) <==>
      FollowsMap(s, m, entries[..|entries| - 1]) && MeansAfter(s, m, entries)
  {
    var n := |entries| - 1;
    var front := entries[..n];
    assert entries[..|entries|] == entries;
    forall j | 0 <= j <= n
      ensures front[..j] == entries[..j]
    {
    }
    if FollowsMap(s, m, front) && MeansAfter(s, m, entries) {
      forall j | 0 <= j <= |entries|
        ensures MeansAfter(s, m, entries[..j])
      {
        if j <= n {
          assert MeansAfter(s, m, front[..j]);
        }
      }
    }
    if FollowsMap(s, m, entries) {
      forall j | 0 <= j <= n
        ensures MeansAfter(s, m, front[..j])
      {
        assert MeansAfter(s, m, entries[..j]);
      }
      assert MeansAfter(s, m, entries[..|entries|]);
    }
  }

  /** Through a whole history the store stands for the map exactly if no POST is deceived by the sentinel. */
  lemma {:induction false} StoreFollowsMapIff(s: Kv, m: Map, entries: Log)
    requires Means(s, m)
    ensures FollowsMap(s, m, entries) <==> NeverDeceived(m, entries)
  {
    if entries == [] {
      forall j | 0 <= j <= |entries|
        ensures MeansAfter(s, m, entries[..j])
      {
        assert entries[..j] == [];
      }
    } else {
      var front := entries[..|entries| - 1];
      StoreFollowsMapIff(s, m, front);
      NeverDeceivedSnoc(m, entries);
      FollowsMapSnoc(s, m, entries);
      if FollowsMap(s, m, front) {
        assert front[..|front|] == front;
        assert MeansAfter(s, m, front[..|front|]);
        ExecuteMeansApply(ExecuteAll(s, front), ApplyAll(m, front), entries[|entries| - 1].operation);
      }
    }
  }

  /** So it does for every history that never writes the sentinel. */
  lemma PlainHistory(s: Kv, m: Map, entries: Log)
    requires Means(s, m) && INVALID !in m.Values
    requires Replay.NeverWritten(entries, INVALID)
    ensures FollowsMap(s, m, entries) && Means(ExecuteAll(s, entries), ApplyAll(m, entries))
  {
    forall j | 0 <= j < |entries|
      ensures !Deceived(ApplyAll(m, entries[..j]), entries[j].operation)
    {
      Replay.UnwrittenAbsent(m, entries[..j], INVALID);
    }
    StoreFollowsMapIff(s, m, entries);
    assert MeansAfter(s, m, entries[..|entries|]);
    assert entries[..|entries|] == entries;
  }

  /** GET tells a missing key from a present one exactly if the value is not the sentinel. */
  lemma GetTells(s: Kv, m: Map, key: Bytes)
    requires Means(s, m)
    ensures Get(s.buckets, key) == (if key in m then m[key] else INVALID)
    ensures (Get(s.buckets, key) == INVALID <==> key !in m) <==> !(key in m && m[key] == INVALID)
  {
    assert Answers(s.buckets, m, key);
  }

  /** With the sentinel as a value, a deleted key can be updated, and is there again. */
  lemma DeletedKeyComesBack(key: Bytes, x: Bytes, z: Bytes)
    requires x != INVALID && z != INVALID
    ensures var history := [LogEntry(0, Post(key, INVALID), []), LogEntry(0, Post(key, x), []),
                            LogEntry(0, Delete(key), []), LogEntry(0, Put(key, z), [])];
      key !in ApplyAll(map[], history) && Get(ExecuteAll(Empty(), history).buckets, key) == z
  {
    var a, b, c, d := LogEntry(0, Post(key, INVALID), []), LogEntry(0, Post(key, x), []),
                      LogEntry(0, Delete(key), []), LogEntry(0, Put(key, z), []);
    var h, s0 := Hash(key), Empty();
    assert s0.buckets[h] == [];
    var s1 := Execute(s0, a.operation);
    assert s1.buckets[h] == [Pair(key, INVALID)];
    var s2 := Execute(s1, b.operation);
    assert s2.buckets[h] == [Pair(key, x), Pair(key, INVALID)];
    var s3 := Execute(s2, c.operation);
    assert s3.buckets[h] == [Pair(key, INVALID)];
    var s4 := Execute(s3, d.operation);
    assert s4.buckets[h] == [Pair(key, z)];
    ExecuteFour(s0, a, b, c, d);
    ApplyFour(map[], a, b, c, d);
  }

  lemma ExecuteFour(s: Kv, a: LogEntry, b: LogEntry, c: LogEntry, d: LogEntry)
    requires |s.buckets| == BUCKETS
    ensures ExecuteAll(s, [a, b, c, d]) ==
      Execute(Execute(Execute(Execute(s, a.operation), b.operation), c.operation), d.operation)
  {
    assert [a, b, c, d][..3] == [a, b, c] && [a, b, c][..2] == [a, b] && [a, b][..1] == [a] && [a][..0] == [];
    assert ExecuteAll(s, []) == s;
    assert ExecuteAll(s, [a]) == Execute(s, a.operation);
    assert ExecuteAll(s, [a, b]) == Execute(ExecuteAll(s, [a]), b.operation);
    assert ExecuteAll(s, [a, b, c]) == Execute(ExecuteAll(s, [a, b]), c.operation);
  }

  lemma ApplyFour(m: Map, a: LogEntry, b: LogEntry, c: LogEntry, d: LogEntry)
    ensures ApplyAll(m, [a, b, c, d]) ==
      ApplyOne(ApplyOne(ApplyOne(ApplyOne(m, a.operation), b.operation), c.operation), d.operation)
  {
    assert [a, b, c, d][..3] == [a, b, c] && [a, b, c][..2] == [a, b] && [a, b][..1] == [a] && [a][..0] == [];
    assert ApplyAll(m, []) == m;
    assert ApplyAll(m, [a]) == ApplyOne(m, a.operation);
    assert ApplyAll(m, [a, b]) == ApplyOne(ApplyAll(m, [a]), b.operation);
    assert ApplyAll(m, [a, b, c]) == ApplyOne(ApplyAll(m, [a, b]), c.operation);
  }

  // ----- Recovery -----

  /** Push the pairs of the file one by one, in the order in which the map is walked. */
  function Rebuilt(shadow: Map, order: seq<Bytes>): (bs: seq<Bucket>)
    requires forall k :: k in order ==> k in shadow
    ensures |bs| == BUCKETS
  {
    if order == [] then Empty().buckets
    else
      var n := |order| - 1;
      var bs := Rebuilt(shadow, order[..n]);
      if shadow[order[n]] != [] then Pushed(bs, order[n], shadow[order[n]]) else bs
  }

  ghost predicate NoRepeats(order: seq<Bytes>) {
    forall i, j :: 0 <= i < j < |order| ==> order[i] != order[j]
  }

  /** The part of the map that has been walked. */
  function Walked(m: Map, order: seq<Bytes>): Map {
    map k | k in m && k in order :: m[k]
  }

  lemma {:induction false} RebuiltRefines(shadow: Map, order: seq<Bytes>)
    requires NoRepeats(order) && forall k :: k in order ==> k in shadow
    ensures WellFormed(Rebuilt(shadow, order)) && Refines(Rebuilt(shadow, order), Walked(Live(shadow), order))
  {
    if order == [] {
      assert Walked(Live(shadow), order) == map[];
    } else {
      var n := |order| - 1;
      var front, k := order[..n], order[n];
      assert order == front + [k];
      RebuiltRefines(shadow, front);
      var w, m := Walked(Live(shadow), front), Walked(Live(shadow), order);
      if shadow[k] != [] {
        PushedRefines(Rebuilt(shadow, front), w, k, shadow[k]);
        assert m == w[k := shadow[k]];
        assert k !in w;
      } else {
        assert m == w;
      }
    }
  }

  /** A recovered store stands for the live part of its file, whatever order the file was walked in. */
  lemma RecoveredMeans(shadow: Map, order: seq<Bytes>)
    requires NoRepeats(order) && forall k :: k in order <==> k in shadow
    ensures Means(Kv(Rebuilt(shadow, order), shadow), Live(shadow))
  {
    RebuiltRefines(shadow, order);
    assert Walked(Live(shadow), order) == Live(shadow);
  }

  /** Round trip: recovery brings the map back exactly if it holds no empty value. */
  lemma RecoveryRoundTrip(s: Kv, m: Map, order: seq<Bytes>)
    requires Means(s, m)
    requires NoRepeats(order) && forall k :: k in order <==> k in s.shadow
    ensures Means(Kv(Rebuilt(s.shadow, order), s.shadow), m) <==> [] !in m.Values
    ensures Live(s.shadow) == m <==> [] !in m.Values
  {
    RecoveredMeans(s.shadow, order);
    var r := Kv(Rebuilt(s.shadow, order), s.shadow);
    var l := Live(s.shadow);
    if [] in m.Values {
      var k :| k in m && m[k] == [];
      assert Answers(r.buckets, l, k);
      assert k !in l;
      assert !Answers(r.buckets, m, k);
    } else {
      assert l == m;
    }
  }

  /** A history without empty and without sentinel values, a restart, and another such history:
      the store stands for the map both histories make. */
  lemma HistoryAcrossRecovery(before: Log, order: seq<Bytes>, after: Log)
    requires Replay.NeverWritten(before, INVALID) && Replay.NeverWritten(before, [])
    requires Replay.NeverWritten(after, INVALID) && Replay.NeverWritten(after, [])
    requires var shadow := ExecuteAll(Empty(), before).shadow;
      NoRepeats(order) && forall k :: k in order <==> k in shadow
    ensures var shadow := ExecuteAll(Empty(), before).shadow;
      Means(ExecuteAll(Kv(Rebuilt(shadow, order), shadow), after), ApplyAll(ApplyAll(map[], before), after))
  {
    var s, m := ExecuteAll(Empty(), before), ApplyAll(map[], before);
    PlainHistory(Empty(), map[], before);
    Replay.UnwrittenAbsent(map[], before, []);
    Replay.UnwrittenAbsent(map[], before, INVALID);
    RecoveryRoundTrip(s, m, order);
    PlainHistory(Kv(Rebuilt(s.shadow, order), s.shadow), m, after);
  }
}
