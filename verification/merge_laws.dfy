/** Laws of the two merges: when they coincide, and what delivering twice or out of order does. */
module MergeLaws {
  import opened Entries
  import opened Merging

  /** Log Matching between two logs. */
  ghost predicate Matching(x: Log, y: Log) {
    forall i {:trigger SameUpTo(x, y, i)} :: 0 <= i < |x| && i < |y| && x[i].term == y[i].term ==> SameUpTo(x, y, i)
  }

  ghost predicate SameUpTo(x: Log, y: Log, i: nat) {
    i < |x| && i < |y| && x[..i + 1] == y[..i + 1]
  }

  /** The loops as written: old entries up to the first mismatch, then the sent ones, then any old tail. */
  lemma OverwritingAt(log: Log, prev: int, entries: Log, i: nat)
    requires -1 <= prev < |log|
    ensures |Overwriting(log, prev, entries)| == if |log| > prev + 1 + |entries| then |log| else prev + 1 + |entries|
    ensures i < |Overwriting(log, prev, entries)| ==>
      (Overwriting(log, prev, entries)[i] ==
        if prev + 1 + Agreed(log, prev + 1, entries) <= i < prev + 1 + |entries|
        then entries[i - (prev + 1)] else log[i])
  {
    AgreedFits(log, prev + 1, entries);
  }

  lemma AgreedFits(log: Log, start: nat, entries: Log)
    requires start <= |log|
    ensures start + Agreed(log, start, entries) <= |log|
  {
  }

  /** The loops as written, from the first mismatch `c` on: old log up to `c`, then the sent entries, then
      any old tail. */
  lemma OverwritingExact(log: Log, prev: int, entries: Log) returns (c: nat)
    requires -1 <= prev < |log|
    ensures prev + 1 <= c <= |log| && c <= prev + 1 + |entries|
    ensures forall i :: prev + 1 <= i < c ==> log[i].term == entries[i - (prev + 1)].term
    ensures c < |log| && c < prev + 1 + |entries| ==> log[c].term != entries[c - (prev + 1)].term
    ensures var z, end := Overwriting(log, prev, entries), prev + 1 + |entries|;
      && |z| == (if |log| > end then |log| else end)
      && forall i :: 0 <= i < |z| ==> z[i] == if c <= i < end then entries[i - (prev + 1)] else log[i]
  {
    AgreedStops(log, prev + 1, entries);
    AgreedFits(log, prev + 1, entries);
    c := prev + 1 + Agreed(log, prev + 1, entries);
    forall i | prev + 1 <= i < c
      ensures log[i].term == entries[i - (prev + 1)].term
    {
      AgreedAt(log, prev + 1, entries, i - (prev + 1));
    }
  }

  lemma MergesCoincide(log: Log, prev: int, entries: Log)
    requires -1 <= prev < |log|
    ensures Overwriting(log, prev, entries) == Truncating(log, prev, entries) <==> TailSafe(log, prev, entries)
  {
    var m := Agreed(log, prev + 1, entries);
    var c, end := prev + 1 + m, prev + 1 + |entries|;
    AgreedFits(log, prev + 1, entries);
    if m == |entries| {
      assert log[..c] + log[c..] == log;
      assert log[..c] + entries[m..] + log[end..] == log[..c] + log[c..];
    } else if end >= |log| {
      assert log[..c] + entries[m..] + (if end <= |log| then log[end..] else []) == log[..c] + entries[m..];
    } else {
      assert |Overwriting(log, prev, entries)| == |log| > end == |Truncating(log, prev, entries)|;
    }
  }

  /** The code does what Section 5.3 asks exactly when the sent entries reach the end of the log, or none conflicts. */
  lemma OverwritingMeetsTruncating(log: Log, prev: int, entries: Log)
    requires -1 <= prev < |log|
    ensures Overwriting(log, prev, entries) == Truncating(log, prev, entries) <==>
      (prev + 1 + |entries| >= |log| || forall i :: 0 <= i < |entries| ==> log[prev + 1 + i].term == entries[i].term)
  {
    MergesCoincide(log, prev, entries);
    if prev + 1 + |entries| < |log| {
      if Agreed(log, prev + 1, entries) == |entries| {
        forall i | 0 <= i < |entries|
          ensures log[prev + 1 + i].term == entries[i].term
        {
          AgreedAt(log, prev + 1, entries, i);
        }
      } else {
        AgreedStops(log, prev + 1, entries);
      }
    }
  }

  /** Entries found in the log by term, all of them, leave nothing to add. */
  lemma FullAgreement(log: Log, start: nat, entries: Log)
    requires start + |entries| <= |log|
    requires forall i :: 0 <= i < |entries| ==> log[start + i].term == entries[i].term
    ensures Agreed(log, start, entries) == |entries|
  {
    AgreedStops(log, start, entries);
  }

  /** A log that keeps the compared part and then has the sent entries agrees with all of them. */
  lemma HoldsSent(z: Log, log: Log, prev: int, entries: Log)
    requires -1 <= prev < |log|
    requires var m := Agreed(log, prev + 1, entries); var c := prev + 1 + m;
      && c <= |log| && prev + 1 + |entries| <= |z| && z[..c] == log[..c]
      && z[c..prev + 1 + |entries|] == entries[m..]
    ensures z[..prev + 1] == log[..prev + 1]
    ensures Agreed(z, prev + 1, entries) == |entries|
  {
    var m := Agreed(log, prev + 1, entries);
    var c, end := prev + 1 + m, prev + 1 + |entries|;
    ShorterPrefix(z, log, prev + 1, c);
    forall i | 0 <= i < |entries|
      ensures z[prev + 1 + i].term == entries[i].term
    {
      if i < m {
        AgreedAt(log, prev + 1, entries, i);
        SamePrefixAt(z, log, prev + 1 + i, c);
      } else {
        assert z[c..end][i - m] == entries[m..][i - m];
      }
    }
    FullAgreement(z, prev + 1, entries);
  }

  /** Either merge leaves a log that holds everything sent, and starts with the matched part. */
  lemma MergedHolds(log: Log, prev: int, entries: Log, z: Log)
    requires -1 <= prev < |log|
    requires z == Overwriting(log, prev, entries) || z == Truncating(log, prev, entries)
    ensures prev + 1 + |entries| <= |z| && z[..prev + 1] == log[..prev + 1]
    ensures Agreed(z, prev + 1, entries) == |entries|
  {
    var m := Agreed(log, prev + 1, entries);
    AgreedFits(log, prev + 1, entries);
    assert z[..prev + 1 + m] == log[..prev + 1 + m];
    HoldsSent(z, log, prev, entries);
  }

  /** Delivering the same entries twice is delivering them once. */
  lemma MergeTwice(log: Log, prev: int, prevTerm: int, entries: Log)
    requires -1 <= prev < |log| && Matches(log, prev, prevTerm)
    ensures var z := Truncating(log, prev, entries);
      prev < |z| && Matches(z, prev, prevTerm) && Truncating(z, prev, entries) == z
    ensures var z := Overwriting(log, prev, entries);
      prev < |z| && Matches(z, prev, prevTerm) && Overwriting(z, prev, entries) == z
  {
    var z, o := Truncating(log, prev, entries), Overwriting(log, prev, entries);
    MergedHolds(log, prev, entries, z);
    MergedHolds(log, prev, entries, o);
    if prev >= 0 {
      SamePrefixAt(z, log, prev, prev + 1);
      SamePrefixAt(o, log, prev, prev + 1);
    }
    var end := prev + 1 + |entries|;
    assert o[..end] + entries[|entries|..] + o[end..] == o;
  }

  // ----- Slices of one leader's log, in any order -----

  /** `c` is the length of the longest common prefix. */
  ghost predicate Common(x: Log, y: Log, c: nat) {
    && c <= |x| && c <= |y| && x[..c] == y[..c]
    && (c < |x| && c < |y| ==> x[c] != y[c])
  }

  lemma {:induction false} SomeCommon(x: Log, y: Log, from: nat) returns (c: nat)
    requires from <= |x| && from <= |y| && x[..from] == y[..from]
    ensures Common(x, y, c)
    decreases |x| - from
  {
    if from == |x| || from == |y| || x[from] != y[from] {
      c := from;
    } else {
      assert x[..from + 1] == x[..from] + [x[from]];
      assert y[..from + 1] == y[..from] + [y[from]];
      c := SomeCommon(x, y, from + 1);
    }
  }

  lemma CommonIs(x: Log, y: Log, c: nat, k: nat)
    requires Common(x, y, c) && k <= |x| && k <= |y| && x[..k] == y[..k]
    ensures k <= c
  {
    if c < k {
      SamePrefixAt(x, y, c, k);
    }
  }

  /** Where a comparison of `log` with a slice of `l` stops. */
  lemma StopIsCommon(log: Log, l: Log, c: nat, prev: int, q: nat, entries: Log, n: nat)
    requires Matching(log, l) && Common(log, l, c) && -1 <= prev < |log| && prev <= q < |l|
    requires prev == -1 || log[prev].term == l[prev].term
    requires entries == l[prev + 1..q + 1] && Stopped(log, prev + 1, entries, n)
    ensures prev < c
    ensures prev + 1 + n == if q < c then q + 1 else c
  {
    SharedUpTo(log, l, c, prev);
    if n > 0 {
      assert entries[n - 1] == l[prev + n];
      SharedUpTo(log, l, c, prev + n);
    }
    if n < |entries| && prev + 1 + n < c {
      assert entries[n] == l[prev + 1 + n];
      SamePrefixAt(log, l, prev + 1 + n, c);
    }
  }

  lemma SharedUpTo(log: Log, l: Log, c: nat, i: int)
    requires Matching(log, l) && Common(log, l, c) && -1 <= i < |log| && i < |l|
    requires i == -1 || log[i].term == l[i].term
    ensures i < c
  {
    if i >= 0 {
      assert SameUpTo(log, l, i);
      CommonIs(log, l, c, i + 1);
    }
  }

  /** What the comparison loop has found when it stops after `n` entries. */
  ghost predicate Stopped(log: Log, start: nat, entries: Log, n: nat) {
    && n <= |entries|
    && (n > 0 ==> start + n - 1 < |log| && log[start + n - 1].term == entries[n - 1].term)
    && (n < |entries| && start + n < |log| ==> log[start + n].term != entries[n].term)
  }

  lemma AgreedStopped(log: Log, start: nat, entries: Log)
    ensures Stopped(log, start, entries, Agreed(log, start, entries))
  {
    var n := Agreed(log, start, entries);
    if n > 0 {
      AgreedAt(log, start, entries, n - 1);
    }
    AgreedStops(log, start, entries);
  }

  lemma AgreedIsCommon(log: Log, l: Log, c: nat, prev: int, q: nat)
    requires Matching(log, l) && Common(log, l, c) && -1 <= prev < |log| && prev <= q < |l|
    requires prev == -1 || log[prev].term == l[prev].term
    ensures prev < c
    ensures prev + 1 + Agreed(log, prev + 1, l[prev + 1..q + 1]) == if q < c then q + 1 else c
  {
    var entries := l[prev + 1..q + 1];
    AgreedStopped(log, prev + 1, entries);
    StopIsCommon(log, l, c, prev, q, entries, Agreed(log, prev + 1, entries));
  }

  /** A slice that ends inside the common part changes nothing; any other leaves exactly the leader's log up
      to its end. */
  lemma SliceMerged(log: Log, l: Log, c: nat, prev: int, q: nat)
    requires Matching(log, l) && Common(log, l, c) && -1 <= prev < |log| && prev <= q < |l|
    requires prev == -1 || log[prev].term == l[prev].term
    ensures Truncating(log, prev, l[prev + 1..q + 1]) == if q < c then log else l[..q + 1]
  {
    var entries := l[prev + 1..q + 1];
    AgreedIsCommon(log, l, c, prev, q);
    if q >= c {
      TwoParts(log, l, c, prev, q);
    }
  }

  lemma TwoParts(log: Log, l: Log, c: nat, prev: int, q: nat)
    requires -1 <= prev < c <= q < |l| && c <= |log| && log[..c] == l[..c]
    ensures log[..c] + l[prev + 1..q + 1][c - (prev + 1)..] == l[..q + 1]
  {
    assert l[prev + 1..q + 1][c - (prev + 1)..] == l[c..q + 1];
    assert l[..c] + l[c..q + 1] == l[..q + 1];
  }

  lemma MatchingPrefix(l: Log, k: nat)
    requires k <= |l|
    ensures Matching(l[..k], l) && Common(l[..k], l, k)
  {
    var x := l[..k];
    forall i | 0 <= i < k
      ensures SameUpTo(x, l, i)
    {
      assert x[..i + 1] == l[..i + 1];
    }
  }

  /** The log after one accepted slice of the leader's log `l` up to `q`. */
  ghost predicate Reached(log: Log, l: Log, c: nat, q: nat, z: Log) {
    q < |l| && z == if q < c then log else l[..q + 1]
  }

  lemma OneMerge(log: Log, l: Log, c: nat, p: int, q: nat)
    requires Matching(log, l) && Common(log, l, c)
    requires -1 <= p < |log| && p <= q < |l| && (p == -1 || log[p].term == l[p].term)
    ensures Reached(log, l, c, q, Truncating(log, p, l[p + 1..q + 1]))
  {
    SliceMerged(log, l, c, p, q);
  }

  /** A second slice takes the log as far as the longer of the two would alone. */
  lemma SecondMerge(log: Log, l: Log, c: nat, q1: nat, a: Log, p2: int, q2: nat)
    requires Matching(log, l) && Common(log, l, c) && Reached(log, l, c, q1, a)
    requires -1 <= p2 < |log| && p2 <= q2 < |l| && (p2 == -1 || log[p2].term == l[p2].term)
    ensures p2 < |a| && Reached(log, l, c, if q1 < q2 then q2 else q1, Truncating(a, p2, l[p2 + 1..q2 + 1]))
  {
    SharedUpTo(log, l, c, p2);
    if q1 < c {
      SliceMerged(log, l, c, p2, q2);
    } else {
      SliceOntoPrefix(l, q1 + 1, p2, q2);
    }
  }

  /** Two requests of one leader, both accepted in both orders, leave the same log. */
  lemma MergeCommutes(log: Log, l: Log, p1: int, q1: nat, p2: int, q2: nat)
    requires Matching(log, l)
    requires -1 <= p1 < |log| && p1 <= q1 < |l| && (p1 == -1 || log[p1].term == l[p1].term)
    requires -1 <= p2 < |log| && p2 <= q2 < |l| && (p2 == -1 || log[p2].term == l[p2].term)
    ensures var a := Truncating(log, p1, l[p1 + 1..q1 + 1]); var b := Truncating(log, p2, l[p2 + 1..q2 + 1]);
      && p2 < |a| && p1 < |b|
      && Truncating(a, p2, l[p2 + 1..q2 + 1]) == Truncating(b, p1, l[p1 + 1..q1 + 1])
  {
    var c := SomeCommon(log, l, 0);
    OneMerge(log, l, c, p1, q1);
    OneMerge(log, l, c, p2, q2);
    SecondMerge(log, l, c, q1, Truncating(log, p1, l[p1 + 1..q1 + 1]), p2, q2);
    SecondMerge(log, l, c, q2, Truncating(log, p2, l[p2 + 1..q2 + 1]), p1, q1);
  }

  lemma SliceOntoPrefix(l: Log, k: nat, prev: int, q: nat)
    requires 0 < k <= |l| && -1 <= prev < k && prev <= q < |l|
    ensures Truncating(l[..k], prev, l[prev + 1..q + 1]) == if q < k then l[..k] else l[..q + 1]
  {
    var a := l[..k];
    MatchingPrefix(l, k);
    assert prev >= 0 ==> a[prev] == l[prev];
    SliceMerged(a, l, k, prev, q);
  }

  /** The match with the leader never gets shorter, and reaches the end of the slice. */
  lemma MergeNeverShortens(log: Log, l: Log, c: nat, prev: int, q: nat, d: nat)
    requires Matching(log, l) && Common(log, l, c) && -1 <= prev < |log| && prev <= q < |l|
    requires prev == -1 || log[prev].term == l[prev].term
    requires Common(Truncating(log, prev, l[prev + 1..q + 1]), l, d)
    ensures d >= c && d > q
  {
    SliceMerged(log, l, c, prev, q);
    CommonIs(Truncating(log, prev, l[prev + 1..q + 1]), l, d, if q < c then c else q + 1);
  }
}
