/** What the invariant gives in any one state. */
module Safety {
  import opened Entries
  import opened Consensus

  /** Equal terms at an index mean equal logs up to it. */
  lemma LogMatching(w: World, x: Log, y: Log, i: nat)
    requires Known(w.leaders, x) && Known(w.leaders, y)
    requires i < |x| && i < |y| && x[i].term == y[i].term
    ensures x[..i + 1] == y[..i + 1]
  {
    assert Stamped(w.leaders, x, i, x[i].term);
    assert Stamped(w.leaders, y, i, y[i].term);
  }

  /** A log whose last entry has term `t` is a prefix of that leader's log. */
  lemma PrefixOfLeader(w: World, log: Log, t: nat)
    requires Known(w.leaders, log) && log != [] && LastTerm(log) == t
    ensures t in w.leaders && log <= w.leaders[t].log
  {
    var i := |log| - 1;
    assert Stamped(w.leaders, log, i, log[i].term);
    assert log[..i + 1] == log;
  }

  /** A candidate at least as up to date as a log holding what `t`'s leader had up to `k` holds it too. */
  lemma UpToDateHolds(w: World, own: Log, voter: Log, t: nat, k: nat, hi: nat)
    requires LeadersOk(w) && t in w.leaders
    requires w.leaders[t].base <= k < |w.leaders[t].log|
    requires Known(w.leaders, own)
    requires forall i :: 0 <= i < |own| ==> own[i].term < hi
    requires AllLater(w, t, k, hi)
    requires Sorted(voter) && Holds(w, voter, t, k)
    requires UpToDate(LastIndex(own), LastTerm(own), voter)
    ensures Holds(w, own, t, k)
  {
    SamePrefixAt(voter, w.leaders[t].log, k, k + 1);
    assert LeaderOk(w, t, w.leaders[t]);
    assert voter[k].term == t;
    assert LastTerm(voter) >= t;
    var t3 := LastTerm(own);
    PrefixOfLeader(w, own, t3);
    assert LeaderOk(w, t3, w.leaders[t3]);
    if t3 > t {
      assert Later(w, t3, t, k);
      assert own[|own| - 1].term == t3;
      assert w.leaders[t3].log[|own| - 1].term == t3;
      assert k < w.leaders[t3].base <= |own| - 1;
      assert own[..k + 1] == w.leaders[t3].log[..k + 1];
    } else {
      assert |own| >= |voter| > k;
      assert own[..k + 1] == w.leaders[t].log[..k + 1];
    }
  }

  /** Leader Completeness: whatever a quorum stored in term `t`, every later leader started with. */
  lemma {:induction false} LeaderCompleteness(w: World, t: nat, k: nat, t2: nat)
    requires LeadersOk(w) && AcksOk(w)
    requires Committed(w, t, k) && t2 in w.leaders && t < t2
    ensures Later(w, t2, t, k)
    decreases t2
  {
    forall t3 | t3 in w.leaders && t < t3 < t2
      ensures Later(w, t3, t, k)
    {
      LeaderCompleteness(w, t, k, t3);
    }
    assert AllLater(w, t, k, t2);
    var q :| QuorumAcked(w, t, k, q);
    var l := w.leaders[t2];
    assert LeaderOk(w, t2, l);
    var v := MajoritiesMeet(q, l.votes.Keys, |w.replicas|);
    assert AckedUpTo(w, v, t, k);
    var a :| a in w.acks && a.replica == v && a.term == t && a.upto >= k;
    assert ElectedOk(w, t2, l, a);
    assert Holds(w, l.votes[v], t, k);
    assert VoterOk(w, t2, l, v);
    var own := l.log[..l.base];
    forall i | 0 <= i < |own|
      ensures Stamped(w.leaders, own, i, own[i].term) && own[i].term < t2
    {
      assert Stamped(w.leaders, l.log, i, l.log[i].term);
      assert own[..i + 1] == l.log[..i + 1];
    }
    UpToDateHolds(w, own, l.votes[v], t, k, t2);
    assert own[..k + 1] == l.log[..k + 1];
  }

  lemma AllLaterLead(w: World, t: nat, k: nat, hi: nat)
    requires LeadersOk(w) && AcksOk(w) && Committed(w, t, k)
    ensures AllLater(w, t, k, hi)
  {
    forall t2 | t2 in w.leaders && t < t2 < hi
      ensures Later(w, t2, t, k)
    {
      LeaderCompleteness(w, t, k, t2);
    }
  }

  /** What backs one log also sits in the log of every leader from that term on. */
  lemma BackedInLeader(w: World, b: nat, log: Log, c: nat, t: nat)
    requires LeadersOk(w) && AcksOk(w)
    requires Backed(w, b, log, c) && c < |log| && b <= t && t in w.leaders
    ensures c < |w.leaders[t].log| && log[..c + 1] == w.leaders[t].log[..c + 1]
    ensures c < w.leaders[t].base || (exists k :: k >= c && Committed(w, t, k))
  {
    var t0: nat, k: nat :| BackedBy(w, b, log, c, t0, k);
    if t0 < t {
      LeaderCompleteness(w, t0, k, t);
      ShorterPrefix(w.leaders[t].log, w.leaders[t0].log, c + 1, k + 1);
    }
  }

  /** State Machine Safety between two logs of one state. */
  lemma BackedAgree(w: World, b1: nat, x: Log, c1: nat, b2: nat, y: Log, c2: nat, i: nat)
    requires LeadersOk(w) && AcksOk(w)
    requires Backed(w, b1, x, c1) && Backed(w, b2, y, c2)
    requires i <= c1 < |x| && i <= c2 < |y|
    ensures x[..i + 1] == y[..i + 1]
  {
    var t1: nat, k1: nat :| BackedBy(w, b1, x, c1, t1, k1);
    var t2: nat, k2: nat :| BackedBy(w, b2, y, c2, t2, k2);
    var l1, l2 := w.leaders[t1].log, w.leaders[t2].log;
    if t1 < t2 {
      LeaderCompleteness(w, t1, k1, t2);
      ShorterPrefix(l2, l1, i + 1, k1 + 1);
    } else if t2 < t1 {
      LeaderCompleteness(w, t2, k2, t1);
      ShorterPrefix(l1, l2, i + 1, k2 + 1);
    }
    ShorterPrefix(x, l1, i + 1, c1 + 1);
    ShorterPrefix(y, l2, i + 1, c2 + 1);
  }
}
