/** A follower that accepts a request ends up with a prefix of that leader's log. */
module Acceptance {
  import opened Entries
  import opened Merging
  import opened Consensus
  import opened Steps
  import Frames
  import Safety
  import Preservation

  /** A log with an entry of the term itself, in a replica that knows no later term, is a prefix of
      that leader's log. */
  lemma ReachesTerm(w: World, log: Log, t: nat, j: nat)
    requires Known(w.leaders, log) && Sorted(log) && TermsUpTo(log, t)
    requires j < |log| && log[j].term == t
    ensures t in w.leaders && log <= w.leaders[t].log
  {
    assert log[j].term <= log[|log| - 1].term;
    Safety.PrefixOfLeader(w, log, t);
  }

  lemma LeaderLog(w: World, t: nat)
    requires LeadersOk(w) && t in w.leaders
    ensures w.leaders[t].base < |w.leaders[t].log| && Known(w.leaders, w.leaders[t].log)
  {
    assert LeaderOk(w, t, w.leaders[t]);
  }

  lemma LeaderTerm(w: World, t: nat, i: nat)
    requires LeadersOk(w) && t in w.leaders && w.leaders[t].base <= i < |w.leaders[t].log|
    ensures w.leaders[t].log[i].term == t
  {
    assert LeaderOk(w, t, w.leaders[t]);
  }

  /** The last position compared equal has the same term in both logs. */
  lemma MatchedTerm(log: Log, l: Log, prev: int, prevTerm: int, entries: Log, n: nat)
    requires -1 <= prev && prev + 1 + |entries| <= |l| && entries == l[prev + 1..prev + 1 + |entries|]
    requires prevTerm == TermAt(l, prev)
    requires prev < |log| && Matches(log, prev, prevTerm)
    requires n <= |entries|
    requires n > 0 ==> prev + n < |log| && log[prev + n].term == entries[n - 1].term
    ensures prev + n < |log| && prev + n < |l| && (prev + n >= 0 ==> log[prev + n].term == l[prev + n].term)
  {
    if n > 0 {
      assert entries[n - 1] == l[prev + n];
    }
  }

  /** The part a request matches, and the entries found equal, are the leader's. */
  lemma MatchedPart(w: World, log: Log, m: Append)
    requires LeadersOk(w) && AppendOk(w, m) && Known(w.leaders, log)
    requires m.prev < |log| && Matches(log, m.prev, m.prevTerm)
    ensures var c := m.prev + 1 + Agreed(log, m.prev + 1, m.entries);
      c <= |log| && c <= |w.leaders[m.term].log| && log[..c] == w.leaders[m.term].log[..c]
  {
    var l := w.leaders[m.term].log;
    var n := Agreed(log, m.prev + 1, m.entries);
    var c := m.prev + 1 + n;
    if n > 0 {
      AgreedAt(log, m.prev + 1, m.entries, n - 1);
    }
    MatchedTerm(log, l, m.prev, m.prevTerm, m.entries, n);
    LeaderLog(w, m.term);
    if c > 0 {
      Safety.LogMatching(w, log, l, c - 1);
    }
  }

  /** Merging a slice of `l` into a log that agrees with `l` as far as they were compared. */
  lemma TruncatingOnto(log: Log, l: Log, prev: int, entries: Log)
    requires -1 <= prev < |log| && prev + 1 + |entries| <= |l| && entries == l[prev + 1..prev + 1 + |entries|]
    requires prev + |entries| >= 0
    requires var c := prev + 1 + Agreed(log, prev + 1, entries); c <= |log| && log[..c] == l[..c]
    requires Agreed(log, prev + 1, entries) == |entries| ==> log <= l
    ensures Truncating(log, prev, entries) <= l
    ensures |Truncating(log, prev, entries)| > prev + |entries|
    ensures log <= l ==> log <= Truncating(log, prev, entries)
  {
    var n := Agreed(log, prev + 1, entries);
    var c := prev + 1 + n;
    if n < |entries| {
      var end := prev + 1 + |entries|;
      assert entries[n..] == l[c..end];
      assert Truncating(log, prev, entries) == l[..c] + l[c..end];
      assert l[..c] + l[c..end] == l[..end];
      AgreedStops(log, prev + 1, entries);
      assert entries[n] == l[c];
      if log <= l {
        assert log == l[..|log|];
        assert |log| == c;
      }
    }
  }

  /** Prefix after accept: the whole log is the leader's, it reaches what was sent, and nothing of this term is lost. */
  lemma AcceptedPrefix(w: World, log: Log, m: Append)
    requires LeadersOk(w) && AppendOk(w, m)
    requires Known(w.leaders, log) && Sorted(log) && TermsUpTo(log, m.term)
    requires m.prev < |log| && Matches(log, m.prev, m.prevTerm)
    ensures Truncating(log, m.prev, m.entries) <= w.leaders[m.term].log
    ensures |Truncating(log, m.prev, m.entries)| > m.prev + |m.entries|
    ensures log <= w.leaders[m.term].log ==> log <= Truncating(log, m.prev, m.entries)
  {
    var l := w.leaders[m.term].log;
    var c := m.prev + 1 + Agreed(log, m.prev + 1, m.entries);
    MatchedPart(w, log, m);
    if Agreed(log, m.prev + 1, m.entries) == |m.entries| {
      SamePrefixAt(log, l, c - 1, c);
      LeaderTerm(w, m.term, c - 1);
      ReachesTerm(w, log, m.term, c - 1);
    }
    TruncatingOnto(log, l, m.prev, m.entries);
  }

  /** What the replica had committed stays where it was. */
  lemma AcceptKeepsCommitted(w: World, v: nat, m: Append)
    requires Inv(w) && CanAccept(w, v, m)
    ensures -1 <= w.replicas[v].commit < |w.replicas[v].log|
    ensures w.replicas[v].commit < |Truncating(w.replicas[v].log, m.prev, m.entries)|
    ensures Truncating(w.replicas[v].log, m.prev, m.entries)[..w.replicas[v].commit + 1]
      == w.replicas[v].log[..w.replicas[v].commit + 1]
  {
    var r := w.replicas[v];
    assert ReplicaOk(w, v, r) && AppendOk(w, m) && CommitOk(w, r);
    if r.commit >= 0 {
      Safety.BackedInLeader(w, m.term, r.disk, r.commit, m.term);
      MergeKeepsPrefix(w, r.log, m, r.commit);
    } else {
      AcceptedPrefix(w, r.log, m);
    }
  }

  /** A common prefix of the log and the leader's log survives the merge. */
  lemma MergeKeepsPrefix(w: World, log: Log, m: Append, k: nat)
    requires LeadersOk(w) && AppendOk(w, m)
    requires Known(w.leaders, log) && Sorted(log) && TermsUpTo(log, m.term)
    requires m.prev < |log| && Matches(log, m.prev, m.prevTerm)
    requires k < |log| && k < |w.leaders[m.term].log| && log[..k + 1] == w.leaders[m.term].log[..k + 1]
    ensures k < |Truncating(log, m.prev, m.entries)|
    ensures Truncating(log, m.prev, m.entries)[..k + 1] == log[..k + 1]
  {
    var l := w.leaders[m.term];
    var merged := Truncating(log, m.prev, m.entries);
    AcceptedPrefix(w, log, m);
    if k >= l.base {
      SamePrefixAt(log, l.log, k, k + 1);
      LeaderTerm(w, m.term, k);
      ReachesTerm(w, log, m.term, k);
    }
    assert merged[..k + 1] == l.log[..k + 1];
  }

  lemma AcceptCommit(w: World, v: nat, m: Append)
    requires Inv(w) && CanAccept(w, v, m) && Grows(w, Accept(w, v, m))
    ensures var z := Accept(w, v, m); CommitOk(z, z.replicas[v]) && -1 <= z.replicas[v].commit < |z.replicas[v].log|
    ensures w.replicas[v].commit <= Accept(w, v, m).replicas[v].commit
  {
    AcceptKeepsCommitted(w, v, m);
    if m.commit <= w.replicas[v].commit {
      AcceptOldCommit(w, v, m);
    } else {
      AcceptNewCommit(w, v, m);
    }
  }

  lemma AcceptOldCommit(w: World, v: nat, m: Append)
    requires Inv(w) && CanAccept(w, v, m) && Grows(w, Accept(w, v, m)) && m.commit <= w.replicas[v].commit
    ensures CommitOk(Accept(w, v, m), Accept(w, v, m).replicas[v])
  {
    var z := Accept(w, v, m);
    var r, s := w.replicas[v], z.replicas[v];
    assert ReplicaOk(w, v, r) && CommitOk(w, r);
    AcceptKeepsCommitted(w, v, m);
    BackedGrows(w, z, m.term, r.disk, m.term, s.log, r.commit);
  }

  /** The new commit index is backed by what backs the leader's, in the leader's log and so in this one. */
  lemma AcceptNewCommit(w: World, v: nat, m: Append)
    requires Inv(w) && CanAccept(w, v, m) && Grows(w, Accept(w, v, m)) && m.commit > w.replicas[v].commit >= -1
    ensures CommitOk(Accept(w, v, m), Accept(w, v, m).replicas[v])
  {
    var z := Accept(w, v, m);
    var s := z.replicas[v];
    assert ReplicaOk(w, v, w.replicas[v]) && AppendOk(w, m);
    AcceptedPrefix(w, w.replicas[v].log, m);
    var l := w.leaders[m.term].log;
    assert s.log[..s.commit + 1] == l[..s.commit + 1];
    Frames.BackedInside(w, m.term, l, m.commit);
    BackedBelow(w, z, m.term, l, m.commit, s.log, s.commit);
  }

  lemma BackedBelow(w: World, z: World, b: nat, log: Log, c: int, log2: Log, c2: int)
    requires Grows(w, z) && Backed(w, b, log, c) && c2 <= c < |log|
    requires -1 <= c2 < |log2| && log[..c2 + 1] == log2[..c2 + 1]
    ensures Backed(z, b, log2, c2)
  {
    if c2 >= 0 {
      var t: nat, k: nat :| BackedBy(w, b, log, c, t, k);
      ShorterPrefix(log, w.leaders[t].log, c2 + 1, c + 1);
      assert BackedBy(w, b, log, c2, t, k);
      BackedGrows(w, z, b, log, b, log2, c2);
    }
  }

  /** Earlier acknowledgements survive the merge unless some later leader had lost them. */
  lemma AcceptAcks(w: World, v: nat, m: Append)
    requires Inv(w) && CanAccept(w, v, m) && Grows(w, Accept(w, v, m))
    ensures forall a {:trigger AckOk(Accept(w, v, m), a)} :: a in w.acks && a.replica == v ==> AckOk(Accept(w, v, m), a)
  {
    var z := Accept(w, v, m);
    forall a | a in w.acks && a.replica == v
      ensures AckOk(z, a)
    {
      assert AckOk(w, a);
      forall k: nat | k <= a.upto && AllLater(z, a.term, k, m.term + 1)
        ensures Holds(z, z.replicas[v].disk, a.term, k)
      {
        AcceptHolds(w, v, m, a, k);
      }
    }
  }

  lemma AcceptHolds(w: World, v: nat, m: Append, a: Ack, k: nat)
    requires Inv(w) && CanAccept(w, v, m) && Grows(w, Accept(w, v, m))
    requires a in w.acks && a.replica == v && k <= a.upto && AllLater(Accept(w, v, m), a.term, k, m.term + 1)
    ensures Holds(Accept(w, v, m), Accept(w, v, m).replicas[v].disk, a.term, k)
  {
    var z := Accept(w, v, m);
    assert ReplicaOk(w, v, w.replicas[v]) && AppendOk(w, m) && AckOk(w, a);
    AcceptedPrefix(w, w.replicas[v].log, m);
    if a.term < m.term {
      assert Later(z, m.term, a.term, k);
      HoldsBelowBase(z, z.replicas[v].disk, m.term, a.term, k);
    } else {
      AcceptHoldsOwnTerm(w, v, m, a, k, z.replicas[v].disk);
    }
  }

  /** A log that reaches past the start of a later leader's has what that leader started with. */
  lemma HoldsBelowBase(w: World, log: Log, t2: nat, t: nat, k: nat)
    requires Later(w, t2, t, k) && log <= w.leaders[t2].log && w.leaders[t2].base < |log|
    ensures Holds(w, log, t, k)
  {
    assert log[..k + 1] == w.leaders[t2].log[..k + 1];
  }

  lemma AcceptHoldsOwnTerm(w: World, v: nat, m: Append, a: Ack, k: nat, d: Log)
    requires Inv(w) && CanAccept(w, v, m) && d == Truncating(w.replicas[v].log, m.prev, m.entries)
    requires a in w.acks && a.replica == v && k <= a.upto && a.term >= m.term
    ensures Holds(w, d, a.term, k)
  {
    var r, t := w.replicas[v], m.term;
    assert ReplicaOk(w, v, r) && AppendOk(w, m) && AckOk(w, a);
    assert AllLater(w, t, k, t + 1);
    assert Holds(w, r.log, t, k);
    MergeKeepsPrefix(w, r.log, m, k);
  }

  lemma AcceptLocal(w: World, v: nat, m: Append)
    requires Inv(w) && CanAccept(w, v, m) && Grows(w, Accept(w, v, m))
    requires -1 <= Accept(w, v, m).replicas[v].commit < |Accept(w, v, m).replicas[v].log|
    ensures ReplicaOk(Accept(w, v, m), v, Accept(w, v, m).replicas[v])
  {
    var z := Accept(w, v, m);
    var r, s := w.replicas[v], z.replicas[v];
    assert ReplicaOk(w, v, r) && AppendOk(w, m);
    AcceptedPrefix(w, r.log, m);
    LeaderSorted(w, m.term, s.log);
    KnownGrows(w, z, s.log);
    if s.votedFor >= 0 && s.votedFor != v {
      HasVoteGrows(w, z, v, s.votedFor, s.term);
    }
  }

  lemma LeaderSorted(w: World, t: nat, log: Log)
    requires LeadersOk(w) && t in w.leaders && log <= w.leaders[t].log
    ensures Sorted(log) && TermsUpTo(log, t) && Known(w.leaders, log)
  {
    var l := w.leaders[t];
    assert LeaderOk(w, t, l);
    Preservation.KnownPrefix(w, l.log, log);
    forall i, j | 0 <= i <= j < |log|
      ensures log[i].term <= log[j].term <= t
    {
      assert log[i] == l.log[i] && log[j] == l.log[j];
    }
  }

  lemma AcceptKeeps(w: World, v: nat, m: Append)
    requires Inv(w) && CanAccept(w, v, m)
    ensures Inv(Accept(w, v, m)) && Frames.Frame(w, Accept(w, v, m), v)
    ensures w.replicas[v].commit <= Accept(w, v, m).replicas[v].commit
  {
    var z := Accept(w, v, m);
    AcceptFrame(w, v, m);
    AcceptCommit(w, v, m);
    AcceptLocal(w, v, m);
    AcceptAcks(w, v, m);
    AcceptedAck(w, v, m);
    Preservation.NewAck(w, z, v, Ack(v, m.term, m.prev + |m.entries|));
  }

  lemma AcceptFrame(w: World, v: nat, m: Append)
    requires Inv(w) && CanAccept(w, v, m)
    ensures Grows(w, Accept(w, v, m)) && Frames.Frame(w, Accept(w, v, m), v)
  {
    assert ReplicaOk(w, v, w.replicas[v]);
  }

  /** What is acknowledged is on disk. */
  lemma AcceptedAck(w: World, v: nat, m: Append)
    requires Inv(w) && CanAccept(w, v, m)
    ensures m.term in w.leaders && w.leaders[m.term].base <= m.prev + |m.entries| < |w.leaders[m.term].log|
    ensures Holds(Accept(w, v, m), Accept(w, v, m).replicas[v].disk, m.term, m.prev + |m.entries|)
  {
    assert ReplicaOk(w, v, w.replicas[v]) && AppendOk(w, m);
    AcceptedPrefix(w, w.replicas[v].log, m);
    var upto, d := m.prev + |m.entries|, Accept(w, v, m).replicas[v].disk;
    assert d[..upto + 1] == w.leaders[m.term].log[..upto + 1];
  }
}
