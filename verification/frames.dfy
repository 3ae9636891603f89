/** What a step of one replica leaves true of everything that was there before. */
module Frames {
  import Entries
  import opened Consensus
  import opened Steps

  /** Within a term a vote stays, except that a candidate may withdraw its own. */
  ghost predicate Stable(r: Replica, s: Replica) {
    && r.term <= s.term
    && (s.term == r.term ==>
          && (s.votedFor == r.votedFor || r.votedFor == -1 || r.role == Candidate)
          && (s.role == Candidate ==> r.role == Candidate && s.log == r.log && s.votedFor == r.votedFor))
  }

  /** Only replica `v`, and only terms it leads, differ. */
  ghost predicate Frame(w: World, z: World, v: nat) {
    && v < |w.replicas| && Grows(w, z)
    && (forall i :: 0 <= i < |w.replicas| && i != v ==> z.replicas[i] == w.replicas[i])
    && (forall t :: t in w.leaders && w.leaders[t].id != v ==> z.leaders[t] == w.leaders[t])
    && Stable(w.replicas[v], z.replicas[v])
  }

  lemma KeepReplicas(w: World, z: World, v: nat)
    requires Inv(w) && Frame(w, z, v)
    ensures forall i {:trigger ReplicaOk(z, i, z.replicas[i])} ::
      0 <= i < |z.replicas| && i != v ==> ReplicaOk(z, i, z.replicas[i])
  {
    forall i | 0 <= i < |z.replicas| && i != v
      ensures ReplicaOk(z, i, z.replicas[i])
    {
      var r := w.replicas[i];
      assert ReplicaOk(w, i, r);
      KnownGrows(w, z, r.log);
      if r.votedFor >= 0 && r.votedFor != i {
        HasVoteGrows(w, z, i, r.votedFor, r.term);
      }
    }
  }

  lemma KeepRequests(w: World, z: World, v: nat)
    requires Inv(w) && Frame(w, z, v)
    ensures forall q {:trigger RequestOk(z, q)} :: q in w.requests ==> RequestOk(z, q)
  {
    forall q | q in w.requests
      ensures RequestOk(z, q)
    {
      assert RequestOk(w, q);
    }
  }

  lemma KeepAppends(w: World, z: World, v: nat)
    requires Inv(w) && Frame(w, z, v)
    ensures forall m {:trigger AppendOk(z, m)} :: m in w.appends ==> AppendOk(z, m)
  {
    forall m | m in w.appends
      ensures AppendOk(z, m)
    {
      AppendGrows(w, z, m);
    }
  }

  lemma SliceGrows(l: Entries.Log, l2: Entries.Log, prev: int, entries: Entries.Log)
    requires l <= l2 && -1 <= prev && prev + 1 + |entries| <= |l|
    requires entries == l[prev + 1..prev + 1 + |entries|]
    ensures entries == l2[prev + 1..prev + 1 + |entries|] && Entries.TermAt(l2, prev) == Entries.TermAt(l, prev)
  {
    assert l2[..|l|] == l;
  }

  lemma AppendGrows(w: World, z: World, m: Append)
    requires Inv(w) && Grows(w, z) && m in w.appends
    ensures AppendOk(z, m)
  {
    assert AppendOk(w, m);
    var l, l2 := w.leaders[m.term].log, z.leaders[m.term].log;
    assert LeaderGrows(w.leaders[m.term], z.leaders[m.term]);
    SliceGrows(l, l2, m.prev, m.entries);
    if m.commit >= 0 {
      BackedInside(w, m.term, l, m.commit);
      assert l2[..m.commit + 1] == l[..m.commit + 1];
      BackedGrows(w, z, m.term, l, m.term, l2, m.commit);
    }
  }

  lemma BackedInside(w: World, bound: nat, log: Entries.Log, c: nat)
    requires Backed(w, bound, log, c)
    ensures c < |log|
  {
    var t: nat, k: nat :| BackedBy(w, bound, log, c, t, k);
  }

  lemma KeepVotes(w: World, z: World, v: nat)
    requires Inv(w) && Frame(w, z, v)
    ensures forall x {:trigger VoteOk(z, x)} ::
      (x in w.votes && (x.term in z.leaders && x.term !in w.leaders ==> z.leaders[x.term].id != x.voter)) ==>
        VoteOk(z, x)
  {
    forall x | x in w.votes && (x.term in z.leaders && x.term !in w.leaders ==> z.leaders[x.term].id != x.voter)
      ensures VoteOk(z, x)
    {
      assert VoteOk(w, x);
      assert ReplicaOk(w, x.voter, w.replicas[x.voter]);
    }
  }

  lemma KeepLeaders(w: World, z: World, v: nat)
    requires Inv(w) && Frame(w, z, v)
    ensures forall t {:trigger LeaderOk(z, t, z.leaders[t])} ::
      (t in w.leaders && z.leaders[t].log == w.leaders[t].log) ==> LeaderOk(z, t, z.leaders[t])
  {
    forall t | t in w.leaders && z.leaders[t].log == w.leaders[t].log
      ensures LeaderOk(z, t, z.leaders[t])
    {
      var l := w.leaders[t];
      assert LeaderOk(w, t, l);
      KnownGrows(w, z, l.log);
      assert VoterOk(w, t, l, l.id);
      KeepVoters(w, z, v, t);
    }
  }

  lemma KeepVoters(w: World, z: World, v: nat, t: nat)
    requires Inv(w) && Frame(w, z, v) && t in w.leaders
    ensures forall u {:trigger VoterOk(z, t, z.leaders[t], u)} ::
      u in z.leaders[t].votes ==> VoterOk(z, t, z.leaders[t], u)
  {
    var l, l2 := w.leaders[t], z.leaders[t];
    assert LeaderOk(w, t, l) && LeaderGrows(l, l2);
    assert l2.log[..l.base] == l.log[..l.base];
    forall u | u in l2.votes
      ensures VoterOk(z, t, l2, u)
    {
      assert VoterOk(w, t, l, u);
      assert ReplicaOk(w, u, w.replicas[u]);
    }
  }

  lemma BasesFit(w: World)
    requires Inv(w)
    ensures forall t :: t in w.leaders ==> w.leaders[t].base <= |w.leaders[t].log|
  {
    forall t | t in w.leaders
      ensures w.leaders[t].base <= |w.leaders[t].log|
    {
      assert LeaderOk(w, t, w.leaders[t]);
    }
  }

  lemma KeepAcks(w: World, z: World, v: nat)
    requires Inv(w) && Frame(w, z, v)
    ensures forall a {:trigger AckOk(z, a)} ::
      (a in w.acks && (a.replica == v ==> w.replicas[v].disk <= z.replicas[v].disk)) ==> AckOk(z, a)
  {
    forall a | a in w.acks && (a.replica == v ==> w.replicas[v].disk <= z.replicas[v].disk)
      ensures AckOk(z, a)
    {
      assert AckOk(w, a);
      var d, d2 := w.replicas[a.replica].disk, z.replicas[a.replica].disk;
      var hi, hi2 := w.replicas[a.replica].term + 1, z.replicas[a.replica].term + 1;
      BasesFit(w);
      forall k: nat | k <= a.upto && AllLater(z, a.term, k, hi2)
        ensures Holds(z, d2, a.term, k)
      {
        AllLaterLess(z, a.term, k, hi, hi2);
        AllLaterGrows(w, z, a.term, k, hi);
        HoldsGrows(w, z, d, a.term, k);
        assert d2[..k + 1] == d[..k + 1];
      }
    }
  }

  lemma AllLaterLess(w: World, t: nat, k: nat, hi: nat, hi2: nat)
    requires hi <= hi2 && AllLater(w, t, k, hi2)
    ensures AllLater(w, t, k, hi)
  {
  }

  lemma KeepOpenVotes(w: World, z: World, v: nat)
    requires Inv(w) && Frame(w, z, v)
    ensures forall x, a {:trigger OpenVoteOk(z, x, a)} :: x in w.votes && a in w.acks ==> OpenVoteOk(z, x, a)
  {
    BasesFit(w);
    forall x, a | x in w.votes && a in w.acks
      ensures OpenVoteOk(z, x, a)
    {
      assert OpenVoteOk(w, x, a) && AckOk(w, a);
      if a.replica == x.voter && a.term < x.term && x.term !in z.leaders {
        assert x.term !in w.leaders;
        forall k: nat | k <= a.upto && AllLater(z, a.term, k, x.term)
          ensures Holds(z, x.log, a.term, k)
        {
          AllLaterGrows(w, z, a.term, k, x.term);
          HoldsGrows(w, z, x.log, a.term, k);
        }
      }
    }
  }

  lemma KeepElected(w: World, z: World, v: nat)
    requires Inv(w) && Frame(w, z, v)
    ensures forall t, a {:trigger ElectedOk(z, t, z.leaders[t], a)} ::
      t in w.leaders && a in w.acks ==> ElectedOk(z, t, z.leaders[t], a)
  {
    BasesFit(w);
    forall t, a | t in w.leaders && a in w.acks
      ensures ElectedOk(z, t, z.leaders[t], a)
    {
      var l, l2 := w.leaders[t], z.leaders[t];
      assert ElectedOk(w, t, l, a) && AckOk(w, a) && LeaderGrows(l, l2);
      if a.replica in l2.votes && a.term < t {
        forall k: nat | k <= a.upto && AllLater(z, a.term, k, t)
          ensures Holds(z, l2.votes[a.replica], a.term, k)
        {
          AllLaterGrows(w, z, a.term, k, t);
          HoldsGrows(w, z, l.votes[a.replica], a.term, k);
        }
      }
    }
  }

  lemma KeepCommits(w: World, z: World, v: nat)
    requires Inv(w) && Frame(w, z, v)
    ensures forall i {:trigger CommitOk(z, z.replicas[i])} ::
      0 <= i < |z.replicas| && i != v ==> CommitOk(z, z.replicas[i])
    ensures forall t {:trigger DoneOk(z, t, z.leaders[t])} ::
      (t in w.leaders && z.leaders[t].done == w.leaders[t].done) ==> DoneOk(z, t, z.leaders[t])
  {
    forall i | 0 <= i < |z.replicas| && i != v
      ensures CommitOk(z, z.replicas[i])
    {
      var r := w.replicas[i];
      assert CommitOk(w, r) && ReplicaOk(w, i, r);
      BackedGrows(w, z, r.term, r.disk, r.term, r.disk, r.commit);
    }
    forall t | t in w.leaders && z.leaders[t].done == w.leaders[t].done
      ensures DoneOk(z, t, z.leaders[t])
    {
      assert DoneOk(w, t, w.leaders[t]);
      forall i | i in z.leaders[t].done
        ensures Committed(z, t, i)
      {
        CommittedGrows(w, z, t, i);
      }
    }
  }

  /** The commit index of the stepping replica, when it and the prefix below it stay. */
  lemma KeepCommit(w: World, z: World, v: nat)
    requires Inv(w) && Frame(w, z, v)
    requires z.replicas[v].commit == w.replicas[v].commit
    requires w.replicas[v].disk <= z.replicas[v].disk
    requires z.replicas[v].role == Leader ==> w.replicas[v].role == Leader && z.replicas[v].term == w.replicas[v].term
    requires forall t :: t in w.leaders ==> w.leaders[t].done == z.leaders[t].done
    ensures CommitOk(z, z.replicas[v])
  {
    var r, s := w.replicas[v], z.replicas[v];
    assert CommitOk(w, r) && ReplicaOk(w, v, r);
    assert s.disk[..r.commit + 1] == r.disk[..r.commit + 1];
    BackedGrows(w, z, r.term, r.disk, s.term, s.disk, r.commit);
  }
}
