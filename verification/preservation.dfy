/** Every small step keeps the invariant. */
module Preservation {
  import opened Entries
  import opened Consensus
  import opened Steps
  import opened Frames

  /** Everything old, for a step that leaves every leader's log and count alone. */
  lemma KeepOld(w: World, z: World, v: nat)
    requires Inv(w) && Frame(w, z, v)
    requires z.leaders == w.leaders && w.replicas[v].disk <= z.replicas[v].disk
    requires z.requests == w.requests && z.appends == w.appends && z.votes == w.votes && z.acks == w.acks
    requires ReplicaOk(z, v, z.replicas[v]) && CommitOk(z, z.replicas[v])
    ensures Inv(z)
  {
    KeepReplicas(w, z, v);
    KeepRequests(w, z, v);
    KeepAppends(w, z, v);
    KeepVotes(w, z, v);
    KeepLeaders(w, z, v);
    KeepAcks(w, z, v);
    KeepOpenVotes(w, z, v);
    KeepElected(w, z, v);
    KeepCommits(w, z, v);
  }

  lemma ObserveKeeps(w: World, v: nat, term: nat)
    requires Inv(w) && CanObserve(w, v, term)
    ensures Inv(Observe(w, v, term)) && Frame(w, Observe(w, v, term), v)
  {
    var z := Observe(w, v, term);
    assert ReplicaOk(w, v, w.replicas[v]);
    assert ReplicaOk(z, v, z.replicas[v]);
    KeepCommit(w, z, v);
    KeepOld(w, z, v);
  }

  lemma FlushKeeps(w: World, v: nat)
    requires Inv(w) && v < |w.replicas|
    ensures Inv(Flush(w, v)) && Frame(w, Flush(w, v), v)
  {
    var z := Flush(w, v);
    var r := w.replicas[v];
    assert ReplicaOk(w, v, r);
    assert ReplicaOk(z, v, z.replicas[v]) by {
      if r.votedFor >= 0 && r.votedFor != v {
        HasVoteGrows(w, z, v, r.votedFor, r.term);
      }
    }
    KeepCommit(w, z, v);
    KeepOld(w, z, v);
  }

  lemma StandKeeps(w: World, v: nat)
    requires Inv(w) && CanStand(w, v)
    ensures Inv(Stand(w, v)) && Frame(w, Stand(w, v), v)
  {
    var z := Stand(w, v);
    assert ReplicaOk(w, v, w.replicas[v]);
    KeepReplicas(w, z, v);
    assert ReplicaOk(z, v, z.replicas[v]);
    KeepCommit(w, z, v);
    KeepCommits(w, z, v);
    KeepRequests(w, z, v);
    forall q | q in z.requests
      ensures RequestOk(z, q)
    {
    }
    KeepAppends(w, z, v);
    KeepVotes(w, z, v);
    KeepLeaders(w, z, v);
    KeepAcks(w, z, v);
    KeepOpenVotes(w, z, v);
    KeepElected(w, z, v);
  }

  lemma GrantKeeps(w: World, v: nat, q: Request)
    requires Inv(w) && CanGrant(w, v, q)
    ensures Inv(Grant(w, v, q)) && Frame(w, Grant(w, v, q), v)
  {
    var z := Grant(w, v, q);
    var r := w.replicas[v];
    var x := Vote(v, q.candidate, q.term, r.log);
    assert ReplicaOk(w, v, r) && RequestOk(w, q);
    KeepReplicas(w, z, v);
    assert HasVote(z, v, q.candidate, q.term) by {
      assert x in z.votes;
    }
    assert ReplicaOk(z, v, z.replicas[v]);
    KeepCommit(w, z, v);
    KeepCommits(w, z, v);
    KeepRequests(w, z, v);
    KeepAppends(w, z, v);
    KeepLeaders(w, z, v);
    KeepAcks(w, z, v);
    KeepVotes(w, z, v);
    GrantedVote(w, v, q);
    forall y | y in w.votes && y.voter == v
      ensures y.term != q.term
    {
      assert VoteOk(w, y);
    }
    KeepElected(w, z, v);
    KeepOpenVotes(w, z, v);
    forall y, a | y in z.votes && a in z.acks
      ensures OpenVoteOk(z, y, a)
    {
      if y == x {
        assert AckOk(z, a);
        if a.replica == v && a.term < x.term && x.term !in z.leaders {
          forall k: nat | k <= a.upto && AllLater(z, a.term, k, x.term)
            ensures Holds(z, x.log, a.term, k)
          {
            assert AllLater(z, a.term, k, x.term + 1);
          }
        }
      }
    }
  }

  lemma GrantedVote(w: World, v: nat, q: Request)
    requires Inv(w) && CanGrant(w, v, q)
    ensures VoteOk(Grant(w, v, q), Vote(v, q.candidate, q.term, w.replicas[v].log))
  {
    assert ReplicaOk(w, v, w.replicas[v]) && RequestOk(w, q);
    if q.term in w.leaders {
      var l := w.leaders[q.term];
      assert LeaderOk(w, q.term, l);
      assert VoterOk(w, q.term, l, l.id);
    }
  }

  /** The members of an electing quorum voted for the leader and for nobody else. */
  lemma VoterDecides(w: World, t: nat, v: nat, c: nat)
    requires Inv(w) && t in w.leaders && v in w.leaders[t].votes && c < |w.replicas|
    requires v != c ==> HasVote(w, v, c, t)
    requires v == c ==> w.replicas[c].term == t && w.replicas[c].votedFor == c
    ensures c == w.leaders[t].id
  {
    var l := w.leaders[t];
    assert LeaderOk(w, t, l);
    assert VoterOk(w, t, l, v);
    if v != c {
      var x :| x in w.votes && x.voter == v && x.candidate == c && x.term == t;
      assert VoteOk(w, x);
      assert x == Vote(v, l.id, t, l.votes[v]);
    }
  }

  /** Election Safety: nobody can win a term that already has a leader. */
  lemma NoSecondLeader(w: World, c: nat, q: set<nat>)
    requires Inv(w) && CanLead(w, c, q)
    ensures w.replicas[c].term !in w.leaders
  {
    var t := w.replicas[c].term;
    if t in w.leaders {
      var l := w.leaders[t];
      assert LeaderOk(w, t, l);
      assert ReplicaOk(w, c, w.replicas[c]);
      var v := MajoritiesMeet(q, l.votes.Keys, |w.replicas|);
      VoterDecides(w, t, v, c);
      assert false;
    }
  }

  lemma LeadFrame(w: World, c: nat, q: set<nat>, noop: LogEntry)
    requires Inv(w) && CanLead(w, c, q) && noop.term == w.replicas[c].term
    ensures Frame(w, Lead(w, c, q, noop), c)
    ensures w.replicas[c].term !in w.leaders
  {
    NoSecondLeader(w, c, q);
  }

  lemma LeadLocal(w: World, c: nat, q: set<nat>, noop: LogEntry)
    requires Inv(w) && CanLead(w, c, q) && noop.term == w.replicas[c].term
    ensures LocalOk(Lead(w, c, q, noop)) && CommitsOk(Lead(w, c, q, noop))
  {
    var z := Lead(w, c, q, noop);
    var r, t := w.replicas[c], w.replicas[c].term;
    LeadFrame(w, c, q, noop);
    assert ReplicaOk(w, c, r);
    KeepReplicas(w, z, c);
    ElectedLog(w, c, q, noop);
    assert ReplicaOk(z, c, z.replicas[c]);
    assert CommitOk(z, z.replicas[c]) by {
      assert CommitOk(w, r);
      assert z.replicas[c].disk[..r.commit + 1] == r.disk[..r.commit + 1];
      BackedGrows(w, z, t, r.disk, t, z.replicas[c].disk, r.commit);
    }
    KeepCommits(w, z, c);
    assert DoneOk(z, t, z.leaders[t]);
  }

  lemma LeadMessages(w: World, c: nat, q: set<nat>, noop: LogEntry)
    requires Inv(w) && CanLead(w, c, q) && noop.term == w.replicas[c].term
    ensures var z := Lead(w, c, q, noop); RequestsOk(z) && AppendsOk(z) && VotesOk(z)
  {
    var z := Lead(w, c, q, noop);
    LeadFrame(w, c, q, noop);
    assert ReplicaOk(w, c, w.replicas[c]);
    KeepRequests(w, z, c);
    KeepAppends(w, z, c);
    KeepVotes(w, z, c);
    forall x | x in z.votes
      ensures VoteOk(z, x)
    {
      assert VoteOk(w, x);
    }
  }

  lemma LeadLeaders(w: World, c: nat, q: set<nat>, noop: LogEntry)
    requires Inv(w) && CanLead(w, c, q) && noop.term == w.replicas[c].term
    ensures LeadersOk(Lead(w, c, q, noop))
  {
    var z := Lead(w, c, q, noop);
    var t := w.replicas[c].term;
    LeadFrame(w, c, q, noop);
    KeepLeaders(w, z, c);
    ElectedLog(w, c, q, noop);
    ElectedVoters(w, c, q, noop);
    assert LeaderOk(z, t, z.leaders[t]);
    forall u | u in z.leaders
      ensures LeaderOk(z, u, z.leaders[u])
    {
      if u != t {
        assert z.leaders[u] == w.leaders[u];
      }
    }
  }

  lemma LeadAcks(w: World, c: nat, q: set<nat>, noop: LogEntry)
    requires Inv(w) && CanLead(w, c, q) && noop.term == w.replicas[c].term
    ensures AcksOk(Lead(w, c, q, noop))
  {
    var z := Lead(w, c, q, noop);
    var t := w.replicas[c].term;
    LeadFrame(w, c, q, noop);
    assert ReplicaOk(w, c, w.replicas[c]);
    KeepAcks(w, z, c);
    KeepOpenVotes(w, z, c);
    KeepElected(w, z, c);
    forall u, a | u in z.leaders && a in z.acks
      ensures ElectedOk(z, u, z.leaders[u], a)
    {
      if u == t {
        ElectedHolds(w, c, q, noop, a);
      }
    }
  }

  lemma LeadKeeps(w: World, c: nat, q: set<nat>, noop: LogEntry)
    requires Inv(w) && CanLead(w, c, q) && noop.term == w.replicas[c].term
    ensures Inv(Lead(w, c, q, noop)) && Frame(w, Lead(w, c, q, noop), c)
    ensures w.replicas[c].term !in w.leaders
  {
    LeadFrame(w, c, q, noop);
    LeadLocal(w, c, q, noop);
    LeadMessages(w, c, q, noop);
    LeadLeaders(w, c, q, noop);
    LeadAcks(w, c, q, noop);
  }

  lemma ElectedLog(w: World, c: nat, q: set<nat>, noop: LogEntry)
    requires Inv(w) && CanLead(w, c, q) && noop.term == w.replicas[c].term
    requires w.replicas[c].term !in w.leaders
    ensures var z := Lead(w, c, q, noop); var log := w.replicas[c].log;
      && Known(z.leaders, log + [noop]) && Sorted(log + [noop]) && TermsUpTo(log + [noop], noop.term)
      && forall i :: 0 <= i < |log| ==> log[i].term < noop.term
  {
    var z := Lead(w, c, q, noop);
    var r := w.replicas[c];
    var log := r.log + [noop];
    assert ReplicaOk(w, c, r);
    forall i | 0 <= i < |log|
      ensures Stamped(z.leaders, log, i, log[i].term)
      ensures i < |r.log| ==> r.log[i].term < noop.term
    {
      if i < |r.log| {
        assert Stamped(w.leaders, r.log, i, r.log[i].term);
        assert log[..i + 1] == r.log[..i + 1];
      }
    }
  }

  lemma ElectedVoters(w: World, c: nat, q: set<nat>, noop: LogEntry)
    requires Inv(w) && CanLead(w, c, q)
    requires w.replicas[c].term !in w.leaders
    ensures var z := Lead(w, c, q, noop); var t := w.replicas[c].term;
      && z.leaders[t].votes.Keys == q
      && forall v {:trigger VoterOk(z, t, z.leaders[t], v)} ::
           v in z.leaders[t].votes ==> VoterOk(z, t, z.leaders[t], v)
  {
    var z := Lead(w, c, q, noop);
    var r, t := w.replicas[c], w.replicas[c].term;
    assert ReplicaOk(w, c, r);
    assert z.leaders[t].log[..|r.log|] == r.log;
    forall v | v in z.leaders[t].votes
      ensures VoterOk(z, t, z.leaders[t], v)
    {
      if v != c {
        var x :| x in w.votes && x.voter == v && x.candidate == c && x.term == t;
        assert VoteOk(w, x);
        assert VoteLog(w, v, c, t) == x.log;
      }
    }
  }

  /** A voter's log at its vote carries what it had acknowledged, unless an earlier leader lost it. */
  lemma ElectedHolds(w: World, c: nat, q: set<nat>, noop: LogEntry, a: Ack)
    requires Inv(w) && CanLead(w, c, q) && a in w.acks
    requires w.replicas[c].term !in w.leaders
    ensures var z := Lead(w, c, q, noop); var t := w.replicas[c].term; ElectedOk(z, t, z.leaders[t], a)
  {
    var z := Lead(w, c, q, noop);
    var r, t := w.replicas[c], w.replicas[c].term;
    var l := z.leaders[t];
    assert Grows(w, z);
    assert AckOk(w, a);
    BasesFit(w);
    if a.replica in l.votes && a.term < t {
      forall k: nat | k <= a.upto && AllLater(z, a.term, k, t)
        ensures Holds(z, l.votes[a.replica], a.term, k)
      {
        AllLaterGrows(w, z, a.term, k, t);
        if a.replica == c {
          assert ReplicaOk(w, c, r);
          assert AllLater(w, a.term, k, t + 1);
          HoldsGrows(w, z, r.log, a.term, k);
        } else {
          var x :| x in w.votes && x.voter == a.replica && x.candidate == c && x.term == t;
          assert OpenVoteOk(w, x, a);
          assert VoteLog(w, a.replica, c, t) == x.log;
          HoldsGrows(w, z, x.log, a.term, k);
        }
      }
    }
  }

  lemma ExtendKeeps(w: World, n: nat, e: LogEntry)
    requires Inv(w) && CanExtend(w, n, e)
    ensures Inv(Extend(w, n, e)) && Frame(w, Extend(w, n, e), n)
  {
    var z := Extend(w, n, e);
    var r, t := w.replicas[n], w.replicas[n].term;
    assert ReplicaOk(w, n, r);
    assert LeaderOk(w, t, w.leaders[t]);
    assert Grows(w, z);
    KeepReplicas(w, z, n);
    KnownExtend(w, z, r.log, e);
    assert ReplicaOk(z, n, z.replicas[n]);
    KeepCommit(w, z, n);
    KeepCommits(w, z, n);
    KeepRequests(w, z, n);
    KeepAppends(w, z, n);
    KeepVotes(w, z, n);
    KeepLeaders(w, z, n);
    KeepVoters(w, z, n, t);
    assert LeaderOk(z, t, z.leaders[t]);
    KeepAcks(w, z, n);
    KeepOpenVotes(w, z, n);
    KeepElected(w, z, n);
  }

  lemma KnownExtend(w: World, z: World, log: Log, e: LogEntry)
    requires Grows(w, z) && Known(w.leaders, log)
    requires e.term in z.leaders && z.leaders[e.term].log == log + [e]
    ensures Known(z.leaders, log + [e])
  {
    KnownGrows(w, z, log);
    var x := log + [e];
    forall i | 0 <= i < |x|
      ensures Stamped(z.leaders, x, i, x[i].term)
    {
      if i < |log| {
        assert Stamped(z.leaders, log, i, log[i].term);
        assert x[..i + 1] == log[..i + 1];
      }
    }
  }

  lemma RestartKeeps(w: World, v: nat)
    requires Inv(w) && v < |w.replicas|
    ensures Inv(Restart(w, v)) && Frame(w, Restart(w, v), v)
  {
    var z := Restart(w, v);
    var r := w.replicas[v];
    assert ReplicaOk(w, v, r);
    assert ReplicaOk(z, v, z.replicas[v]) by {
      if r.votedFor >= 0 && r.votedFor != v {
        HasVoteGrows(w, z, v, r.votedFor, r.term);
      }
      KnownPrefix(w, r.log, r.disk);
    }
    KeepCommit(w, z, v);
    KeepOld(w, z, v);
  }

  lemma KnownPrefix(w: World, log: Log, cut: Log)
    requires Known(w.leaders, log) && cut <= log
    ensures Known(w.leaders, cut)
  {
    forall i | 0 <= i < |cut|
      ensures Stamped(w.leaders, cut, i, cut[i].term)
    {
      assert Stamped(w.leaders, log, i, log[i].term);
      assert cut[..i + 1] == log[..i + 1];
    }
  }

  lemma SelfAckKeeps(w: World, n: nat)
    requires Inv(w) && CanSelfAck(w, n)
    ensures Inv(SelfAck(w, n)) && Frame(w, SelfAck(w, n), n)
  {
    var z := SelfAck(w, n);
    var r, t := w.replicas[n], w.replicas[n].term;
    assert ReplicaOk(w, n, r);
    assert LeaderOk(w, t, w.leaders[t]);
    KeepAcks(w, z, n);
    NewAck(w, z, n, Ack(n, t, |r.log| - 1));
    assert ReplicaOk(z, n, z.replicas[n]) by {
      KnownGrows(w, z, r.log);
    }
    KeepCommit(w, z, n);
  }

  /** A fresh acknowledgement in the replica's own term, with nothing else changed. */
  lemma NewAck(w: World, z: World, v: nat, b: Ack)
    requires Inv(w) && Frame(w, z, v)
    requires z.leaders == w.leaders && z.votes == w.votes && z.requests == w.requests && z.appends == w.appends
    requires z.acks == w.acks + {b} && b.replica == v
    requires b.term == z.replicas[v].term && b.term in w.leaders
    requires w.leaders[b.term].base <= b.upto < |w.leaders[b.term].log|
    requires Holds(z, z.replicas[v].disk, b.term, b.upto)
    requires forall a {:trigger AckOk(z, a)} :: a in w.acks && a.replica == v ==> AckOk(z, a)
    ensures AcksOk(z) && LeadersOk(z) && VotesOk(z) && RequestsOk(z) && AppendsOk(z)
    ensures ReplicaOk(z, v, z.replicas[v]) ==> LocalOk(z)
    ensures CommitOk(z, z.replicas[v]) ==> CommitsOk(z)
  {
    KeepReplicas(w, z, v);
    KeepRequests(w, z, v);
    KeepAppends(w, z, v);
    KeepVotes(w, z, v);
    KeepLeaders(w, z, v);
    KeepCommits(w, z, v);
    KeepAcks(w, z, v);
    KeepOpenVotes(w, z, v);
    KeepElected(w, z, v);
    assert AckOk(z, b) by {
      var d, l := z.replicas[v].disk, z.leaders[b.term].log;
      forall k: nat | k <= b.upto
        ensures Holds(z, d, b.term, k)
      {
        ShorterPrefix(d, l, k + 1, b.upto + 1);
      }
    }
    forall x | x in z.votes
      ensures OpenVoteOk(z, x, b)
    {
      assert VoteOk(z, x);
    }
    forall t | t in z.leaders
      ensures ElectedOk(z, t, z.leaders[t], b)
    {
      assert LeaderOk(z, t, z.leaders[t]);
      if v in z.leaders[t].votes {
        assert VoterOk(z, t, z.leaders[t], v);
      }
    }
  }

  lemma SendKeeps(w: World, m: Append)
    requires Inv(w) && CanSend(w, m) && |w.replicas| > 0
    ensures Inv(Send(w, m)) && Frame(w, Send(w, m), 0)
  {
    var z := Send(w, m);
    assert ReplicaOk(w, 0, w.replicas[0]);
    KeepReplicas(w, z, 0);
    assert ReplicaOk(z, 0, z.replicas[0]) by {
      var r := w.replicas[0];
      KnownGrows(w, z, r.log);
      if r.votedFor >= 0 && r.votedFor != 0 {
        HasVoteGrows(w, z, 0, r.votedFor, r.term);
      }
    }
    KeepCommit(w, z, 0);
    KeepRequests(w, z, 0);
    KeepAppends(w, z, 0);
    if m.commit >= 0 {
      BackedGrows(w, z, m.term, w.leaders[m.term].log, m.term, w.leaders[m.term].log, m.commit);
    }
    assert AppendOk(z, m);
    KeepVotes(w, z, 0);
    KeepLeaders(w, z, 0);
    KeepAcks(w, z, 0);
    KeepOpenVotes(w, z, 0);
    KeepElected(w, z, 0);
    KeepCommits(w, z, 0);
  }

  // ----- Counting proposals -----

  lemma {:induction false} Largest(s: set<nat>) returns (m: nat)
    requires s != {}
    ensures m in s && forall i :: i in s ==> i <= m
  {
    m :| m in s;
    var rest := s - {m};
    if rest != {} {
      var m2 := Largest(rest);
      m := if m < m2 then m2 else m;
    }
    assert forall i :: i in s ==> i in rest || i == m || i <= m;
  }

  /** Distinct indices from `base` on: the largest is at least `base + |s| - 1`. */
  lemma {:induction false} LargestOf(s: set<nat>, base: nat) returns (m: nat)
    requires s != {} && forall i :: i in s ==> i >= base
    ensures m in s && m >= base + |s| - 1
  {
    m := Largest(s);
    var rest := s - {m};
    assert |rest| == |s| - 1;
    if rest != {} {
      var m2 := LargestOf(rest, base);
      assert m2 < m;
    }
  }

  /** One more successful proposal: some counted proposal lies at or above the new commit index. */
  lemma CountedProposal(w: World, n: nat, i: nat)
    requires Inv(w) && CanCommit(w, n, i)
    ensures var r := w.replicas[n]; exists m: nat :: m >= r.commit + 1 && m < |r.log| && Committed(w, r.term, m)
  {
    var r, t := w.replicas[n], w.replicas[n].term;
    var l := w.leaders[t];
    assert ReplicaOk(w, n, r) && LeaderOk(w, t, l) && CommitOk(w, r) && DoneOk(w, t, l);
    forall j | j in l.done + {i}
      ensures j >= l.base && j < |l.log|
    {
      var q :| QuorumAcked(w, t, j, q);
    }
    var m := LargestOf(l.done + {i}, l.base);
  }

  /** The node that committed: its new commit index is backed by a counted proposal at or above it. */
  lemma CommitOwn(w: World, n: nat, i: nat)
    requires Inv(w) && CanCommit(w, n, i) && Grows(w, Commit(w, n, i))
    ensures ReplicaOk(Commit(w, n, i), n, Commit(w, n, i).replicas[n])
    ensures CommitOk(Commit(w, n, i), Commit(w, n, i).replicas[n])
  {
    var z := Commit(w, n, i);
    var r, t := w.replicas[n], w.replicas[n].term;
    assert ReplicaOk(w, n, r) && CommitOk(w, r);
    CountedProposal(w, n, i);
    var m: nat :| m >= r.commit + 1 && m < |r.log| && Committed(w, t, m);
    CommittedGrows(w, z, t, m);
    assert BackedBy(z, t, r.disk, r.commit + 1, t, m);
    KnownGrows(w, z, r.log);
  }

  lemma CommitDone(w: World, n: nat, i: nat)
    requires Inv(w) && CanCommit(w, n, i) && Grows(w, Commit(w, n, i))
    ensures DoneOk(Commit(w, n, i), w.replicas[n].term, Commit(w, n, i).leaders[w.replicas[n].term])
  {
    var z, t := Commit(w, n, i), w.replicas[n].term;
    assert DoneOk(w, t, w.leaders[t]);
    forall j | j in z.leaders[t].done
      ensures Committed(z, t, j)
    {
      CommittedGrows(w, z, t, j);
    }
  }

  lemma CommitLocal(w: World, n: nat, i: nat)
    requires Inv(w) && CanCommit(w, n, i) && Frame(w, Commit(w, n, i), n)
    ensures LocalOk(Commit(w, n, i)) && CommitsOk(Commit(w, n, i))
  {
    var z := Commit(w, n, i);
    CommitOwn(w, n, i);
    CommitDone(w, n, i);
    KeepReplicas(w, z, n);
    KeepCommits(w, z, n);
  }

  lemma CommitKeeps(w: World, n: nat, i: nat)
    requires Inv(w) && CanCommit(w, n, i)
    ensures Inv(Commit(w, n, i)) && Frame(w, Commit(w, n, i), n)
  {
    var z := Commit(w, n, i);
    assert ReplicaOk(w, n, w.replicas[n]);
    CommitLocal(w, n, i);
    KeepRequests(w, z, n);
    KeepAppends(w, z, n);
    KeepVotes(w, z, n);
    KeepLeaders(w, z, n);
    KeepAcks(w, z, n);
    KeepOpenVotes(w, z, n);
    KeepElected(w, z, n);
  }
}
