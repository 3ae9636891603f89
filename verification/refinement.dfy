/** Every event of the group is a few small steps of the protocol. */
module Refinement {
  import opened Consensus
  import opened Steps
  import opened Preservation
  import Acceptance
  import opened Protocol
  import opened Cluster
  import opened Simulation
  import Entries
  import Merging

  /** The facts about one node that every event needs. */
  lemma Unfold(s: Cluster, w: World, i: nat)
    requires Sim(s, w) && i < |s.nodes|
    ensures w.replicas[i] == Core(s.nodes[i]) && NodeOk(w, i, s.nodes[i])
    ensures ReplicaOk(w, i, w.replicas[i]) && CommitOk(w, w.replicas[i])
  {
  }

  lemma PacketOf(s: Cluster, w: World, p: Packet)
    requires Sim(s, w) && p in s.net
    ensures PacketOk(w, p)
  {
  }

  /** A node that neither stands nor leads only has to have its fields on disk. */
  lemma Quiet(w: World, z: World, i: nat, node: Node, next: Node)
    requires NodeOk(w, i, node) && Local(w, z, i)
    requires next.raft.state == Follower && StorageOk(next.raft)
    requires next.raft.replicaId == i && next.raft.replicas == |w.replicas| && |next.raft.nextIndex| == |w.replicas|
    ensures NodeOk(z, i, next)
  {
  }

  /** The history's log of a term only changes while the term is led. */
  ghost predicate LogsLed(w: World, z: World, n: Cluster) {
    forall t {:trigger Led(n, t, z.leaders[t])} :: t in z.leaders ==>
      Led(n, t, z.leaders[t]) || (t in w.leaders && z.leaders[t].log == w.leaders[t].log)
  }

  ghost predicate Led(n: Cluster, t: nat, l: Leadership) {
    Leads(n, l.id) && n.nodes[l.id].raft.currentTerm == t
  }

  // ----- Elections -----

  lemma SimTimeout(s: Cluster, w: World, i: nat, n: Cluster) returns (z: World)
    requires Sim(s, w) && Step(Truncate, s, Timeout(i), n)
    ensures Sim(n, z) && Local(w, z, i) && z.leaders == w.leaders
  {
    Unfold(s, w, i);
    z := Stand(w, i);
    StandKeeps(w, i);
    var node := Stood(s.nodes[i]);
    forall p | p in VoteRequests(node.raft)
      ensures PacketOk(z, p)
    {
    }
    Rebuild(s, w, i, node, VoteRequests(node.raft), z);
  }

  /** Step down first if the request is from a higher term. */
  lemma Meet(w: World, v: nat, f: Fields, term: nat) returns (u: World)
    requires Inv(w) && v < |w.replicas| && w.replicas[v] == CoreOf(f)
    ensures Inv(u) && Local(w, u, v) && u.leaders == w.leaders
    ensures u.replicas[v] == CoreOf(if term > f.currentTerm then ToFollower(f, term) else f)
  {
    u := w;
    if term > f.currentTerm {
      u := Observe(w, v, term);
      ObserveKeeps(w, v, term);
    }
  }

  /** A vote repeated for an older term can no longer be counted: that candidate has moved on. */
  lemma RepeatVote(w: World, v: nat, c: nat, term: nat) returns (z: World)
    requires Inv(w) && v < |w.replicas| && v != c && w.replicas[v].votedFor == c && term <= w.replicas[v].term
    ensures z == Flush(w, v) && Inv(z) && Local(w, z, v)
    ensures c < |z.replicas| && (HasVote(z, v, c, term) || z.replicas[c].term > term)
    ensures w.replicas[v].role == Follower
  {
    z := Flush(w, v);
    FlushKeeps(w, v);
    assert ReplicaOk(w, v, w.replicas[v]);
    if term == w.replicas[v].term {
      HasVoteGrows(w, z, v, c, term);
    }
  }

  lemma FreshVote(w: World, v: nat, q: Request) returns (z: World)
    requires Inv(w) && CanGrant(w, v, q)
    ensures z == Grant(w, v, q) && Inv(z) && Local(w, z, v) && HasVote(z, v, q.candidate, q.term)
    ensures w.replicas[v].role == Follower
  {
    z := Grant(w, v, q);
    GrantKeeps(w, v, q);
    assert ReplicaOk(w, v, w.replicas[v]);
    assert Vote(v, q.candidate, q.term, w.replicas[v].log) in z.votes;
  }

  lemma AnswerVote(w: World, v: nat, f: Fields, m: RequestVoteMessage) returns (z: World)
    requires Inv(w) && v < |w.replicas| && w.replicas[v] == CoreOf(f) && v != m.candidateId
    requires Request(m.candidateId, m.term, m.lastLogIndex, m.lastLogTerm) in w.requests
    ensures Inv(z) && Local(w, z, v) && z.replicas[v] == CoreOf(OnRequestVote(f, m).0) && z.leaders == w.leaders
    ensures m.candidateId < |z.replicas|
    ensures OnRequestVote(f, m).1.voteGranted ==>
      HasVote(z, v, m.candidateId, m.term) || z.replicas[m.candidateId].term > m.term
    ensures OnRequestVote(f, m).0 != f ==> OnRequestVote(f, m).0.state == Follower
  {
    var q := Request(m.candidateId, m.term, m.lastLogIndex, m.lastLogTerm);
    assert RequestOk(w, q);
    var u := Meet(w, v, f, m.term);
    z := u;
    if u.replicas[v].votedFor == m.candidateId {
      z := RepeatVote(u, v, m.candidateId, m.term);
    } else if CanGrant(u, v, q) {
      z := FreshVote(u, v, q);
    }
    LocalTransitive(w, u, z, v);
  }

  lemma SimVoteRequest(s: Cluster, w: World, p: Packet, n: Cluster) returns (z: World)
    requires Sim(s, w) && Step(Truncate, s, DeliverVoteRequest(p), n)
    ensures Sim(n, z) && Local(w, z, p.dest) && z.leaders == w.leaders
  {
    var v := p.dest;
    Unfold(s, w, v);
    PacketOf(s, w, p);
    var node := s.nodes[v];
    var (f, vote) := OnRequestVote(node.raft, p.request);
    z := AnswerVote(w, v, node.raft, p.request);
    var next := node.(raft := f);
    if f == node.raft {
      OwnNode(s, w, z, v);
    } else {
      Quiet(w, z, v, node, next);
    }
    assert PacketOk(z, VoteReply(v, p.from, p.request, vote));
    Rebuild(s, w, v, next, {VoteReply(v, p.from, p.request, vote)}, z);
  }

  /** A node whose own state did not change. */
  lemma OwnNode(s: Cluster, w: World, z: World, i: nat)
    requires Sim(s, w) && i < |s.nodes| && Local(w, z, i) && z.replicas[i] == w.replicas[i] && Inv(z)
    requires w.leaders == z.leaders
    ensures NodeOk(z, i, s.nodes[i])
  {
    Unfold(s, w, i);
    var node := s.nodes[i];
    if node.raft.state == Candidate {
      forall x | x in node.votes && x != i
        ensures HasVote(z, x, i, node.raft.currentTerm)
      {
        HasVoteGrows(w, z, x, i, node.raft.currentTerm);
      }
    }
    if node.raft.state == Leader {
      forall r | 0 <= r < |node.rounds|
        ensures RoundOk(z, i, node.raft.currentTerm, node.rounds[r])
      {
        RoundGrows(w, z, i, i, node.raft.currentTerm, node.rounds[r]);
      }
    }
  }

  lemma SimVoteReply(s: Cluster, w: World, p: Packet, n: Cluster) returns (z: World)
    requires Sim(s, w) && Step(Truncate, s, DeliverVoteReply(p), n)
    ensures Sim(n, z) && Local(w, z, p.dest) && LogsLed(w, z, n)
  {
    var i := p.dest;
    Unfold(s, w, i);
    PacketOf(s, w, p);
    var node := s.nodes[i];
    var next := CountVote(node, p.from, p.vote);
    z := w;
    if node.raft.state == Candidate {
      if p.vote.term > node.raft.currentTerm {
        z := Observe(w, i, p.vote.term);
        ObserveKeeps(w, i, p.vote.term);
        Quiet(w, z, i, node, next);
      } else if p.vote.term == node.raft.currentTerm && p.vote.voteGranted {
        var counted := node.(votes := node.votes + {p.from});
        assert NodeOk(w, i, counted);
        if |counted.votes| * 2 > node.raft.replicas {
          z := SimElection(s, w, i, counted);
        }
      }
    }
    Rebuild(s, w, i, next, {}, z);
  }

  /** The counted votes make a quorum: the candidate leads, and its first round begins. */
  lemma SimElection(s: Cluster, w: World, i: nat, node: Node) returns (z: World)
    requires Sim(s, w) && i < |s.nodes| && node.raft == s.nodes[i].raft
    requires NodeOk(w, i, node) && node.raft.state == Candidate && |node.votes| * 2 > |w.replicas|
    ensures Local(w, z, i) && Inv(z)
    ensures z.replicas[i] == Core(BecomeLeader(node)) && NodeOk(z, i, BecomeLeader(node))
    ensures var t := node.raft.currentTerm;
      && t in z.leaders && z.leaders[t].id == i
      && forall u :: u in z.leaders && u != t ==> u in w.leaders && z.leaders[u] == w.leaders[u]
  {
    Unfold(s, w, i);
    var t, tail := node.raft.currentTerm, |node.raft.log|;
    var noop := NoOpEntry(t);
    z := Lead(w, i, node.votes, noop);
    LeadKeeps(w, i, node.votes, noop);
    var next := BecomeLeader(node);
    var l := z.leaders[t].log;
    assert l[..node.raft.commitIndex + 1] == node.raft.log[..node.raft.commitIndex + 1];
    BackedGrows(w, z, t, node.raft.log, t, l, node.raft.commitIndex);
    assert CountedOk(z, i, t, tail, i);
    assert RoundOk(z, i, t, next.rounds[0]);
  }

  // ----- Rounds -----

  /** A leader begins one more round. */
  lemma NewRound(w: World, z: World, i: nat, node: Node, next: Node, round: Round)
    requires NodeOk(w, i, node) && node.raft.state == Leader && next.raft.state == Leader
    requires Local(w, z, i) && Inv(z) && node.raft.currentTerm == next.raft.currentTerm
    requires next.rounds == node.rounds + [round]
    requires round.ok == {i} && round.term == node.raft.currentTerm && round.term in z.leaders
    requires var l := z.leaders[round.term];
      && l.base <= round.index <= round.upper < |l.log|
      && -1 <= round.leaderCommit < |l.log| && Backed(z, round.term, l.log, round.leaderCommit)
      && forall x :: x in next.waiting ==> x !in l.done
    ensures LeadingOk(z, i, next)
  {
    var t, r := round.term, |node.rounds|;
    assert CountedOk(z, i, t, round.upper, i);
    assert RoundOk(z, i, t, round);
    LeadsItsTerm(w, i, node);
    forall k | 0 <= k < |next.rounds|
      ensures RoundOk(z, i, t, next.rounds[k])
    {
      if k < r {
        RoundGrows(w, z, i, i, t, node.rounds[k]);
      }
    }
  }

  lemma LeadsItsTerm(w: World, i: nat, node: Node)
    requires NodeOk(w, i, node) && node.raft.state == Leader
    ensures forall k {:trigger node.rounds[k]} :: 0 <= k < |node.rounds| ==>
      RoundOk(w, i, node.raft.currentTerm, node.rounds[k])
  {
    forall k | 0 <= k < |node.rounds|
      ensures RoundOk(w, i, node.raft.currentTerm, node.rounds[k])
    {
    }
  }

  /** What a round promises can be kept while its node goes on leading. */
  lemma KeepRounds(w: World, z: World, i: nat, node: Node)
    requires NodeOk(w, i, node) && node.raft.state == Leader
    requires Local(w, z, i)
    ensures forall k {:trigger RoundOk(z, i, node.raft.currentTerm, node.rounds[k])} ::
      0 <= k < |node.rounds| ==> RoundOk(z, i, node.raft.currentTerm, node.rounds[k])
  {
    forall k | 0 <= k < |node.rounds|
      ensures RoundOk(z, i, node.raft.currentTerm, node.rounds[k])
    {
      RoundGrows(w, z, i, i, node.raft.currentTerm, node.rounds[k]);
    }
  }

  /** The leader's own log backs its commit index. */
  lemma OwnCommit(s: Cluster, w: World, i: nat)
    requires Sim(s, w) && Leads(s, i)
    ensures var f := s.nodes[i].raft; var t := f.currentTerm;
      && t in w.leaders && w.leaders[t].id == i && w.leaders[t].log == f.log && w.leaders[t].base < |f.log|
      && -1 <= f.commitIndex < |f.log| && Backed(w, t, f.log, f.commitIndex)
  {
    Unfold(s, w, i);
    var f := s.nodes[i].raft;
    assert LeaderOk(w, f.currentTerm, w.leaders[f.currentTerm]);
    assert f.storage.log[..f.commitIndex + 1] == f.log[..f.commitIndex + 1];
    BackedGrows(w, w, f.currentTerm, f.storage.log, f.currentTerm, f.log, f.commitIndex);
  }

  lemma DoneBelow(w: World, t: nat)
    requires Inv(w) && t in w.leaders
    ensures forall x :: x in w.leaders[t].done ==> x < |w.leaders[t].log|
  {
    assert DoneOk(w, t, w.leaders[t]);
    forall x | x in w.leaders[t].done
      ensures x < |w.leaders[t].log|
    {
      var q :| QuorumAcked(w, t, x, q);
    }
  }

  lemma SimClientWrite(s: Cluster, w: World, i: nat, operation: Entries.Operation, client: Entries.Bytes, n: Cluster)
    returns (z: World)
    requires Sim(s, w) && Step(Truncate, s, ClientWrite(i, operation, client), n)
    ensures Sim(n, z) && Local(w, z, i) && LogsLed(w, z, n)
  {
    Unfold(s, w, i);
    OwnCommit(s, w, i);
    var node := s.nodes[i];
    var f, t := node.raft, node.raft.currentTerm;
    var e := Entries.LogEntry(t, operation, client);
    z := Extend(w, i, e);
    ExtendKeeps(w, i, e);
    DoneBelow(w, t);
    var next := Wrote(node, operation, client);
    var l := z.leaders[t].log;
    assert l[..f.commitIndex + 1] == f.log[..f.commitIndex + 1];
    BackedGrows(w, z, t, f.log, t, l, f.commitIndex);
    NewRound(w, z, i, node, next, next.rounds[|node.rounds|]);
    Rebuild(s, w, i, next, {}, z);
  }

  lemma SimStartRound(s: Cluster, w: World, i: nat, kind: Kind, n: Cluster)
    requires Sim(s, w) && Step(Truncate, s, StartRound(i, kind), n)
    ensures Sim(n, w)
  {
    Unfold(s, w, i);
    OwnCommit(s, w, i);
    var node := s.nodes[i];
    var next := Began(node, kind);
    NewRound(w, w, i, node, next, next.rounds[|node.rounds|]);
    Rebuild(s, w, i, next, {}, w);
  }

  lemma SimRetryNoOp(s: Cluster, w: World, i: nat, n: Cluster)
    requires Sim(s, w) && Step(Truncate, s, RetryNoOp(i), n)
    ensures Sim(n, w)
  {
    Unfold(s, w, i);
    OwnCommit(s, w, i);
    var node := s.nodes[i];
    var next := RetriedNoOp(node);
    LeadsItsTerm(w, i, node);
    assert RoundOk(w, i, node.raft.currentTerm, node.rounds[0]);
    NewRound(w, w, i, node, next, next.rounds[|node.rounds|]);
    Rebuild(s, w, i, next, {}, w);
  }

  // ----- Requests and replies -----

  /** A slice of the leader's log up to `upper`, from anywhere in the log, is a good request. */
  lemma SliceOk(w: World, t: nat, prev: int, upper: int, commit: int)
    requires LeadersOk(w) && t in w.leaders
    requires -1 <= prev < |w.leaders[t].log| && w.leaders[t].base <= upper < |w.leaders[t].log|
    requires -1 <= commit && Backed(w, t, w.leaders[t].log, commit)
    ensures var l := w.leaders[t].log;
      AppendOk(w, Append(t, prev, Entries.TermAt(l, prev), Slice(l, prev + 1, upper), commit))
    ensures upper <= prev + |Slice(w.leaders[t].log, prev + 1, upper)|
  {
    var l := w.leaders[t].log;
    var entries := Slice(l, prev + 1, upper);
    assert entries == l[prev + 1..prev + 1 + |entries|];
  }

  lemma SimSendAppend(s: Cluster, w: World, i: nat, round: nat, peer: nat, n: Cluster) returns (z: World)
    requires Sim(s, w) && Step(Truncate, s, SendAppend(i, round, peer), n)
    ensures Sim(n, z) && Local(w, z, i) && z.leaders == w.leaders
  {
    Unfold(s, w, i);
    OwnCommit(s, w, i);
    var node := s.nodes[i];
    var f, t, r := node.raft, node.raft.currentTerm, node.rounds[round];
    LeadsItsTerm(w, i, node);
    assert RoundOk(w, i, t, r);
    var m := FirstRequest(f, peer, r.upper, r.leaderCommit, r.client);
    var a := Append(t, m.prevLogIndex, m.prevLogTerm, m.entries, m.leaderCommit);
    SliceOk(w, t, m.prevLogIndex, r.upper, r.leaderCommit);
    z := Send(w, a);
    SendFrom(w, i, a);
    OwnNode(s, w, z, i);
    var p := AppendRequest(i, peer, round, r.upper, m);
    assert PacketOk(z, p);
    Rebuild(s, w, i, node, {p}, z);
  }

  lemma SendFrom(w: World, i: nat, a: Append)
    requires Inv(w) && CanSend(w, a) && i < |w.replicas|
    ensures Inv(Send(w, a)) && Local(w, Send(w, a), i)
  {
    SendKeeps(w, a);
  }

  /** The fields of a follower once it has taken over the term of a request. */
  function TakenOver(f: Fields, term: nat): Fields {
    if f.currentTerm < term || f.state == Candidate then ToFollower(f, term) else f
  }

  /** What a request of the follower's own or a higher term does to the part of the fields that safety rests on. */
  lemma AnswerCore(f: Fields, m: AppendEntriesMessage)
    requires m.prevLogIndex >= -1 && f.commitIndex >= -1 && f.currentTerm <= m.term
    ensures var (g, reply) := OnAppendEntries(Truncate, f, m);
      && reply.success == Merging.Matches(f.log, m.prevLogIndex, m.prevLogTerm)
      && (!reply.success ==> g == TakenOver(f, m.term))
      && (reply.success ==>
            var log := Merging.Truncating(f.log, m.prevLogIndex, m.entries);
            CoreOf(g) == CoreOf(TakenOver(f, m.term)).(
              log := log, disk := log, commit := Clamp(f.commitIndex, m.leaderCommit, |log|)))
  {
  }

  lemma StepDown(w: World, v: nat, f: Fields, term: nat) returns (u: World)
    requires Inv(w) && v < |w.replicas| && w.replicas[v] == CoreOf(f) && f.currentTerm <= term
    requires term in w.leaders && w.leaders[term].id != v
    ensures Inv(u) && Local(w, u, v) && u.leaders == w.leaders && u.appends == w.appends
    ensures u.replicas[v] == CoreOf(TakenOver(f, term)) && u.replicas[v].term == term && u.replicas[v].role == Follower
  {
    assert ReplicaOk(w, v, w.replicas[v]);
    u := w;
    if f.currentTerm < term || f.state == Candidate {
      u := Observe(w, v, term);
      ObserveKeeps(w, v, term);
    }
  }

  lemma TakeIn(u: World, v: nat, a: Append) returns (z: World)
    requires Inv(u) && CanAccept(u, v, a)
    ensures z == Accept(u, v, a) && Inv(z) && Local(u, z, v) && z.leaders == u.leaders
    ensures AckedUpTo(z, v, a.term, a.prev + |a.entries|)
    ensures u.replicas[v].commit <= z.replicas[v].commit
  {
    z := Accept(u, v, a);
    Acceptance.AcceptKeeps(u, v, a);
    assert Ack(v, a.term, a.prev + |a.entries|) in z.acks;
  }

  /** The follower's side of a request of its own or a higher term. */
  lemma Answer(w: World, v: nat, f: Fields, m: AppendEntriesMessage) returns (z: World)
    requires Inv(w) && v < |w.replicas| && w.replicas[v] == CoreOf(f)
    requires m.prevLogIndex >= -1 && f.commitIndex >= -1 && f.currentTerm <= m.term
    requires m.term in w.leaders && w.leaders[m.term].id != v
    requires Append(m.term, m.prevLogIndex, m.prevLogTerm, m.entries, m.leaderCommit) in w.appends
    ensures Inv(z) && Local(w, z, v) && z.replicas[v] == CoreOf(OnAppendEntries(Truncate, f, m).0)
    ensures z.replicas[v].term == m.term && z.replicas[v].role == Follower
    ensures OnAppendEntries(Truncate, f, m).1.success ==>
      m.prevLogIndex + |m.entries| >= 0 && AckedUpTo(z, v, m.term, m.prevLogIndex + |m.entries|)
    ensures f.commitIndex <= z.replicas[v].commit
    ensures w.leaders == z.leaders
  {
    var a := Append(m.term, m.prevLogIndex, m.prevLogTerm, m.entries, m.leaderCommit);
    AnswerCore(f, m);
    var u := StepDown(w, v, f, m.term);
    z := u;
    if Merging.Matches(f.log, m.prevLogIndex, m.prevLogTerm) {
      ReachesNoOp(u, a);
      z := TakeIn(u, v, a);
    }
    LocalTransitive(w, u, z, v);
  }

  lemma ReachesNoOp(w: World, a: Append)
    requires Inv(w) && a in w.appends
    ensures a.prev + |a.entries| >= 0
  {
    assert AppendOk(w, a);
  }

  lemma SimDeliverAppend(s: Cluster, w: World, p: Packet, n: Cluster) returns (z: World)
    requires Sim(s, w) && Step(Truncate, s, DeliverAppend(p), n)
    ensures Sim(n, z) && Local(w, z, p.dest) && z.leaders == w.leaders
  {
    var node := s.nodes[p.dest];
    var (f, reply) := OnAppendEntries(Truncate, node.raft, p.append);
    if node.raft.currentTerm <= p.append.term {
      z := SimAnswer(s, w, p, f, reply);
    } else {
      z := w;
      SimStale(s, w, p, reply);
    }
  }

  lemma SimStale(s: Cluster, w: World, p: Packet, reply: AppendEntriesResponse)
    requires Sim(s, w) && p in s.net && p.AppendRequest? && p.dest < |s.nodes| && reply.term > p.append.term
    ensures Local(w, w, p.dest)
    ensures Sim(Moved(s, p.dest, s.nodes[p.dest], {AppendReply(p.dest, p.from, p.round, p.upper, p.append, reply)}), w)
  {
    Unfold(s, w, p.dest);
    PacketOf(s, w, p);
    var answer := AppendReply(p.dest, p.from, p.round, p.upper, p.append, reply);
    assert PacketOk(w, answer);
    Rebuild(s, w, p.dest, s.nodes[p.dest], {answer}, w);
  }

  lemma SimAnswer(s: Cluster, w: World, p: Packet, f: Fields, reply: AppendEntriesResponse) returns (z: World)
    requires Sim(s, w) && p in s.net && p.AppendRequest? && p.dest < |s.nodes|
    requires p.append.prevLogIndex >= -1 && s.nodes[p.dest].raft.commitIndex >= -1
    requires s.nodes[p.dest].raft.currentTerm <= p.append.term
    requires (f, reply) == OnAppendEntries(Truncate, s.nodes[p.dest].raft, p.append)
    ensures Local(w, z, p.dest) && z.leaders == w.leaders
    ensures Sim(Moved(s, p.dest, s.nodes[p.dest].(raft := f),
                      {AppendReply(p.dest, p.from, p.round, p.upper, p.append, reply)}), z)
  {
    var v, m, node := p.dest, p.append, s.nodes[p.dest];
    Unfold(s, w, v);
    PacketOf(s, w, p);
    z := Answer(w, v, node.raft, m);
    AnswerKeepsShape(node.raft, m);
    Quiet(w, z, v, node, node.(raft := f));
    if reply.success {
      AckedLess(z, v, m.term, m.prevLogIndex + |m.entries|, p.upper);
    }
    var answer := AppendReply(v, p.from, p.round, p.upper, m, reply);
    assert PacketOk(z, answer);
    Rebuild(s, w, v, node.(raft := f), {answer}, z);
  }

  lemma AnswerKeepsShape(f: Fields, m: AppendEntriesMessage)
    requires m.prevLogIndex >= -1 && f.commitIndex >= -1 && f.currentTerm <= m.term && StorageOk(f)
    requires f.state == Leader ==> f.currentTerm != m.term
    ensures var g := OnAppendEntries(Truncate, f, m).0;
      && g.state == Follower && StorageOk(g)
      && g.replicaId == f.replicaId && g.replicas == f.replicas && g.nextIndex == f.nextIndex
  {
  }

  lemma AckedLess(w: World, v: nat, t: nat, k: nat, less: nat)
    requires AckedUpTo(w, v, t, k) && less <= k
    ensures AckedUpTo(w, v, t, less)
  {
  }

  lemma SimRetry(s: Cluster, w: World, p: Packet, n: Cluster) returns (z: World)
    requires Sim(s, w) && Step(Truncate, s, DeliverAppendReply(p), n)
    requires OnAppendReply(s.nodes[p.dest].raft, p.from, p.upper, p.reply).1 == Retry
    ensures Sim(n, z) && Local(w, z, p.dest) && z.leaders == w.leaders
  {
    var f := OnAppendReply(s.nodes[p.dest].raft, p.from, p.upper, p.reply).0;
    z := SimSendAgain(s, w, p, f);
  }

  lemma SimSendAgain(s: Cluster, w: World, p: Packet, f: Fields) returns (z: World)
    requires Sim(s, w) && p in s.net && p.AppendReply? && Leads(s, p.dest)
    requires p.append.term == s.nodes[p.dest].raft.currentTerm
    requires f == s.nodes[p.dest].raft.(nextIndex := f.nextIndex) && |f.nextIndex| == |s.nodes[p.dest].raft.nextIndex|
    requires 0 <= p.append.prevLogIndex < |f.log| && p.upper < |f.log|
    ensures Local(w, z, p.dest) && z.leaders == w.leaders
    ensures Sim(Moved(s, p.dest, s.nodes[p.dest].(raft := f),
                      {AppendRequest(p.dest, p.from, p.round, p.upper, RetryRequest(f, p.append, p.upper))}), z)
  {
    var i, m, node := p.dest, p.append, s.nodes[p.dest];
    Unfold(s, w, i);
    PacketOf(s, w, p);
    OwnCommit(s, w, i);
    var again := RetryRequest(f, m, p.upper);
    var a := Append(m.term, again.prevLogIndex, again.prevLogTerm, again.entries, again.leaderCommit);
    SliceOk(w, m.term, again.prevLogIndex, p.upper, f.commitIndex);
    z := Send(w, a);
    SendFrom(w, i, a);
    KeepRounds(w, z, i, node);
    var q := AppendRequest(i, p.from, p.round, p.upper, again);
    assert PacketOk(z, q);
    Rebuild(s, w, i, node.(raft := f), {q}, z);
  }

  /** One more success is counted for the round it answers. */
  lemma CountedRound(s: Cluster, w: World, p: Packet, next: Node)
    requires Sim(s, w) && p in s.net && p.AppendReply? && p.reply.success && RoundsMatch(s, p)
    requires Leads(s, p.dest) && p.reply.term <= s.nodes[p.dest].raft.currentTerm
    requires next == Counted(s.nodes[p.dest], p.round, p.append.term, p.from)
    ensures NodeOk(w, p.dest, next)
  {
    var i, node := p.dest, s.nodes[p.dest];
    var t := node.raft.currentTerm;
    Unfold(s, w, i);
    PacketOf(s, w, p);
    LeadsItsTerm(w, i, node);
    forall k | 0 <= k < |next.rounds|
      ensures RoundOk(w, i, t, next.rounds[k])
    {
      assert RoundOk(w, i, t, node.rounds[k]);
    }
  }

  lemma SimSucceeded(s: Cluster, w: World, p: Packet, n: Cluster) returns (z: World)
    requires Sim(s, w) && Step(Truncate, s, DeliverAppendReply(p), n) && p.reply.success && RoundsMatch(s, p)
    ensures Sim(n, z) && Local(w, z, p.dest) && z.leaders == w.leaders
  {
    var node := s.nodes[p.dest];
    var f := OnAppendReply(node.raft, p.from, p.upper, p.reply).0;
    var next := Counted(node.(raft := f), p.round, p.append.term, p.from);
    if node.raft.currentTerm < p.reply.term {
      z := SimDemoted(s, w, p.dest, p.reply.term, next);
    } else {
      z := w;
      SimCounted(s, w, p, next);
    }
  }

  /** A reply of a higher term makes a follower of the node. */
  lemma SimDemoted(s: Cluster, w: World, i: nat, term: nat, next: Node) returns (z: World)
    requires Sim(s, w) && i < |s.nodes| && s.nodes[i].raft.currentTerm < term
    requires next.raft == ToFollower(s.nodes[i].raft, term)
    ensures Sim(Moved(s, i, next, {}), z) && Local(w, z, i) && z.leaders == w.leaders
  {
    Unfold(s, w, i);
    z := Observe(w, i, term);
    ObserveKeeps(w, i, term);
    Quiet(w, z, i, s.nodes[i], next);
    Rebuild(s, w, i, next, {}, z);
  }

  lemma SimCounted(s: Cluster, w: World, p: Packet, next: Node)
    requires Sim(s, w) && p in s.net && p.AppendReply? && p.reply.success && RoundsMatch(s, p) && p.dest < |s.nodes|
    requires p.from < |s.nodes[p.dest].raft.nextIndex| && p.reply.term <= s.nodes[p.dest].raft.currentTerm
    requires var node := s.nodes[p.dest];
      next == Counted(node.(raft := node.raft.(nextIndex := node.raft.nextIndex[p.from := p.upper + 1])),
                      p.round, p.append.term, p.from)
    ensures Sim(Moved(s, p.dest, next, {}), w) && Local(w, w, p.dest)
  {
    var i, node := p.dest, s.nodes[p.dest];
    Unfold(s, w, i);
    if node.raft.state == Leader {
      CountedRound(s, w, p, Counted(node, p.round, p.append.term, p.from));
      assert NodeOk(w, i, next);
    }
    Rebuild(s, w, i, next, {}, w);
  }

  lemma SimFailed(s: Cluster, w: World, p: Packet, n: Cluster) returns (z: World)
    requires Sim(s, w) && Step(Truncate, s, DeliverAppendReply(p), n)
    requires OnAppendReply(s.nodes[p.dest].raft, p.from, p.upper, p.reply).1 == Failed
    ensures Sim(n, z) && Local(w, z, p.dest) && z.leaders == w.leaders
  {
    var i, node := p.dest, s.nodes[p.dest];
    var f := OnAppendReply(node.raft, p.from, p.upper, p.reply).0;
    if f != node.raft {
      z := SimDemoted(s, w, i, p.reply.term, node.(raft := f));
    } else {
      z := w;
      Unfold(s, w, i);
      Rebuild(s, w, i, node, {}, w);
    }
  }

  // ----- Commits, applying, crashes -----

  /** A quorum has stored the proposal of the round. */
  ghost predicate SucceededNow(s: Cluster, z: World, i: nat, round: nat) {
    && i < |s.nodes| && round < |s.nodes[i].rounds| && s.nodes[i].rounds[round].index >= 0
    && Committed(z, s.nodes[i].raft.currentTerm, s.nodes[i].rounds[round].index)
  }

  /** The leader stores its own log and acknowledges it to itself; then the proposal may be committed. */
  lemma ReadyToCommit(s: Cluster, w: World, i: nat, round: nat) returns (y: World)
    requires Sim(s, w) && Current(s, i, round) && QuorumReached(s, i, round)
    requires s.nodes[i].rounds[round].index in s.nodes[i].waiting
    ensures var node := s.nodes[i]; var r := node.rounds[round];
      && Inv(y) && Local(w, y, i) && y.leaders == w.leaders && r.index >= 0 && CanCommit(y, i, r.index)
      && y.replicas[i] == Core(node).(disk := node.raft.log) && y.replicas[i].term == node.raft.currentTerm
  {
    Unfold(s, w, i);
    OwnCommit(s, w, i);
    var node := s.nodes[i];
    var t, r := node.raft.currentTerm, node.rounds[round];
    LeadsItsTerm(w, i, node);
    assert RoundOk(w, i, t, r);
    var x := Flush(w, i);
    FlushKeeps(w, i);
    y := SelfAck(x, i);
    SelfAckKeeps(x, i);
    LocalTransitive(w, x, y, i);
    QuorumOfRound(w, i, t, r, y);
  }

  lemma SimCommit(s: Cluster, w: World, i: nat, round: nat, n: Cluster) returns (z: World)
    requires Sim(s, w) && Step(Truncate, s, CommitProposal(i, round), n)
    ensures Sim(n, z) && Local(w, z, i) && SucceededNow(s, z, i, round) && LogsLed(w, z, n)
  {
    Unfold(s, w, i);
    var node, r := s.nodes[i], s.nodes[i].rounds[round];
    var y := ReadyToCommit(s, w, i, round);
    z := Commit(y, i, r.index);
    CommitKeeps(y, i, r.index);
    CommittedGrows(y, z, node.raft.currentTerm, r.index);
    LocalTransitive(w, y, z, i);
    KeepRounds(w, z, i, node);
    Rebuild(s, w, i, Committed1(node, round), {}, z);
  }

  /** The counted successes, the leader's own included, stored the proposal. */
  lemma QuorumOfRound(w: World, i: nat, t: nat, r: Round, y: World)
    requires RoundOk(w, i, t, r) && |r.ok| >= |w.replicas| / 2 + 1
    requires Local(w, y, i) && y.leaders == w.leaders
    requires AckedUpTo(y, i, t, r.upper)
    ensures r.index >= 0 && Committed(y, t, r.index)
  {
    forall v | v in r.ok
      ensures AckedUpTo(y, v, t, r.index)
    {
      assert CountedOk(w, i, t, r.upper, v);
      if v != i {
        AckedGrows(w, y, v, t, r.upper);
      }
    }
    assert QuorumAcked(y, t, r.index, r.ok);
  }

  lemma SimGiveUp(s: Cluster, w: World, i: nat, index: nat, n: Cluster)
    requires Sim(s, w) && Step(Truncate, s, GiveUp(i, index), n)
    ensures Sim(n, w)
  {
    Unfold(s, w, i);
    var next := s.nodes[i].(waiting := s.nodes[i].waiting - {index});
    assert NodeOk(w, i, next);
    Rebuild(s, w, i, next, {}, w);
  }

  lemma SimApply(s: Cluster, w: World, i: nat, done: nat, n: Cluster) returns (z: World)
    requires Sim(s, w) && Step(Truncate, s, Apply(i, done), n)
    ensures Sim(n, z) && Local(w, z, i) && z.leaders == w.leaders
  {
    Unfold(s, w, i);
    var node := s.nodes[i];
    z := Flush(w, i);
    FlushKeeps(w, i);
    var next := node.(raft := Applied(node.raft, done), store := ApplyAll(node.store, Batch(node.raft, done)));
    if node.raft.state == Leader {
      KeepRounds(w, z, i, node);
    } else if node.raft.state == Candidate {
      forall x | x in node.votes && x != i
        ensures HasVote(z, x, i, node.raft.currentTerm)
      {
        HasVoteGrows(w, z, x, i, node.raft.currentTerm);
      }
    }
    assert NodeOk(z, i, next);
    Rebuild(s, w, i, next, {}, z);
  }

  lemma SimRestart(s: Cluster, w: World, i: nat, node: Node, n: Cluster) returns (z: World)
    requires Sim(s, w) && i < |s.nodes| && node.raft == s.nodes[i].raft
    requires n == Moved(s, i, Restarted(node), {})
    ensures Sim(n, z) && Local(w, z, i) && z.leaders == w.leaders
  {
    Unfold(s, w, i);
    z := Restart(w, i);
    RestartKeeps(w, i);
    Quiet(w, z, i, s.nodes[i], Restarted(node));
    Rebuild(s, w, i, Restarted(node), {}, z);
  }

  // ----- All of them -----

  /** A reply counts for a round that replicates as far as its request did. */
  ghost predicate RoundsMatch(s: Cluster, p: Packet) {
    p.AppendReply? && Leads(s, p.dest) && p.round < |s.nodes[p.dest].rounds|
    && s.nodes[p.dest].rounds[p.round].term == p.append.term ==>
      s.nodes[p.dest].rounds[p.round].upper == p.upper
  }

  lemma SimStep(s: Cluster, w: World, e: Event, n: Cluster) returns (z: World)
    requires Sim(s, w) && Step(Truncate, s, e, n) && (e.DeliverAppendReply? ==> RoundsMatch(s, e.p))
    ensures Sim(n, z) && Grows(w, z) && LogsLed(w, z, n)
    ensures e.CommitProposal? ==> SucceededNow(s, z, e.i, e.round)
  {
    match e {
      case Timeout(i) => z := SimTimeout(s, w, i, n);
      case DeliverVoteRequest(p) => z := SimVoteRequest(s, w, p, n);
      case DeliverVoteReply(p) => z := SimVoteReply(s, w, p, n);
      case ClientWrite(_, _, _) => z := SimRound(s, w, e, n);
      case StartRound(_, _) => z := SimRound(s, w, e, n);
      case RetryNoOp(_) => z := SimRound(s, w, e, n);
      case SendAppend(i, round, peer) => z := SimSendAppend(s, w, i, round, peer, n);
      case DeliverAppend(p) => z := SimDeliverAppend(s, w, p, n);
      case DeliverAppendReply(p) => z := SimReply(s, w, p, n);
      case CommitProposal(i, round) => z := SimCommit(s, w, i, round, n);
      case _ => z := SimAside(s, w, e, n);
    }
  }

  lemma SimRound(s: Cluster, w: World, e: Event, n: Cluster) returns (z: World)
    requires Sim(s, w) && Step(Truncate, s, e, n) && (e.ClientWrite? || e.StartRound? || e.RetryNoOp?)
    ensures Sim(n, z) && Grows(w, z) && LogsLed(w, z, n)
  {
    z := w;
    match e {
      case ClientWrite(i, operation, client) => z := SimClientWrite(s, w, i, operation, client, n);
      case StartRound(i, kind) => SimStartRound(s, w, i, kind, n);
      case RetryNoOp(i) => SimRetryNoOp(s, w, i, n);
    }
  }

  lemma SimReply(s: Cluster, w: World, p: Packet, n: Cluster) returns (z: World)
    requires Sim(s, w) && Step(Truncate, s, DeliverAppendReply(p), n) && RoundsMatch(s, p)
    ensures Sim(n, z) && Grows(w, z) && LogsLed(w, z, n)
  {
    match OnAppendReply(s.nodes[p.dest].raft, p.from, p.upper, p.reply).1 {
      case Failed => z := SimFailed(s, w, p, n);
      case Succeeded => z := SimSucceeded(s, w, p, n);
      case Retry => z := SimRetry(s, w, p, n);
    }
  }

  lemma SimAside(s: Cluster, w: World, e: Event, n: Cluster) returns (z: World)
    requires Sim(s, w) && Step(Truncate, s, e, n)
    requires e.GiveUp? || e.ServeRead? || e.Apply? || e.CrashInApply? || e.Crash?
    ensures Sim(n, z) && Grows(w, z) && LogsLed(w, z, n)
  {
    z := w;
    match e {
      case GiveUp(i, index) => SimGiveUp(s, w, i, index, n);
      case ServeRead(_, _) =>
      case Apply(i, done) => z := SimApply(s, w, i, done, n);
      case CrashInApply(i, done) =>
        var node := s.nodes[i];
        z := SimRestart(s, w, i, node.(store := ApplyAll(node.store, Batch(node.raft, done))), n);
      case Crash(i) => z := SimRestart(s, w, i, s.nodes[i], n);
    }
  }

  lemma SimStart(replicas: nat) returns (w: World)
    ensures Sim(Start(replicas), w) && w.leaders == map[]
  {
    var s := Start(replicas);
    w := World(seq(replicas, i requires 0 <= i < replicas => Core(s.nodes[i])), map[], {}, {}, {}, {});
    forall i | 0 <= i < replicas
      ensures ReplicaOk(w, i, w.replicas[i]) && CommitOk(w, w.replicas[i])
    {
    }
  }
}
