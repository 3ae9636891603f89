/** How a state of the group and the history of the protocol belong together. */
module Simulation {
  import opened Consensus
  import opened Steps
  import Protocol
  import opened Cluster

  function CoreOf(f: Protocol.Fields): Replica {
    Replica(f.currentTerm, f.votedFor, f.state, f.log, f.storage.log, f.commitIndex)
  }

  function Core(node: Node): Replica {
    CoreOf(node.raft)
  }

  ghost predicate SentBy(w: World, leader: nat, upper: int, m: Protocol.AppendEntriesMessage) {
    && m.term in w.leaders && w.leaders[m.term].id == leader
    && Append(m.term, m.prevLogIndex, m.prevLogTerm, m.entries, m.leaderCommit) in w.appends
    && w.leaders[m.term].base <= upper <= m.prevLogIndex + |m.entries|
  }

  ghost predicate PacketOk(w: World, p: Packet) {
    && p.from < |w.replicas| && p.dest < |w.replicas| && p.from != p.dest
    && match p
       case VoteRequest(from, dest, m) =>
         && m.candidateId == from
         && Request(from, m.term, m.lastLogIndex, m.lastLogTerm) in w.requests
       case VoteReply(from, dest, m, vote) =>
         && vote.term == m.term
         && (vote.voteGranted ==> HasVote(w, from, dest, m.term) || w.replicas[dest].term > m.term)
       case AppendRequest(from, dest, round, upper, m) =>
         SentBy(w, from, upper, m)
       case AppendReply(from, dest, round, upper, m, reply) =>
         && SentBy(w, dest, upper, m)
         && (reply.success && reply.term <= m.term ==>
               AckedUpTo(w, from, m.term, upper))
  }

  ghost predicate NodeOk(w: World, i: nat, node: Node) {
    && var f := node.raft;
    && f.replicaId == i && f.replicas == |w.replicas| && |f.nextIndex| == |w.replicas|
    && Protocol.StorageOk(f)
    && (f.state == Candidate ==> i in node.votes && forall v :: v in node.votes ==>
          v < |w.replicas| && (v != i ==> HasVote(w, v, i, f.currentTerm)))
    && (f.state == Leader ==> LeadingOk(w, i, node))
  }

  ghost predicate LeadingOk(w: World, i: nat, node: Node) {
    && var t := node.raft.currentTerm;
    && t in w.leaders && node.rounds != []
    && (forall x :: x in node.waiting ==> x !in w.leaders[t].done)
    && (forall r {:trigger RoundOk(w, i, t, node.rounds[r])} ::
          0 <= r < |node.rounds| ==> RoundOk(w, i, t, node.rounds[r]))
  }

  ghost predicate RoundOk(w: World, i: nat, t: nat, round: Round) {
    && t in w.leaders
    && round.term == t
    && w.leaders[t].base <= round.index <= round.upper < |w.leaders[t].log|
    && -1 <= round.leaderCommit < |w.leaders[t].log|
    && Backed(w, t, w.leaders[t].log, round.leaderCommit)
    && i in round.ok
    && forall v :: v in round.ok ==> CountedOk(w, i, t, round.upper, v)
  }

  ghost predicate CountedOk(w: World, i: nat, t: nat, upper: int, v: nat) {
    && v < |w.replicas|
    && 0 <= upper
    && (v != i ==> AckedUpTo(w, v, t, upper))
  }

  ghost predicate Sim(s: Cluster, w: World) {
    && |w.replicas| == |s.nodes|
    && (forall i :: 0 <= i < |s.nodes| ==> w.replicas[i] == Core(s.nodes[i]))
    && Inv(w)
    && (forall p {:trigger PacketOk(w, p)} :: p in s.net ==> PacketOk(w, p))
    && (forall i {:trigger NodeOk(w, i, s.nodes[i])} :: 0 <= i < |s.nodes| ==> NodeOk(w, i, s.nodes[i]))
  }

  // ----- What other nodes and old packets rely on only grows -----

  /** Several small steps of replica `v`. */
  ghost predicate Local(w: World, z: World, v: nat) {
    && v < |w.replicas| && Grows(w, z)
    && (forall i :: 0 <= i < |w.replicas| && i != v ==> z.replicas[i] == w.replicas[i])
    && (forall t :: t in w.leaders && w.leaders[t].id != v ==> z.leaders[t] == w.leaders[t])
  }

  lemma LocalTransitive(u: World, w: World, z: World, v: nat)
    requires Local(u, w, v) && Local(w, z, v)
    ensures Local(u, z, v)
  {
    GrowsTransitive(u, w, z);
  }

  lemma PacketGrows(w: World, z: World, v: nat, p: Packet)
    requires Local(w, z, v) && PacketOk(w, p)
    ensures PacketOk(z, p)
  {
    match p
    case VoteRequest(from, dest, m) =>
    case VoteReply(from, dest, m, vote) =>
      if HasVote(w, from, dest, m.term) {
        HasVoteGrows(w, z, from, dest, m.term);
      }
    case AppendRequest(from, dest, round, upper, m) =>
    case AppendReply(from, dest, round, upper, m, reply) =>
      if reply.success && reply.term <= m.term {
        AckedGrows(w, z, from, m.term, upper);
      }
  }

  lemma RoundGrows(w: World, z: World, v: nat, i: nat, t: nat, round: Round)
    requires Local(w, z, v) && RoundOk(w, i, t, round)
    ensures RoundOk(z, i, t, round)
  {
    var l, k := w.leaders[t].log, z.leaders[t].log;
    assert k[..round.leaderCommit + 1] == l[..round.leaderCommit + 1];
    BackedGrows(w, z, t, l, t, k, round.leaderCommit);
    forall x | x in round.ok
      ensures CountedOk(z, i, t, round.upper, x)
    {
      CountedGrows(w, z, v, i, t, round.upper, x);
    }
  }

  lemma CountedGrows(w: World, z: World, v: nat, i: nat, t: nat, upper: int, x: nat)
    requires Local(w, z, v) && t in w.leaders && CountedOk(w, i, t, upper, x)
    ensures CountedOk(z, i, t, upper, x)
  {
    if x != i {
      AckedGrows(w, z, x, t, upper);
    }
  }

  /** A node that did not step. */
  lemma NodeGrows(w: World, z: World, v: nat, i: nat, node: Node)
    requires Local(w, z, v) && NodeOk(w, i, node)
    requires i != v
    requires node.raft.state == Leader ==>
      node.raft.currentTerm in w.leaders && w.leaders[node.raft.currentTerm].id == i
    ensures NodeOk(z, i, node)
  {
    var f := node.raft;
    if f.state == Candidate {
      forall x | x in node.votes && x != i
        ensures HasVote(z, x, i, f.currentTerm)
      {
        HasVoteGrows(w, z, x, i, f.currentTerm);
      }
    }
    if f.state == Leader {
      forall r | 0 <= r < |node.rounds|
        ensures RoundOk(z, i, f.currentTerm, node.rounds[r])
      {
        RoundGrows(w, z, v, i, f.currentTerm, node.rounds[r]);
      }
    }
  }

  /** Put one node's new state and its new packets in place. */
  lemma Rebuild(s: Cluster, w: World, i: nat, node: Node, packets: set<Packet>, z: World)
    requires Sim(s, w) && i < |s.nodes|
    requires Local(w, z, i) && Inv(z)
    requires z.replicas[i] == Core(node) && NodeOk(z, i, node)
    requires forall p {:trigger PacketOk(z, p)} :: p in packets ==> PacketOk(z, p)
    ensures Sim(Moved(s, i, node, packets), z)
  {
    var next := Moved(s, i, node, packets);
    forall p | p in next.net
      ensures PacketOk(z, p)
    {
      if p in s.net {
        PacketGrows(w, z, i, p);
      }
    }
    forall j | 0 <= j < |next.nodes|
      ensures NodeOk(z, j, next.nodes[j])
    {
      if j != i {
        assert NodeOk(w, j, s.nodes[j]);
        assert ReplicaOk(w, j, w.replicas[j]);
        NodeGrows(w, z, i, j, s.nodes[j]);
      }
    }
  }
}
