/** Who leads which term, and what its leader sends. Nothing here depends on how a follower merges
    the entries it receives, so it holds for the loops as written as well as for Section 5.3. */
module Elections {
  import Entries
  import opened Consensus
  import opened Protocol
  import opened Cluster

  /** A vote cast for another node. */
  datatype Ballot = Ballot(voter: nat, candidate: nat, term: nat)

  /** A round when it began: how far it replicates, and the terms that had a leader by then. */
  datatype Begin = Begin(upper: int, leaders: set<nat>)

  /** One term's leader: who elected it, where its no-op went, everything it ever had in its log
      while leading, and the rounds it began. */
  datatype Reign = Reign(id: nat, voters: set<nat>, base: nat, log: Entries.Log, rounds: seq<Begin>)

  datatype History = History(ballots: set<Ballot>, reigns: map<nat, Reign>)

  // ----- What holds in every state -----

  ghost predicate Told(s: Cluster, h: History) {
    && (forall i {:trigger NodeFits(s, h, i)} :: 0 <= i < |s.nodes| ==> NodeFits(s, h, i))
    && (forall x {:trigger BallotFits(s, h, x)} :: x in h.ballots ==> BallotFits(s, h, x))
    && (forall x, y {:trigger Once(x, y)} :: x in h.ballots && y in h.ballots ==> Once(x, y))
    && (forall t {:trigger ReignFits(s, h, t)} :: t in h.reigns ==> ReignFits(s, h, t))
    && (forall p {:trigger PacketFits(s, h, p)} :: p in s.net ==> PacketFits(s, h, p))
  }

  /** Nobody votes for two others in one term. */
  ghost predicate Once(x: Ballot, y: Ballot) {
    x.voter == y.voter && x.term == y.term ==> x == y
  }

  ghost predicate NodeFits(s: Cluster, h: History, i: nat) {
    i < |s.nodes| && NodeTold(s, h, i, s.nodes[i])
  }

  ghost predicate NodeTold(s: Cluster, h: History, i: nat, node: Node) {
    && var f := node.raft;
    && f.replicaId == i && f.replicas == |s.nodes| && |f.nextIndex| == |s.nodes|
    && StorageOk(f)
    && (f.state != Follower ==> f.votedFor == i)
    && -1 <= f.votedFor < |s.nodes|
    && (f.votedFor >= 0 ==> TermReached(s, f.votedFor, f.currentTerm))
    && (f.votedFor >= 0 && f.votedFor != i ==> Ballot(i, f.votedFor, f.currentTerm) in h.ballots)
    && (f.state == Candidate ==> CandidateTold(|s.nodes|, h, i, node))
    && (f.state == Leader ==> LeaderTold(|s.nodes|, h, i, node))
  }

  ghost predicate TermReached(s: Cluster, i: nat, term: nat) {
    i < |s.nodes| && s.nodes[i].raft.currentTerm >= term
  }

  ghost predicate CandidateTold(n: nat, h: History, i: nat, node: Node) {
    i in node.votes && forall v :: v in node.votes ==>
      v < n && (v != i ==> Ballot(v, i, node.raft.currentTerm) in h.ballots)
  }

  ghost predicate LeaderTold(n: nat, h: History, i: nat, node: Node) {
    && var t := node.raft.currentTerm;
    && t in h.reigns && h.reigns[t].id == i && h.reigns[t].log == node.raft.log
    && |h.reigns[t].rounds| == |node.rounds| && node.rounds != []
    && (forall r {:trigger RoundTold(n, h, i, t, r, node.rounds[r])} ::
          0 <= r < |node.rounds| ==> RoundTold(n, h, i, t, r, node.rounds[r]))
  }

  ghost predicate RoundTold(n: nat, h: History, i: nat, t: nat, r: nat, round: Round) {
    && t in h.reigns && r < |h.reigns[t].rounds|
    && round.term == t && h.reigns[t].rounds[r].upper == round.upper
    && h.reigns[t].base <= round.index <= round.upper < |h.reigns[t].log|
    && i in round.ok
    && forall v :: v in round.ok ==> v < n && NotAhead(h, v, t, r)
  }

  /** `v` did not elect any of the higher leaders known when the round began. */
  ghost predicate NotAhead(h: History, v: nat, t: nat, r: nat) {
    && t in h.reigns && r < |h.reigns[t].rounds|
    && forall u :: u in h.reigns[t].rounds[r].leaders && u > t ==> u in h.reigns && v !in h.reigns[u].voters
  }

  ghost predicate BallotFits(s: Cluster, h: History, x: Ballot) {
    && x.voter != x.candidate
    && TermReached(s, x.voter, x.term) && TermReached(s, x.candidate, x.term)
    && (s.nodes[x.voter].raft.currentTerm == x.term ==> s.nodes[x.voter].raft.votedFor == x.candidate)
    && (x.term in h.reigns ==> h.reigns[x.term].id != x.voter)
  }

  ghost predicate ReignFits(s: Cluster, h: History, t: nat) {
    && t in h.reigns
    && var reign := h.reigns[t];
    && reign.id < |s.nodes| && reign.base < |reign.log|
    && Majority(reign.voters, |s.nodes|) && reign.id in reign.voters
    && (forall v {:trigger VoterFits(s, h, t, v)} :: v in reign.voters ==> VoterFits(s, h, t, v))
    && (s.nodes[reign.id].raft.currentTerm == t ==> s.nodes[reign.id].raft.state != Candidate)
    && Knows(h, t)
  }

  /** The rounds of a term only remember terms that were led. */
  ghost predicate Knows(h: History, t: nat) {
    t in h.reigns && forall r :: 0 <= r < |h.reigns[t].rounds| ==> h.reigns[t].rounds[r].leaders <= h.reigns.Keys
  }

  ghost predicate Informed(h: History) {
    forall t {:trigger Knows(h, t)} :: t in h.reigns ==> Knows(h, t)
  }

  lemma InformedKept(h: History, g: History)
    requires Informed(h) && g.reigns == h.reigns
    ensures Informed(g)
  {
    forall t | t in g.reigns
      ensures Knows(g, t)
    {
      assert Knows(h, t);
    }
  }

  lemma InformedNow(s: Cluster, h: History)
    requires Told(s, h)
    ensures Informed(h)
  {
    forall t | t in h.reigns
      ensures Knows(h, t)
    {
      assert ReignFits(s, h, t);
    }
  }

  ghost predicate VoterFits(s: Cluster, h: History, t: nat, v: nat) {
    && t in h.reigns && TermReached(s, v, t)
    && (s.nodes[v].raft.currentTerm == t ==> s.nodes[v].raft.votedFor == h.reigns[t].id)
    && (v != h.reigns[t].id ==> Ballot(v, h.reigns[t].id, t) in h.ballots)
  }

  /** A request that carries the log of its term's leader from `prevLogIndex` up to the tail of its round. */
  ghost predicate Sent(h: History, leader: nat, round: nat, upper: int, m: AppendEntriesMessage) {
    && m.term in h.reigns
    && var reign := h.reigns[m.term];
    && reign.id == leader && round < |reign.rounds| && reign.rounds[round].upper == upper
    && reign.base <= upper < |reign.log| && -1 <= m.prevLogIndex < |reign.log|
    && m.prevLogTerm == Entries.TermAt(reign.log, m.prevLogIndex)
    && m.entries == Slice(reign.log, m.prevLogIndex + 1, upper)
  }

  ghost predicate PacketFits(s: Cluster, h: History, p: Packet) {
    && p.from < |s.nodes| && p.dest < |s.nodes| && p.from != p.dest
    && match p
       case VoteRequest(from, dest, m) =>
         m.candidateId == from && TermReached(s, from, m.term)
       case VoteReply(from, dest, m, vote) =>
         && vote.term == m.term
         && (vote.voteGranted ==> Ballot(from, dest, m.term) in h.ballots || s.nodes[dest].raft.currentTerm > m.term)
       case AppendRequest(from, dest, round, upper, m) =>
         Sent(h, from, round, upper, m)
       case AppendReply(from, dest, round, upper, m, reply) =>
         && Sent(h, dest, round, upper, m)
         && (reply.success && reply.term <= m.term ==> NotAhead(h, from, m.term, round))
         && (!reply.success && reply.term <= m.term ==> m.prevLogIndex >= 0)
  }

  // ----- One fact at a time -----

  lemma ReplyTold(s: Cluster, h: History, p: Packet)
    requires Told(s, h) && p in s.net && p.AppendReply?
    ensures p.from < |s.nodes| && p.dest < |s.nodes| && p.from != p.dest
    ensures Sent(h, p.dest, p.round, p.upper, p.append)
    ensures p.reply.success && p.reply.term <= p.append.term ==> NotAhead(h, p.from, p.append.term, p.round)
    ensures !p.reply.success && p.reply.term <= p.append.term ==> p.append.prevLogIndex >= 0
  {
    assert PacketFits(s, h, p);
  }

  lemma ReignTold(s: Cluster, h: History, i: nat)
    requires Told(s, h) && Leads(s, i)
    ensures var t := s.nodes[i].raft.currentTerm;
      t in h.reigns && h.reigns[t].id == i && h.reigns[t].log == s.nodes[i].raft.log
  {
    assert NodeFits(s, h, i);
  }

  /** The request that a leader sends after a refusal: again its own log, from one entry further back. */
  lemma SentAgain(h: History, f: Fields, leader: nat, round: nat, upper: int, m: AppendEntriesMessage)
    requires Sent(h, leader, round, upper, m) && m.term == f.currentTerm && h.reigns[m.term].log == f.log
    requires 0 <= m.prevLogIndex < |f.log| && upper < |f.log|
    ensures Sent(h, leader, round, upper, RetryRequest(f, m, upper))
  {
  }

  // ----- History only grows -----

  ghost predicate ReignGrows(x: Reign, y: Reign) {
    x.id == y.id && x.voters == y.voters && x.base == y.base && x.log <= y.log && x.rounds <= y.rounds
  }

  ghost predicate Grown(h: History, g: History) {
    && h.ballots <= g.ballots
    && (forall t {:trigger t in g.reigns} :: t in h.reigns ==> t in g.reigns && ReignGrows(h.reigns[t], g.reigns[t]))
  }

  lemma GrownTransitive(h: History, g: History, k: History)
    requires Grown(h, g) && Grown(g, k)
    ensures Grown(h, k)
  {
    forall t | t in h.reigns
      ensures t in k.reigns && ReignGrows(h.reigns[t], k.reigns[t])
    {
      assert t in g.reigns && t in k.reigns;
    }
  }

  /** Only reigns of node `i` have changed. */
  ghost predicate GrownBy(h: History, g: History, i: nat) {
    && Grown(h, g)
    && (forall t {:trigger t in g.reigns} :: t in h.reigns && h.reigns[t].id != i ==> g.reigns[t] == h.reigns[t])
  }

  lemma NotAheadGrows(h: History, g: History, v: nat, t: nat, r: nat)
    requires Grown(h, g) && NotAhead(h, v, t, r)
    ensures NotAhead(g, v, t, r)
  {
    assert t in g.reigns && g.reigns[t].rounds[r] == h.reigns[t].rounds[r];
    forall u | u in g.reigns[t].rounds[r].leaders && u > t
      ensures u in g.reigns && v !in g.reigns[u].voters
    {
      assert u in g.reigns;
    }
  }

  lemma SentGrows(h: History, g: History, leader: nat, round: nat, upper: int, m: AppendEntriesMessage)
    requires Grown(h, g) && Sent(h, leader, round, upper, m)
    ensures Sent(g, leader, round, upper, m)
  {
    assert m.term in g.reigns;
    var l, k := h.reigns[m.term].log, g.reigns[m.term].log;
    assert k[..|l|] == l;
    if m.prevLogIndex + 1 <= upper {
      assert k[m.prevLogIndex + 1..upper + 1] == l[m.prevLogIndex + 1..upper + 1];
    }
  }

  lemma RoundGrows(n: nat, h: History, g: History, i: nat, t: nat, r: nat, round: Round)
    requires Grown(h, g) && RoundTold(n, h, i, t, r, round)
    ensures RoundTold(n, g, i, t, r, round)
  {
    assert t in g.reigns;
    forall v | v in round.ok
      ensures NotAhead(g, v, t, r)
    {
      NotAheadGrows(h, g, v, t, r);
    }
  }

  // ----- One node steps -----

  /** What a step may do to a node's term, vote and role without breaking what others rely on. */
  ghost predicate Careful(f: Fields, g: Fields) {
    && f.currentTerm <= g.currentTerm
    && (f.currentTerm == g.currentTerm ==>
          && (g.votedFor == f.votedFor || f.votedFor == -1 || f.state == Candidate)
          && (g.state == Candidate ==> f.state == Candidate))
  }

  ghost predicate StepsTo(s: Cluster, i: nat, node: Node, z: Cluster) {
    && i < |s.nodes| && z.nodes == s.nodes[i := node] && Careful(s.nodes[i].raft, node.raft)
  }

  lemma TermsKept(s: Cluster, i: nat, node: Node, z: Cluster, j: nat, term: nat)
    requires StepsTo(s, i, node, z) && TermReached(s, j, term)
    ensures TermReached(z, j, term)
  {
  }

  lemma OthersKept(s: Cluster, h: History, i: nat, node: Node, z: Cluster, g: History, j: nat)
    requires Told(s, h) && StepsTo(s, i, node, z) && GrownBy(h, g, i) && j < |s.nodes| && j != i
    ensures NodeFits(z, g, j)
  {
    assert NodeFits(s, h, j);
    var f := s.nodes[j].raft;
    if f.votedFor >= 0 {
      TermsKept(s, i, node, z, f.votedFor, f.currentTerm);
    }
    if f.state == Leader {
      assert f.currentTerm in g.reigns;
      forall r | 0 <= r < |s.nodes[j].rounds|
        ensures RoundTold(|z.nodes|, g, j, f.currentTerm, r, s.nodes[j].rounds[r])
      {
        assert RoundTold(|s.nodes|, h, j, f.currentTerm, r, s.nodes[j].rounds[r]);
        RoundGrows(|s.nodes|, h, g, j, f.currentTerm, r, s.nodes[j].rounds[r]);
      }
    }
  }

  lemma PacketKept(s: Cluster, h: History, i: nat, node: Node, z: Cluster, g: History, p: Packet)
    requires StepsTo(s, i, node, z) && Grown(h, g) && PacketFits(s, h, p)
    ensures PacketFits(z, g, p)
  {
    match p
    case VoteRequest(from, dest, m) => TermsKept(s, i, node, z, from, m.term);
    case VoteReply(from, dest, m, vote) =>
    case AppendRequest(from, dest, round, upper, m) => SentGrows(h, g, from, round, upper, m);
    case AppendReply(from, dest, round, upper, m, reply) =>
      SentGrows(h, g, dest, round, upper, m);
      if reply.success && reply.term <= m.term {
        NotAheadGrows(h, g, from, m.term, round);
      }
  }

  lemma BallotKept(s: Cluster, h: History, i: nat, node: Node, z: Cluster, g: History, x: Ballot)
    requires Told(s, h) && StepsTo(s, i, node, z) && x in h.ballots
    requires x.term in g.reigns ==> g.reigns[x.term].id != x.voter
    ensures BallotFits(z, g, x)
  {
    assert BallotFits(s, h, x);
    TermsKept(s, i, node, z, x.voter, x.term);
    TermsKept(s, i, node, z, x.candidate, x.term);
    assert NodeFits(s, h, x.voter);
  }

  lemma VoterKept(s: Cluster, h: History, i: nat, node: Node, z: Cluster, g: History, t: nat, v: nat)
    requires Told(s, h) && StepsTo(s, i, node, z) && Grown(h, g) && t in h.reigns && v in h.reigns[t].voters
    ensures VoterFits(z, g, t, v)
  {
    assert ReignFits(s, h, t) && VoterFits(s, h, t, v) && t in g.reigns;
    TermsKept(s, i, node, z, v, t);
    assert NodeFits(s, h, v);
  }

  lemma ReignKept(s: Cluster, h: History, i: nat, node: Node, z: Cluster, g: History, t: nat)
    requires Told(s, h) && StepsTo(s, i, node, z) && Grown(h, g) && t in h.reigns
    requires t in g.reigns && Knows(g, t)
    ensures ReignFits(z, g, t)
  {
    assert ReignFits(s, h, t) && VoterFits(s, h, t, h.reigns[t].id);
    assert ReignGrows(h.reigns[t], g.reigns[t]);
    forall v | v in g.reigns[t].voters
      ensures VoterFits(z, g, t, v)
    {
      VoterKept(s, h, i, node, z, g, t, v);
    }
  }

  /** A step that writes no history: only the stepping node and its new packets need a look. */
  lemma Rests(s: Cluster, h: History, i: nat, node: Node, packets: set<Packet>)
    requires Told(s, h) && i < |s.nodes| && Careful(s.nodes[i].raft, node.raft)
    requires var z := Moved(s, i, node, packets);
      NodeTold(z, h, i, node) && forall p {:trigger PacketFits(z, h, p)} :: p in packets ==> PacketFits(z, h, p)
    ensures Told(Moved(s, i, node, packets), h)
  {
    var z := Moved(s, i, node, packets);
    InformedNow(s, h);
    SameLeaders(s, h, h);
    OldKept(s, h, i, node, z, h);
    forall p | p in z.net
      ensures PacketFits(z, h, p)
    {
      if p in s.net {
        PacketKept(s, h, i, node, z, h, p);
      }
    }
  }

  /** The leader of the ballot's term is not the voter. */
  ghost predicate VotedElsewhere(g: History, x: Ballot) {
    x.term in g.reigns ==> g.reigns[x.term].id != x.voter
  }

  ghost predicate NewLeadersKept(h: History, g: History) {
    forall x {:trigger VotedElsewhere(g, x)} :: x in h.ballots ==> VotedElsewhere(g, x)
  }

  lemma SameLeaders(s: Cluster, h: History, g: History)
    requires Told(s, h) && Grown(h, g) && g.reigns.Keys == h.reigns.Keys
    ensures NewLeadersKept(h, g)
  {
    forall x | x in h.ballots
      ensures VotedElsewhere(g, x)
    {
      assert BallotFits(s, h, x);
    }
  }

  /** Everything old. */
  lemma OldKept(s: Cluster, h: History, i: nat, node: Node, z: Cluster, g: History)
    requires Told(s, h) && StepsTo(s, i, node, z) && GrownBy(h, g, i) && NewLeadersKept(h, g)
    requires NodeTold(z, g, i, node)
    requires Informed(g)
    ensures forall j {:trigger NodeFits(z, g, j)} :: 0 <= j < |z.nodes| ==> NodeFits(z, g, j)
    ensures forall x {:trigger BallotFits(z, g, x)} :: x in h.ballots ==> BallotFits(z, g, x)
    ensures forall t {:trigger ReignFits(z, g, t)} :: t in h.reigns ==> ReignFits(z, g, t)
    ensures forall p {:trigger PacketFits(z, g, p)} :: p in s.net ==> PacketFits(z, g, p)
  {
    forall j | 0 <= j < |z.nodes|
      ensures NodeFits(z, g, j)
    {
      if j != i {
        OthersKept(s, h, i, node, z, g, j);
      }
    }
    forall x | x in h.ballots
      ensures BallotFits(z, g, x)
    {
      assert BallotFits(s, h, x) && VotedElsewhere(g, x);
      BallotKept(s, h, i, node, z, g, x);
    }
    forall t | t in h.reigns
      ensures ReignFits(z, g, t)
    {
      assert t in g.reigns;
      ReignKept(s, h, i, node, z, g, t);
    }
    forall p | p in s.net
      ensures PacketFits(z, g, p)
    {
      PacketKept(s, h, i, node, z, g, p);
    }
  }

  // ----- Votes -----

  lemma FirstVotes(s: Cluster, h: History, i: nat, z: Cluster)
    requires Told(s, h) && i < |s.nodes| && s.nodes[i].raft.state != Leader
    requires z == Moved(s, i, Stood(s.nodes[i]), VoteRequests(Stood(s.nodes[i]).raft))
    ensures Told(z, h)
  {
    assert NodeFits(s, h, i);
    var node := Stood(s.nodes[i]);
    forall p | p in VoteRequests(node.raft)
      ensures PacketFits(z, h, p)
    {
    }
    Rests(s, h, i, node, VoteRequests(node.raft));
  }

  /** A node that takes over a higher term follows, with no vote given. */
  lemma Follows(s: Cluster, h: History, i: nat, node: Node, packets: set<Packet>)
    requires Told(s, h) && i < |s.nodes| && Careful(s.nodes[i].raft, node.raft)
    requires var f, g := s.nodes[i].raft, node.raft;
      && g.state == Follower && StorageOk(g)
      && g.replicaId == i && g.replicas == |s.nodes| && |g.nextIndex| == |s.nodes|
      && (g.votedFor == -1 || (g.votedFor == f.votedFor && g.currentTerm == f.currentTerm))
    requires var z := Moved(s, i, node, packets);
      forall p {:trigger PacketFits(z, h, p)} :: p in packets ==> PacketFits(z, h, p)
    ensures Told(Moved(s, i, node, packets), h)
  {
    assert NodeFits(s, h, i);
    var z := Moved(s, i, node, packets);
    if node.raft.votedFor >= 0 && node.raft.votedFor != i {
      TermsKept(s, i, node, z, node.raft.votedFor, node.raft.currentTerm);
    }
    Rests(s, h, i, node, packets);
  }

  /** The history gains a ballot if a vote is given that was not given before. */
  function Voted(h: History, f: Fields, m: RequestVoteMessage): History {
    var g := if m.term > f.currentTerm then ToFollower(f, m.term) else f;
    if g.votedFor != m.candidateId && OnRequestVote(f, m).1.voteGranted
    then h.(ballots := h.ballots + {Ballot(f.replicaId, m.candidateId, m.term)})
    else h
  }

  lemma Votes(s: Cluster, h: History, p: Packet, z: Cluster)
    requires Told(s, h) && p in s.net && p.VoteRequest? && p.dest < |s.nodes|
    requires var (f, vote) := OnRequestVote(s.nodes[p.dest].raft, p.request);
      z == Moved(s, p.dest, s.nodes[p.dest].(raft := f), {VoteReply(p.dest, p.from, p.request, vote)})
    ensures Told(z, Voted(h, s.nodes[p.dest].raft, p.request))
  {
    var v, m, f := p.dest, p.request, s.nodes[p.dest].raft;
    var g := if m.term > f.currentTerm then ToFollower(f, m.term) else f;
    var (f2, vote) := OnRequestVote(f, m);
    var node := s.nodes[v].(raft := f2);
    var answer := VoteReply(v, p.from, m, vote);
    assert NodeFits(s, h, v) && PacketFits(s, h, p);
    if g.votedFor != m.candidateId && vote.voteGranted {
      FreshVote(s, h, p, z);
    } else if f2 == f {
      RestsSame(s, h, v, {answer});
    } else {
      assert PacketFits(z, h, answer);
      Follows(s, h, v, node, {answer});
    }
  }

  /** A node whose own state did not change. */
  lemma RestsSame(s: Cluster, h: History, i: nat, packets: set<Packet>)
    requires Told(s, h) && i < |s.nodes|
    requires var z := Moved(s, i, s.nodes[i], packets);
      forall p {:trigger PacketFits(z, h, p)} :: p in packets ==> PacketFits(z, h, p)
    ensures Told(Moved(s, i, s.nodes[i], packets), h)
  {
    assert Moved(s, i, s.nodes[i], packets).nodes == s.nodes;
    assert NodeFits(s, h, i);
    Rests(s, h, i, s.nodes[i], packets);
  }

  lemma FreshVote(s: Cluster, h: History, p: Packet, z: Cluster)
    requires Told(s, h) && p in s.net && p.VoteRequest? && p.dest < |s.nodes|
    requires var f := s.nodes[p.dest].raft; var m := p.request;
      var g := if m.term > f.currentTerm then ToFollower(f, m.term) else f;
      && g.votedFor == -1 && g.currentTerm == m.term && OnRequestVote(f, m).1.voteGranted
      && z == Moved(s, p.dest, s.nodes[p.dest].(raft := Persist(g.(votedFor := m.candidateId))),
                    {VoteReply(p.dest, p.from, m, RequestVoteResponse(m.term, true))})
    ensures Told(z, Voted(h, s.nodes[p.dest].raft, p.request))
  {
    var v, m, f := p.dest, p.request, s.nodes[p.dest].raft;
    var x := Ballot(v, m.candidateId, m.term);
    assert NodeFits(s, h, v) && PacketFits(s, h, p);
    var g := Voted(h, f, m);
    assert g.ballots == h.ballots + {x};
    InformedNow(s, h);
    InformedKept(h, g);
    SameLeaders(s, h, g);
    forall y | y in h.ballots
      ensures Once(x, y) && Once(y, x)
    {
      assert BallotFits(s, h, y);
    }
    if m.term in h.reigns {
      assert ReignFits(s, h, m.term) && VoterFits(s, h, m.term, h.reigns[m.term].id);
    }
    OldKept(s, h, v, z.nodes[v], z, g);
    assert BallotFits(z, g, x);
  }

  // ----- Winning -----

  /** Who elected a leader has voted for nobody else in its term. */
  lemma VotedForLeader(s: Cluster, h: History, t: nat, v: nat, c: nat)
    requires Told(s, h) && t in h.reigns && v in h.reigns[t].voters && c < |s.nodes|
    requires v != c ==> Ballot(v, c, t) in h.ballots
    requires v == c ==> s.nodes[c].raft.currentTerm == t && s.nodes[c].raft.votedFor == c
    ensures c == h.reigns[t].id
  {
    assert ReignFits(s, h, t) && VoterFits(s, h, t, v);
    if v != c {
      assert BallotFits(s, h, Ballot(v, c, t));
      assert v != h.reigns[t].id ==> Once(Ballot(v, c, t), Ballot(v, h.reigns[t].id, t));
    }
  }

  /** Nobody can win a term that already has a leader. */
  lemma NoSecondReign(s: Cluster, h: History, i: nat, node: Node)
    requires Told(s, h) && i < |s.nodes| && node.raft == s.nodes[i].raft && node.raft.state == Candidate
    requires CandidateTold(|s.nodes|, h, i, node) && Majority(node.votes, |s.nodes|)
    ensures node.raft.currentTerm !in h.reigns
  {
    var t := node.raft.currentTerm;
    assert NodeFits(s, h, i);
    if t in h.reigns {
      assert ReignFits(s, h, t);
      var v := MajoritiesMeet(node.votes, h.reigns[t].voters, |s.nodes|);
      VotedForLeader(s, h, t, v, i);
      assert false;
    }
  }

  /** The reign that begins when `node` has won. */
  function Crowned(h: History, node: Node): History {
    var f, tail := node.raft, |node.raft.log|;
    h.(reigns := h.reigns[f.currentTerm := Reign(f.replicaId, node.votes, tail, f.log + [NoOpEntry(f.currentTerm)],
                                                 [Begin(tail, h.reigns.Keys + {f.currentTerm})])])
  }

  lemma Wins(s: Cluster, h: History, i: nat, node: Node)
    requires Told(s, h) && i < |s.nodes| && node.raft == s.nodes[i].raft && node.raft.state == Candidate
    requires CandidateTold(|s.nodes|, h, i, node) && Majority(node.votes, |s.nodes|)
    ensures Told(Moved(s, i, BecomeLeader(node), {}), Crowned(h, node)) && GrownBy(h, Crowned(h, node), i)
  {
    var z, g, t := Moved(s, i, BecomeLeader(node), {}), Crowned(h, node), node.raft.currentTerm;
    var n := |s.nodes|;
    NoSecondReign(s, h, i, node);
    assert NodeFits(s, h, i);
    InformedNow(s, h);
    forall u | u in g.reigns
      ensures Knows(g, u)
    {
      assert u != t ==> Knows(h, u);
    }
    forall x | x in h.ballots
      ensures VotedElsewhere(g, x)
    {
      assert BallotFits(s, h, x);
    }
    VotersBehind(s, h, i, t);
    assert NotAhead(g, i, t, 0);
    assert RoundTold(n, g, i, t, 0, z.nodes[i].rounds[0]);
    OldKept(s, h, i, z.nodes[i], z, g);
    forall v | v in node.votes
      ensures VoterFits(z, g, t, v)
    {
      assert v != i ==> BallotFits(s, h, Ballot(v, i, t));
      assert NodeFits(s, h, v);
    }
    assert ReignFits(z, g, t);
  }

  /** Who elected a leader has reached its term. */
  lemma VotersBehind(s: Cluster, h: History, i: nat, term: nat)
    requires Told(s, h) && i < |s.nodes| && s.nodes[i].raft.currentTerm <= term
    ensures forall u {:trigger u in h.reigns} :: u in h.reigns && u > term ==> i !in h.reigns[u].voters
  {
    forall u | u in h.reigns && u > term
      ensures i !in h.reigns[u].voters
    {
      assert ReignFits(s, h, u);
      assert i in h.reigns[u].voters ==> VoterFits(s, h, u, i);
    }
  }

  lemma CountsVote(s: Cluster, h: History, p: Packet, z: Cluster) returns (g: History)
    requires Told(s, h) && p in s.net && p.VoteReply? && p.dest < |s.nodes|
    requires z == Moved(s, p.dest, CountVote(s.nodes[p.dest], p.from, p.vote), {})
    ensures Told(z, g) && GrownBy(h, g, p.dest)
  {
    var i, node := p.dest, s.nodes[p.dest];
    assert NodeFits(s, h, i) && PacketFits(s, h, p);
    g := h;
    if node.raft.state == Candidate && p.vote.term > node.raft.currentTerm {
      Follows(s, h, i, CountVote(node, p.from, p.vote), {});
    } else if node.raft.state == Candidate && p.vote.term == node.raft.currentTerm && p.vote.voteGranted {
      var counted := node.(votes := node.votes + {p.from});
      assert CandidateTold(|s.nodes|, h, i, counted);
      if |counted.votes| * 2 > node.raft.replicas {
        Wins(s, h, i, counted);
        g := Crowned(h, counted);
      } else {
        Rests(s, h, i, counted, {});
      }
    } else {
      RestsSame(s, h, i, {});
    }
  }

  // ----- Rounds -----

  /** The leader's log and its rounds go on, with one round more. */
  function Continued(h: History, node: Node, next: Node, upper: int): History
    requires node.raft.currentTerm in h.reigns
  {
    var t := node.raft.currentTerm;
    var reign := h.reigns[t];
    h.(reigns := h.reigns[t := reign.(log := next.raft.log, rounds := reign.rounds + [Begin(upper, h.reigns.Keys)])])
  }

  lemma Continues(s: Cluster, h: History, i: nat, next: Node)
    requires Told(s, h) && i < |s.nodes|
    requires var node := s.nodes[i];
      && node.raft.state == Leader && node.rounds != []
      && next.raft == node.raft.(log := next.raft.log, latestClient := next.raft.latestClient)
      && node.raft.log <= next.raft.log
      && |next.rounds| == |node.rounds| + 1 && next.rounds[..|node.rounds|] == node.rounds
      && var round := next.rounds[|node.rounds|];
      && round.term == node.raft.currentTerm && round.ok == {i}
      && round.index <= round.upper < |next.raft.log|
      && (round.index == node.rounds[0].index || round.index >= |node.raft.log| - 1)
    ensures s.nodes[i].raft.currentTerm in h.reigns
    ensures var g := Continued(h, s.nodes[i], next, next.rounds[|s.nodes[i].rounds|].upper);
      && Told(Moved(s, i, next, {}), g) && GrownBy(h, g, i)
      && |s.nodes[i].rounds| < |g.reigns[s.nodes[i].raft.currentTerm].rounds|
      && g.reigns[s.nodes[i].raft.currentTerm].rounds[|s.nodes[i].rounds|].leaders == h.reigns.Keys
  {
    var node, t, n := s.nodes[i], s.nodes[i].raft.currentTerm, |s.nodes|;
    var r := |node.rounds|;
    var round := next.rounds[r];
    assert NodeFits(s, h, i) && ReignFits(s, h, t);
    var z, g := Moved(s, i, next, {}), Continued(h, node, next, round.upper);
    assert ReignGrows(h.reigns[t], g.reigns[t]);
    InformedNow(s, h);
    forall u | u in g.reigns
      ensures Knows(g, u)
    {
      assert Knows(h, u);
    }
    SameLeaders(s, h, g);
    VotersBehind(s, h, i, t);
    assert NotAhead(g, i, t, r);
    assert RoundTold(n, h, i, t, 0, node.rounds[0]);
    forall k | 0 <= k < |next.rounds|
      ensures RoundTold(n, g, i, t, k, next.rounds[k])
    {
      if k < r {
        assert RoundTold(n, h, i, t, k, node.rounds[k]);
        RoundGrows(n, h, g, i, t, k, node.rounds[k]);
      }
    }
    OldKept(s, h, i, next, z, g);
  }

  // ----- Requests and replies -----

  /** A leader that goes on leading with the same log, its rounds at most counting one success more. */
  lemma LeadsOn(s: Cluster, h: History, i: nat, node: Node, packets: set<Packet>)
    requires Told(s, h) && i < |s.nodes| && s.nodes[i].raft.state == Leader
    requires var x := s.nodes[i];
      && node.raft.state == Leader && node.raft.log == x.raft.log && StorageOk(node.raft)
      && node.raft.currentTerm == x.raft.currentTerm && node.raft.votedFor == x.raft.votedFor
      && node.raft.replicaId == x.raft.replicaId && node.raft.replicas == x.raft.replicas
      && |node.raft.nextIndex| == |x.raft.nextIndex|
      && |node.rounds| == |x.rounds|
      && forall r {:trigger node.rounds[r]} :: 0 <= r < |node.rounds| ==>
           OneMore(h, |s.nodes|, x.raft.currentTerm, r, x.rounds[r], node.rounds[r])
    requires var z := Moved(s, i, node, packets);
      forall p {:trigger PacketFits(z, h, p)} :: p in packets ==> PacketFits(z, h, p)
    ensures Told(Moved(s, i, node, packets), h)
  {
    var x, z, t := s.nodes[i], Moved(s, i, node, packets), s.nodes[i].raft.currentTerm;
    assert NodeFits(s, h, i);
    forall r | 0 <= r < |node.rounds|
      ensures RoundTold(|s.nodes|, h, i, t, r, node.rounds[r])
    {
      assert RoundTold(|s.nodes|, h, i, t, r, x.rounds[r]);
      assert OneMore(h, |s.nodes|, t, r, x.rounds[r], node.rounds[r]);
    }
    Rests(s, h, i, node, packets);
  }

  ghost predicate OneMore(h: History, n: nat, t: nat, r: nat, x: Round, y: Round) {
    y == x || exists v: nat :: v < n && NotAhead(h, v, t, r) && y == x.(ok := x.ok + {v})
  }

  lemma SendsRequest(s: Cluster, h: History, i: nat, round: nat, peer: nat, z: Cluster)
    requires Told(s, h) && Step(Rule.Overwrite, s, SendAppend(i, round, peer), z)
    ensures Told(z, h)
  {
    var node, r := s.nodes[i], s.nodes[i].rounds[round];
    var m := FirstRequest(node.raft, peer, r.upper, r.leaderCommit, r.client);
    assert NodeFits(s, h, i) && RoundTold(|s.nodes|, h, i, node.raft.currentTerm, round, r);
    assert ReignFits(s, h, node.raft.currentTerm);
    assert PacketFits(z, h, AppendRequest(i, peer, round, r.upper, m));
    RestsSame(s, h, i, {AppendRequest(i, peer, round, r.upper, m)});
  }

  /** The follower's side, under either merge: it has the term of the request, or it has nothing changed. */
  lemma AnswerFollows(rule: Rule, f: Fields, m: AppendEntriesMessage)
    requires m.prevLogIndex >= -1 && f.commitIndex >= -1 && StorageOk(f)
    requires !(f.state == Leader && f.currentTerm == m.term)
    ensures var (g, reply) := OnAppendEntries(rule, f, m);
      && Careful(f, g) && StorageOk(g)
      && g.replicaId == f.replicaId && g.replicas == f.replicas && g.nextIndex == f.nextIndex
      && (f.currentTerm > m.term ==> g == f && reply.term > m.term)
      && (f.currentTerm <= m.term ==> g.state == Follower && g.currentTerm == m.term && reply.term == m.term)
      && (g.votedFor == -1 || (g.votedFor == f.votedFor && g.currentTerm == f.currentTerm))
      && (!reply.success && f.currentTerm <= m.term ==> m.prevLogIndex >= 0)
  {
  }

  /** The leader of a request's term is not the node it is sent to. */
  lemma RequestFromAnother(s: Cluster, h: History, p: Packet)
    requires Told(s, h) && p in s.net && p.AppendRequest?
    ensures p.dest < |s.nodes| && p.append.term in h.reigns && Sent(h, p.from, p.round, p.upper, p.append)
    ensures p.from < |s.nodes| && p.from != p.dest && Knows(h, p.append.term)
    ensures !(s.nodes[p.dest].raft.state == Leader && s.nodes[p.dest].raft.currentTerm == p.append.term)
  {
    assert PacketFits(s, h, p) && ReignFits(s, h, p.append.term) && NodeFits(s, h, p.dest);
  }

  lemma Answers(rule: Rule, s: Cluster, h: History, p: Packet, z: Cluster)
    requires Told(s, h) && Step(rule, s, DeliverAppend(p), z)
    ensures Told(z, h)
  {
    var v, f := p.dest, s.nodes[p.dest].raft;
    var (g, reply) := OnAppendEntries(rule, f, p.append);
    RequestFromAnother(s, h, p);
    assert NodeFits(s, h, v);
    AnswerFollows(rule, f, p.append);
    AnswersWith(s, h, p, g, reply, z);
  }

  lemma AnswersWith(s: Cluster, h: History, p: Packet, g: Fields, reply: AppendEntriesResponse, z: Cluster)
    requires Told(s, h) && p in s.net && p.AppendRequest? && p.dest < |s.nodes|
    requires z == Moved(s, p.dest, s.nodes[p.dest].(raft := g),
                        {AppendReply(p.dest, p.from, p.round, p.upper, p.append, reply)})
    requires var f, t := s.nodes[p.dest].raft, p.append.term;
      && Careful(f, g) && StorageOk(g)
      && g.replicaId == f.replicaId && g.replicas == f.replicas && g.nextIndex == f.nextIndex
      && (f.currentTerm > t ==> g == f && reply.term > t)
      && (f.currentTerm <= t ==> g.state == Follower && g.currentTerm == t && reply.term == t)
      && (g.votedFor == -1 || (g.votedFor == f.votedFor && g.currentTerm == f.currentTerm))
      && (!reply.success && f.currentTerm <= t ==> p.append.prevLogIndex >= 0)
    ensures Told(z, h)
  {
    var v, t, f := p.dest, p.append.term, s.nodes[p.dest].raft;
    var answer := AppendReply(v, p.from, p.round, p.upper, p.append, reply);
    RequestFromAnother(s, h, p);
    if f.currentTerm > t {
      assert PacketFits(z, h, answer);
      RestsSame(s, h, v, {answer});
    } else {
      VotersBehind(s, h, v, t);
      assert NotAhead(h, v, t, p.round);
      assert PacketFits(z, h, answer);
      AnswersBelow(s, h, v, g, answer, z);
    }
  }

  lemma AnswersBelow(s: Cluster, h: History, v: nat, g: Fields, answer: Packet, z: Cluster)
    requires Told(s, h) && v < |s.nodes| && z == Moved(s, v, s.nodes[v].(raft := g), {answer}) && answer.AppendReply?
    requires PacketFits(z, h, answer)
    requires var f := s.nodes[v].raft;
      && Careful(f, g) && StorageOk(g) && g.state == Follower
      && g.replicaId == f.replicaId && g.replicas == f.replicas && g.nextIndex == f.nextIndex
      && (g.votedFor == -1 || (g.votedFor == f.votedFor && g.currentTerm == f.currentTerm))
    ensures Told(z, h)
  {
    assert NodeFits(s, h, v);
    Follows(s, h, v, s.nodes[v].(raft := g), {answer});
  }

  lemma TakesReply(rule: Rule, s: Cluster, h: History, p: Packet, z: Cluster)
    requires Told(s, h) && Step(rule, s, DeliverAppendReply(p), z)
    ensures Told(z, h)
  {
    var node := s.nodes[p.dest];
    var (f, outcome) := OnAppendReply(node.raft, p.from, p.upper, p.reply);
    if f.currentTerm != node.raft.currentTerm || node.raft.state != Leader {
      HearsAside(s, h, p, z.nodes[p.dest], z);
    } else if outcome == Retry {
      SendsAgain(s, h, p, z);
    } else {
      assert NodeFits(s, h, p.dest);
      CountsSuccess(s, h, p, z.nodes[p.dest]);
      LeadsOn(s, h, p.dest, z.nodes[p.dest], {});
    }
  }

  /** A reply that demotes the node, or that it no longer waits for. */
  lemma HearsAside(s: Cluster, h: History, p: Packet, next: Node, z: Cluster)
    requires Told(s, h) && p in s.net && p.AppendReply? && p.dest < |s.nodes| && z == Moved(s, p.dest, next, {})
    requires p.from < |s.nodes[p.dest].raft.nextIndex|
    requires var node, f := s.nodes[p.dest], OnAppendReply(s.nodes[p.dest].raft, p.from, p.upper, p.reply).0;
      && next.raft == f && next.votes == node.votes
      && (f.currentTerm != node.raft.currentTerm || node.raft.state != Leader)
    ensures Told(z, h)
  {
    assert NodeFits(s, h, p.dest);
    if s.nodes[p.dest].raft.currentTerm != next.raft.currentTerm {
      Follows(s, h, p.dest, next, {});
    } else {
      Rests(s, h, p.dest, next, {});
    }
  }

  lemma SendsAgain(s: Cluster, h: History, p: Packet, z: Cluster)
    requires Told(s, h) && p in s.net && p.AppendReply? && Leads(s, p.dest)
    requires p.from < |s.nodes[p.dest].raft.nextIndex|
    requires var f, m := OnAppendReply(s.nodes[p.dest].raft, p.from, p.upper, p.reply).0, p.append;
      && OnAppendReply(s.nodes[p.dest].raft, p.from, p.upper, p.reply).1 == Retry
      && f.currentTerm == m.term && 0 <= m.prevLogIndex < |f.log| && p.upper < |f.log|
      && z == Moved(s, p.dest, s.nodes[p.dest].(raft := f),
                    {AppendRequest(p.dest, p.from, p.round, p.upper, RetryRequest(f, m, p.upper))})
    ensures Told(z, h)
  {
    var f := OnAppendReply(s.nodes[p.dest].raft, p.from, p.upper, p.reply).0;
    ReplyTold(s, h, p);
    ReignTold(s, h, p.dest);
    SentAgain(h, f, p.dest, p.round, p.upper, p.append);
    var again := AppendRequest(p.dest, p.from, p.round, p.upper, RetryRequest(f, p.append, p.upper));
    SendsOn(s, h, p.dest, f.nextIndex, again, z);
  }

  /** A leader whose `nextIndex` moves, and which sends one more request. */
  lemma SendsOn(s: Cluster, h: History, i: nat, next: seq<int>, q: Packet, z: Cluster)
    requires Told(s, h) && Leads(s, i) && |next| == |s.nodes[i].raft.nextIndex|
    requires q.AppendRequest? && q.from == i && q.dest < |s.nodes| && q.dest != i
    requires Sent(h, i, q.round, q.upper, q.append)
    requires z == Moved(s, i, s.nodes[i].(raft := s.nodes[i].raft.(nextIndex := next)), {q})
    ensures Told(z, h)
  {
    assert NodeFits(s, h, i);
    assert PacketFits(z, h, q);
    LeadsOn(s, h, i, s.nodes[i].(raft := s.nodes[i].raft.(nextIndex := next)), {q});
  }

  lemma CountsSuccess(s: Cluster, h: History, p: Packet, next: Node)
    requires Told(s, h) && p in s.net && p.AppendReply? && p.dest < |s.nodes|
    requires p.from < |s.nodes[p.dest].raft.nextIndex|
    requires var node := s.nodes[p.dest]; var (f, outcome) := OnAppendReply(node.raft, p.from, p.upper, p.reply);
      && node.raft.state == Leader && f.currentTerm == node.raft.currentTerm && outcome == Succeeded
      && next == Counted(node.(raft := f), p.round, p.append.term, p.from)
    ensures |next.rounds| == |s.nodes[p.dest].rounds|
    ensures forall r {:trigger next.rounds[r]} :: 0 <= r < |next.rounds| ==>
      OneMore(h, |s.nodes|, s.nodes[p.dest].raft.currentTerm, r, s.nodes[p.dest].rounds[r], next.rounds[r])
  {
    var i, node := p.dest, s.nodes[p.dest];
    assert NodeFits(s, h, i) && PacketFits(s, h, p);
    forall r | 0 <= r < |next.rounds|
      ensures OneMore(h, |s.nodes|, node.raft.currentTerm, r, node.rounds[r], next.rounds[r])
    {
      assert RoundTold(|s.nodes|, h, i, node.raft.currentTerm, r, node.rounds[r]);
    }
  }

  // ----- All events -----

  /** Steps that leave the term, the vote, the role, the log and the counters alone. */
  lemma Aside(s: Cluster, h: History, i: nat, node: Node)
    requires Told(s, h) && i < |s.nodes|
    requires var x := s.nodes[i];
      && node.raft == x.raft.(commitIndex := node.raft.commitIndex, lastApplied := node.raft.lastApplied,
                              trackMessage := node.raft.trackMessage, commitsReady := node.raft.commitsReady,
                              storage := node.raft.storage)
      && StorageOk(node.raft) && node.votes == x.votes && node.rounds == x.rounds
    ensures Told(Moved(s, i, node, {}), h)
  {
    assert NodeFits(s, h, i);
    if s.nodes[i].raft.state == Leader {
      LeadsOn(s, h, i, node, {});
    } else {
      Rests(s, h, i, node, {});
    }
  }

  lemma Restarts(s: Cluster, h: History, i: nat, node: Node)
    requires Told(s, h) && i < |s.nodes| && node.raft == s.nodes[i].raft
    ensures Told(Moved(s, i, Restarted(node), {}), h)
  {
    assert NodeFits(s, h, i);
    Follows(s, h, i, Restarted(node), {});
  }

  /** The newest round of leader `i` remembers the terms led so far. */
  ghost predicate Begun(s: Cluster, h: History, g: History, i: nat) {
    && i < |s.nodes|
    && var t, r := s.nodes[i].raft.currentTerm, |s.nodes[i].rounds|;
    && t in g.reigns && r < |g.reigns[t].rounds| && g.reigns[t].rounds[r].leaders == h.reigns.Keys
  }

  lemma RoundBegins(rule: Rule, s: Cluster, h: History, e: Event, z: Cluster) returns (g: History)
    requires Told(s, h) && Step(rule, s, e, z) && (e.ClientWrite? || e.StartRound? || e.RetryNoOp?)
    ensures Told(z, g) && Grown(h, g) && Begun(s, h, g, e.i)
  {
    var i := e.i;
    var node, next := s.nodes[i], z.nodes[i];
    assert NodeFits(s, h, i);
    assert RoundTold(|s.nodes|, h, i, node.raft.currentTerm, 0, node.rounds[0]);
    Continues(s, h, i, next);
    g := Continued(h, node, next, next.rounds[|node.rounds|].upper);
  }

  lemma Goes(rule: Rule, s: Cluster, h: History, e: Event, z: Cluster) returns (g: History)
    requires Told(s, h) && Step(rule, s, e, z)
    ensures Told(z, g) && Grown(h, g) && (e.StartRound? ==> Begun(s, h, g, e.i))
  {
    g := h;
    match e {
      case Timeout(i) => FirstVotes(s, h, i, z);
      case DeliverVoteRequest(p) =>
        g := Voted(h, s.nodes[p.dest].raft, p.request);
        Votes(s, h, p, z);
      case DeliverVoteReply(p) => g := CountsVote(s, h, p, z);
      case ClientWrite(_, _, _) => g := RoundBegins(rule, s, h, e, z);
      case StartRound(_, _) => g := RoundBegins(rule, s, h, e, z);
      case RetryNoOp(_) => g := RoundBegins(rule, s, h, e, z);
      case SendAppend(i, round, peer) => SendsRequest(s, h, i, round, peer, z);
      case DeliverAppend(p) => Answers(rule, s, h, p, z);
      case DeliverAppendReply(p) => TakesReply(rule, s, h, p, z);
      case ServeRead(_, _) =>
      case Crash(i) => Restarts(s, h, i, s.nodes[i]);
      case CrashInApply(i, done) =>
        Restarts(s, h, i, s.nodes[i].(store := ApplyAll(s.nodes[i].store, Batch(s.nodes[i].raft, done))));
      case _ => GoesAside(rule, s, h, e, z);
    }
  }

  lemma GoesAside(rule: Rule, s: Cluster, h: History, e: Event, z: Cluster)
    requires Told(s, h) && Step(rule, s, e, z) && (e.CommitProposal? || e.GiveUp? || e.Apply?)
    ensures Told(z, h)
  {
    assert NodeFits(s, h, e.i);
    Aside(s, h, e.i, z.nodes[e.i]);
  }

  lemma ToldAtStart(replicas: nat)
    ensures Told(Start(replicas), History({}, map[]))
  {
  }
}
