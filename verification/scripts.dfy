/** Building blocks for concrete runs: a few events at a time, with the state they lead to. */
module Scripts {
  import opened Entries
  import opened Protocol
  import opened Cluster
  import Merging
  import Guard
  import Tokens
  import Consensus

  /** A run that ends in state `s`. */
  ghost predicate Ends(rule: Rule, n: nat, states: seq<Cluster>, events: seq<Event>, s: Cluster) {
    Run(rule, n, states, events) && states[|events|] == s
  }

  /** Neither a crash nor a client's write nor an application. */
  predicate Plain(e: Event) {
    !e.Crash? && !e.CrashInApply? && !e.ClientWrite? && !e.Apply?
  }

  /** The run goes on, with such events only. */
  ghost predicate Further(states: seq<Cluster>, events: seq<Event>, ss: seq<Cluster>, es: seq<Event>) {
    && |states| == |events| + 1 && |ss| == |es| + 1 && |events| <= |es|
    && ss[..|states|] == states && es[..|events|] == events
    && forall k :: |events| <= k < |es| ==> Plain(es[k])
  }

  // ----- Runs that the code can do -----

  /** A write waits until everything committed is applied and passes the check; a batch is applied whole. */
  ghost predicate FairAt(s: Cluster, e: Event) {
    && (e.ClientWrite? && e.i < |s.nodes| ==>
          var node := s.nodes[e.i];
          node.raft.commitIndex == node.raft.lastApplied && Guard.Checked(node, e.operation))
    && (e.Apply? && e.i < |s.nodes| ==> !Tokens.Halts(s.nodes[e.i], e))
  }

  ghost predicate Fair(states: seq<Cluster>, events: seq<Event>) {
    |states| == |events| + 1 && forall k {:trigger events[k]} :: 0 <= k < |events| ==> FairAt(states[k], events[k])
  }

  lemma FairFurther(states: seq<Cluster>, events: seq<Event>, ss: seq<Cluster>, es: seq<Event>)
    requires Fair(states, events) && Further(states, events, ss, es)
    ensures Fair(ss, es)
  {
    forall k | 0 <= k < |es|
      ensures FairAt(ss[k], es[k])
    {
      if k < |events| {
        assert es[k] == es[..|events|][k] == events[k] && ss[k] == ss[..|states|][k] == states[k];
      }
    }
  }

  lemma FairOne(states: seq<Cluster>, events: seq<Event>, s: Cluster, e: Event, z: Cluster)
    requires Fair(states, events) && states[|events|] == s && FairAt(s, e)
    ensures Fair(states + [z], events + [e])
  {
  }

  /** Fair, and no node crashes. */
  ghost predicate Calm(states: seq<Cluster>, events: seq<Event>) {
    Fair(states, events) && forall e {:trigger e in events} :: e in events ==> !e.Crash? && !e.CrashInApply?
  }

  lemma CalmFurther(states: seq<Cluster>, events: seq<Event>, ss: seq<Cluster>, es: seq<Event>)
    requires Calm(states, events) && Further(states, events, ss, es)
    ensures Calm(ss, es)
  {
    FairFurther(states, events, ss, es);
    forall e | e in es
      ensures !e.Crash? && !e.CrashInApply?
    {
      var k :| 0 <= k < |es| && es[k] == e;
      if k < |events| {
        assert es[..|events|][k] == events[k] && events[k] in events;
      }
    }
  }

  lemma CalmOne(states: seq<Cluster>, events: seq<Event>, s: Cluster, e: Event, z: Cluster)
    requires Calm(states, events) && states[|events|] == s && FairAt(s, e) && !e.Crash? && !e.CrashInApply?
    ensures Calm(states + [z], events + [e])
  {
    FairOne(states, events, s, e, z);
  }

  // ----- A few events at a time -----

  lemma Go(rule: Rule, n: nat, states: seq<Cluster>, events: seq<Event>, s: Cluster, e: Event, z: Cluster)
    requires Ends(rule, n, states, events, s) && Step(rule, s, e, z)
    ensures Ends(rule, n, states + [z], events + [e], z)
  {
    var ss, es := states + [z], events + [e];
    forall k | 0 <= k < |es|
      ensures Stepped(rule, ss, es, k)
    {
      if k < |events| {
        assert Stepped(rule, states, events, k);
      }
    }
  }

  /** The voter's fields once it has voted for `i` in a term that is new to it. */
  function VotedFor(f: Fields, term: nat, i: nat): Fields {
    Persist(ToFollower(f, term).(votedFor := i))
  }

  function Elected(node: Node, j: nat): Node {
    BecomeLeader(Stood(node).(votes := {node.raft.replicaId, j}))
  }

  lemma VoteGiven(g: Fields, m: RequestVoteMessage)
    requires g.currentTerm < m.term && m.candidateId >= 0 && UpToDate(m.lastLogIndex, m.lastLogTerm, g.log)
    ensures OnRequestVote(g, m) == (VotedFor(g, m.term, m.candidateId), RequestVoteResponse(m.term, true))
  {
  }

  lemma VoteCounted(node: Node, j: nat, n: nat)
    requires (n == 2 || n == 3) && node.raft.replicas == n && node.raft.replicaId != j
    ensures CountVote(Stood(node), j, RequestVoteResponse(node.raft.currentTerm + 1, true)) == Elected(node, j)
  {
    var i := node.raft.replicaId;
    assert {i} + {j} == {i, j} && |{i, j}| == 2;
  }

  /** Time-out, request, and a vote on its way back. */
  lemma Campaign(rule: Rule, n: nat, states: seq<Cluster>, events: seq<Event>, s: Cluster, i: nat, j: nat)
    returns (ss: seq<Cluster>, es: seq<Event>, z: Cluster, answer: Packet)
    requires Ends(rule, n, states, events, s) && |s.nodes| == n && i < n && j < n && i != j
    requires var f, g := s.nodes[i].raft, s.nodes[j].raft;
      && f.state != Consensus.Leader && f.replicaId == i && f.replicas == n && g.currentTerm <= f.currentTerm
      && UpToDate(LastIndex(f.log), LastTerm(f.log), g.log)
    ensures Ends(rule, n, ss, es, z) && s.net <= z.net && answer in z.net
    ensures Further(states, events, ss, es)
    ensures var m := VoteRequestOf(Stood(s.nodes[i]).raft);
      && answer == VoteReply(j, i, m, RequestVoteResponse(m.term, true))
      && z.nodes == s.nodes[i := Stood(s.nodes[i])][j := s.nodes[j].(raft := VotedFor(s.nodes[j].raft, m.term, i))]
  {
    var stood := Stood(s.nodes[i]);
    var m := VoteRequestOf(stood.raft);
    var ask := VoteRequest(i, j, m);
    var s1 := Moved(s, i, stood, VoteRequests(stood.raft));
    assert ask in s1.net;
    Go(rule, n, states, events, s, Timeout(i), s1);
    VoteGiven(s1.nodes[j].raft, m);
    answer := VoteReply(j, i, m, RequestVoteResponse(m.term, true));
    z := Moved(s1, j, s1.nodes[j].(raft := VotedFor(s1.nodes[j].raft, m.term, i)), {answer});
    Go(rule, n, states + [s1], events + [Timeout(i)], s1, DeliverVoteRequest(ask), z);
    ss, es := states + [s1] + [z], events + [Timeout(i)] + [DeliverVoteRequest(ask)];
  }

  /** In a group of two or three, one vote makes a leader. */
  lemma Elect(rule: Rule, n: nat, states: seq<Cluster>, events: seq<Event>, s: Cluster, i: nat, j: nat)
    returns (ss: seq<Cluster>, es: seq<Event>, z: Cluster)
    requires Ends(rule, n, states, events, s) && (n == 2 || n == 3) && |s.nodes| == n && i < n && j < n && i != j
    requires var f, g := s.nodes[i].raft, s.nodes[j].raft;
      && f.state != Consensus.Leader && f.replicaId == i && f.replicas == n && g.currentTerm <= f.currentTerm
      && UpToDate(LastIndex(f.log), LastTerm(f.log), g.log)
    ensures Ends(rule, n, ss, es, z) && s.net <= z.net
    ensures Further(states, events, ss, es)
    ensures z.nodes == s.nodes[i := Elected(s.nodes[i], j)][
      j := s.nodes[j].(raft := VotedFor(s.nodes[j].raft, s.nodes[i].raft.currentTerm + 1, i))]
  {
    var ss1, es1, s1, answer := Campaign(rule, n, states, events, s, i, j);
    VoteCounted(s.nodes[i], j, n);
    z := Moved(s1, i, Elected(s.nodes[i], j), {});
    Go(rule, n, ss1, es1, s1, DeliverVoteReply(answer), z);
    ss, es := ss1 + [z], es1 + [DeliverVoteReply(answer)];
  }

  /** The first request of a round and its reply, not yet delivered. */
  lemma Ask(rule: Rule, n: nat, states: seq<Cluster>, events: seq<Event>, s: Cluster, i: nat, round: nat, peer: nat)
    returns (ss: seq<Cluster>, es: seq<Event>, z: Cluster)
    requires Ends(rule, n, states, events, s) && Current(s, i, round) && peer < |s.nodes| && peer != i
    requires var r := s.nodes[i].rounds[round];
      CanAddress(s.nodes[i].raft, peer, r.upper) && s.nodes[peer].raft.commitIndex >= -1
    ensures Ends(rule, n, ss, es, z) && s.net <= z.net
    ensures Further(states, events, ss, es)
    ensures var r := s.nodes[i].rounds[round];
      var m := FirstRequest(s.nodes[i].raft, peer, r.upper, r.leaderCommit, r.client);
      var (g, reply) := OnAppendEntries(rule, s.nodes[peer].raft, m);
      && z.nodes == s.nodes[peer := s.nodes[peer].(raft := g)]
      && AppendReply(peer, i, round, r.upper, m, reply) in z.net
  {
    var r := s.nodes[i].rounds[round];
    var m := FirstRequest(s.nodes[i].raft, peer, r.upper, r.leaderCommit, r.client);
    var p := AppendRequest(i, peer, round, r.upper, m);
    var s1 := Moved(s, i, s.nodes[i], {p});
    assert s1.nodes == s.nodes;
    Go(rule, n, states, events, s, SendAppend(i, round, peer), s1);
    var (g, reply) := OnAppendEntries(rule, s1.nodes[peer].raft, m);
    z := Moved(s1, peer, s1.nodes[peer].(raft := g), {AppendReply(peer, i, round, r.upper, m, reply)});
    Go(rule, n, states + [s1], events + [SendAppend(i, round, peer)], s1, DeliverAppend(p), z);
    ss, es := states + [s1] + [z], events + [SendAppend(i, round, peer)] + [DeliverAppend(p)];
  }

  /** A success for a round of the term: counted, and `nextIndex` behind the tail. */
  function CountedFor(node: Node, round: nat, upper: int, peer: nat): Node
    requires peer < |node.raft.nextIndex| && round < |node.rounds|
  {
    node.(raft := node.raft.(nextIndex := node.raft.nextIndex[peer := upper + 1]),
          rounds := node.rounds[round := node.rounds[round].(ok := node.rounds[round].ok + {peer})])
  }

  /** A whole successful exchange. */
  lemma Replicate(
    rule: Rule, n: nat, states: seq<Cluster>, events: seq<Event>, s: Cluster, i: nat, round: nat, peer: nat)
    returns (ss: seq<Cluster>, es: seq<Event>, z: Cluster)
    requires Ends(rule, n, states, events, s) && Current(s, i, round) && peer < |s.nodes| && peer != i
    requires var f, g, upper := s.nodes[i].raft, s.nodes[peer].raft, s.nodes[i].rounds[round].upper;
      && CanAddress(f, peer, upper) && g.commitIndex >= -1 && g.currentTerm <= f.currentTerm
      && Merging.Matches(g.log, f.nextIndex[peer] - 1, TermAt(f.log, f.nextIndex[peer] - 1))
    ensures Ends(rule, n, ss, es, z) && s.net <= z.net
    ensures Further(states, events, ss, es)
    ensures var r := s.nodes[i].rounds[round];
      var m := FirstRequest(s.nodes[i].raft, peer, r.upper, r.leaderCommit, r.client);
      z.nodes == s.nodes[peer := s.nodes[peer].(raft := OnAppendEntries(rule, s.nodes[peer].raft, m).0)][
        i := CountedFor(s.nodes[i], round, r.upper, peer)]
  {
    var r := s.nodes[i].rounds[round];
    var m := FirstRequest(s.nodes[i].raft, peer, r.upper, r.leaderCommit, r.client);
    var ss1, es1, s1 := Ask(rule, n, states, events, s, i, round, peer);
    var reply := OnAppendEntries(rule, s.nodes[peer].raft, m).1;
    var p := AppendReply(peer, i, round, r.upper, m, reply);
    z := Moved(s1, i, CountedFor(s.nodes[i], round, r.upper, peer), {});
    Go(rule, n, ss1, es1, s1, DeliverAppendReply(p), z);
    ss, es := ss1 + [z], es1 + [DeliverAppendReply(p)];
  }

  lemma Write(
    rule: Rule, n: nat, states: seq<Cluster>, events: seq<Event>, s: Cluster, i: nat, op: Operation, client: Bytes)
    returns (ss: seq<Cluster>, es: seq<Event>, z: Cluster)
    requires Ends(rule, n, states, events, s) && Leads(s, i) && !op.NoOp?
    requires !Duplicate(s.nodes[i].raft, op, client)
    ensures Ends(rule, n, ss, es, z) && z.net == s.net && z.nodes == s.nodes[i := Wrote(s.nodes[i], op, client)]
    ensures ss == states + [z] && es == events + [ClientWrite(i, op, client)]
  {
    z := Moved(s, i, Wrote(s.nodes[i], op, client), {});
    Go(rule, n, states, events, s, ClientWrite(i, op, client), z);
    ss, es := states + [z], events + [ClientWrite(i, op, client)];
  }

  lemma Succeed(rule: Rule, n: nat, states: seq<Cluster>, events: seq<Event>, s: Cluster, i: nat, round: nat)
    returns (ss: seq<Cluster>, es: seq<Event>, z: Cluster)
    requires Ends(rule, n, states, events, s) && Current(s, i, round) && QuorumReached(s, i, round)
    requires var r := s.nodes[i].rounds[round];
      && (r.kind == NoOpRound || r.kind == WriteRound)
      && 0 <= r.index < |s.nodes[i].raft.log| && r.index in s.nodes[i].waiting
    ensures Ends(rule, n, ss, es, z) && z.net == s.net && z.nodes == s.nodes[i := Committed1(s.nodes[i], round)]
    ensures Further(states, events, ss, es) && ss == states + [z] && es == events + [CommitProposal(i, round)]
  {
    z := Moved(s, i, Committed1(s.nodes[i], round), {});
    Go(rule, n, states, events, s, CommitProposal(i, round), z);
    ss, es := states + [z], events + [CommitProposal(i, round)];
  }

  lemma Beat(rule: Rule, n: nat, states: seq<Cluster>, events: seq<Event>, s: Cluster, i: nat, kind: Kind)
    returns (ss: seq<Cluster>, es: seq<Event>, z: Cluster)
    requires Ends(rule, n, states, events, s) && Leads(s, i) && (kind == Heartbeat || kind == ReadCheck)
    ensures Ends(rule, n, ss, es, z) && z.net == s.net && z.nodes == s.nodes[i := Began(s.nodes[i], kind)]
    ensures Further(states, events, ss, es) && ss == states + [z] && es == events + [StartRound(i, kind)]
  {
    z := Moved(s, i, Began(s.nodes[i], kind), {});
    Go(rule, n, states, events, s, StartRound(i, kind), z);
    ss, es := states + [z], events + [StartRound(i, kind)];
  }

  lemma OneApplied(m: Map, e: LogEntry)
    ensures ApplyAll(m, [e]) == ApplyOne(m, e.operation)
  {
    assert [e][..0] == [];
  }

  lemma TwoApplied(m: Map, d: LogEntry, e: LogEntry)
    ensures ApplyAll(m, [d, e]) == ApplyOne(ApplyOne(m, d.operation), e.operation)
  {
    assert [d, e][..1] == [d];
    OneApplied(m, d);
  }

  function AfterBatch(node: Node, done: nat): Node
    requires CanApply(node.raft, done)
  {
    node.(raft := Applied(node.raft, done), store := ApplyAll(node.store, Batch(node.raft, done)))
  }

  lemma ApplyBatch(rule: Rule, n: nat, states: seq<Cluster>, events: seq<Event>, s: Cluster, i: nat, done: nat)
    returns (ss: seq<Cluster>, es: seq<Event>, z: Cluster)
    requires Ends(rule, n, states, events, s) && i < |s.nodes| && CanApply(s.nodes[i].raft, done)
    ensures Ends(rule, n, ss, es, z) && z.net == s.net && z.nodes == s.nodes[i := AfterBatch(s.nodes[i], done)]
    ensures ss == states + [z] && es == events + [Apply(i, done)]
  {
    z := Moved(s, i, AfterBatch(s.nodes[i], done), {});
    Go(rule, n, states, events, s, Apply(i, done), z);
    ss, es := states + [z], events + [Apply(i, done)];
  }
}
