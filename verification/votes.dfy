/** When a vote is granted, that somebody can always get the votes, and that a majority of them elects. */
module Votes {
  import opened Entries
  import opened Consensus
  import opened Protocol
  import opened Cluster
  import Chronicle
  import Effects
  import Elections
  import Rounds

  // ----- One answer -----

  /** The voter has not used its vote in the term of the request. */
  predicate FreeVote(f: Fields, term: nat) {
    term > f.currentTerm || (term == f.currentTerm && f.votedFor == -1)
  }

  /** The vote was given to this candidate already, in whatever term of the voter. */
  predicate VotedBefore(f: Fields, m: RequestVoteMessage) {
    m.term <= f.currentTerm && f.votedFor == m.candidateId
  }

  /** The candidate's last entry is of a higher term than the voter's, or of the same term and no earlier in the log. */
  ghost predicate EndsNoEarlier(m: RequestVoteMessage, log: Log) {
    if |log| == 0 then m.lastLogTerm > -1 || (m.lastLogTerm == -1 && m.lastLogIndex >= -1)
    else
      || m.lastLogTerm > log[|log| - 1].term
      || (m.lastLogTerm == log[|log| - 1].term && m.lastLogIndex + 1 >= |log|)
  }

  /** The answer to every request, from the inputs alone, and what is left of the voter. */
  lemma GrantedIff(f: Fields, m: RequestVoteMessage)
    ensures var (g, vote) := OnRequestVote(f, m);
      && (vote.voteGranted <==> VotedBefore(f, m) || (FreeVote(f, m.term) && EndsNoEarlier(m, f.log)))
      && vote.term == m.term
      && (vote.voteGranted ==> g.votedFor == m.candidateId)
      && (!vote.voteGranted ==> g.votedFor == if m.term > f.currentTerm then -1 else f.votedFor)
      && g.currentTerm == (if m.term > f.currentTerm then m.term else f.currentTerm)
      && g.state == (if m.term > f.currentTerm then Follower else f.state)
      && g.log == f.log && g.commitIndex == f.commitIndex && g.lastApplied == f.lastApplied
      && g.nextIndex == f.nextIndex && g.commitsReady == f.commitsReady
      && g.trackMessage == f.trackMessage && g.latestClient == f.latestClient
      && (vote.voteGranted || m.term > f.currentTerm ==>
            g.storage == Persisted(g.currentTerm, g.votedFor, g.log, g.commitIndex, g.lastApplied))
  {
  }

  // ----- The order of logs -----

  /** The log `x` is at least as up to date as `y`. */
  predicate NoOlder(x: Log, y: Log) {
    UpToDate(LastIndex(x), LastTerm(x), y)
  }

  /** Of any two logs one is up to date for the other, and both are only if they end at the same index and term. */
  lemma NoOlderTotal(x: Log, y: Log)
    ensures NoOlder(x, y) || NoOlder(y, x)
    ensures NoOlder(x, y) && NoOlder(y, x) ==> |x| == |y| && (x != [] ==> x[|x| - 1].term == y[|y| - 1].term)
    ensures NoOlder(x, x)
  {
  }

  lemma NoOlderTransitive(x: Log, y: Log, z: Log)
    requires NoOlder(x, y) && NoOlder(y, z)
    ensures NoOlder(x, z)
  {
  }

  /** A log in term order is up to date for each of its beginnings, and for no longer log that ends in its last term. */
  lemma NoOlderThanPrefix(x: Log, y: Log)
    requires Sorted(y) && x <= y
    ensures NoOlder(y, x) && (x != [] && |x| < |y| ==> !NoOlder(x, y))
  {
    if x != [] && |x| < |y| {
      assert x[|x| - 1] == y[|x| - 1];
    }
  }

  /** The request that `f` sends when it stands for election in the term. */
  function StandsIn(f: Fields, term: nat): RequestVoteMessage {
    RequestVoteMessage(term, f.replicaId, LastIndex(f.log), LastTerm(f.log))
  }

  /** Among any nodes there is one whose request every other with a free vote in that term grants. */
  lemma {:induction false} SomeoneIsGranted(fs: seq<Fields>, members: set<nat>) returns (best: nat)
    requires members != {} && forall i :: i in members ==> i < |fs|
    ensures best in members
    ensures forall i, term: nat {:trigger FreeVote(fs[i], term)} :: i in members && FreeVote(fs[i], term) ==>
      OnRequestVote(fs[i], StandsIn(fs[best], term)).1.voteGranted
    ensures forall i :: i in members ==> NoOlder(fs[best].log, fs[i].log)
    decreases |members|
  {
    var some :| some in members;
    best := some;
    var rest := members - {some};
    if rest != {} {
      var other := SomeoneIsGranted(fs, rest);
      if NoOlder(fs[other].log, fs[some].log) {
        best := other;
      } else {
        NoOlderTotal(fs[some].log, fs[other].log);
        forall i | i in members
          ensures NoOlder(fs[some].log, fs[i].log)
        {
          if i != some {
            NoOlderTransitive(fs[some].log, fs[other].log, fs[i].log);
          }
        }
      }
    }
    NoOlderTotal(fs[some].log, fs[some].log);
  }

  // ----- One reply -----

  /** A leader begins: its log is one no-op longer, it takes all other logs to be as long as its own was, and one round
      is under way, for the no-op. */
  ghost predicate Begins(f: Fields, y: Node) {
    && y.raft.log == f.log + [LogEntry(f.currentTerm, NoOp, [32])] && y.raft.currentTerm == f.currentTerm
    && |y.raft.nextIndex| == f.replicas
    && (forall j :: 0 <= j < f.replicas ==> y.raft.nextIndex[j] == if j == f.replicaId then 0 else |f.log|)
    && y.raft.votedFor == f.votedFor && y.raft.commitIndex == f.commitIndex && y.raft.lastApplied == f.lastApplied
    && y.raft.commitsReady == f.commitsReady && y.raft.trackMessage == f.trackMessage
    && y.raft.latestClient == f.latestClient
    && y.raft.storage == Persisted(f.currentTerm, f.votedFor, y.raft.log, f.commitIndex, f.lastApplied)
    && y.waiting == {|f.log|}
    && y.rounds == [Round(NoOpRound, f.currentTerm, |f.log|, |f.log|, f.commitIndex, f.latestClient, {f.replicaId})]
  }

  /** A reply that finds no candidate is ignored. */
  lemma LateVote(node: Node, from: nat, vote: RequestVoteResponse)
    ensures node.raft.state != Candidate ==> CountVote(node, from, vote) == node
  {
  }

  /** What a candidate does with a reply: with a vote in its term it leads if and only if its voters are a majority
      then, a higher term makes it a follower of exactly that term, and nothing else changes anything. */
  lemma ElectedIff(node: Node, from: nat, vote: RequestVoteResponse)
    requires node.raft.state == Candidate
    ensures var f, y := node.raft, CountVote(node, from, vote);
      && (vote.term == f.currentTerm && vote.voteGranted ==>
            && y.votes == node.votes + {from}
            && (y.raft.state == Leader <==> 2 * |y.votes| > f.replicas)
            && (y.raft.state != Leader ==> y.raft == f && y.rounds == node.rounds && y.waiting == node.waiting))
      && (y.raft.state == Leader ==> Begins(f, y))
      && (vote.term > f.currentTerm ==>
            && y.raft.currentTerm == vote.term && y.raft.state == Follower && y.raft.votedFor == -1
            && y.raft.log == f.log)
      && (vote.term < f.currentTerm || (vote.term == f.currentTerm && !vote.voteGranted) ==> y == node)
  {
  }

  // ----- All replies of an election -----

  /** The candidate after the first `k` replies, each a vote of its term or a refusal in it. */
  function AfterReplies(node: Node, term: nat, replies: seq<Rounds.Reply>, k: nat): Node
    requires k <= |replies|
  {
    if k == 0 then node
    else
      var r := replies[k - 1];
      CountVote(AfterReplies(node, term, replies, k - 1), r.peer, RequestVoteResponse(term, r.success))
  }

  /** The votes among the first `k` replies, the candidate's own included. */
  function Voters(self: nat, replies: seq<Rounds.Reply>, k: nat): set<nat>
    requires k <= |replies|
  {
    {self} + Rounds.PeersOf(replies, k, true)
  }

  lemma VotersSnoc(self: nat, replies: seq<Rounds.Reply>, k: nat)
    requires k < |replies|
    ensures Voters(self, replies, k + 1) ==
      Voters(self, replies, k) + if replies[k].success then {replies[k].peer} else {}
  {
  }

  /** How the candidate stands when these have voted for it. */
  ghost predicate Stands(x: Node, y: Node, voters: set<nat>) {
    && y.raft.replicas == x.raft.replicas && y.raft.currentTerm == x.raft.currentTerm
    && (y.raft.state == Leader <==> 2 * |voters| > x.raft.replicas)
    && (y.raft.state != Leader ==> y.raft == x.raft && y.votes == voters)
  }

  lemma OneMoreReply(x: Node, y: Node, voters: set<nat>, r: Rounds.Reply)
    requires x.raft.state == Candidate && Stands(x, y, voters)
    ensures Stands(x, CountVote(y, r.peer, RequestVoteResponse(x.raft.currentTerm, r.success)),
                   voters + if r.success then {r.peer} else {})
  {
    var more := voters + if r.success then {r.peer} else {};
    SubsetSize(voters, more);
    if y.raft.state != Leader {
      ElectedIff(y, r.peer, RequestVoteResponse(x.raft.currentTerm, r.success));
      assert more == if r.success then y.votes + {r.peer} else y.votes;
    }
  }

  ghost predicate StandsAfter(x: Node, self: nat, replies: seq<Rounds.Reply>, k: nat)
    requires k <= |replies|
  {
    Stands(x, AfterReplies(x, x.raft.currentTerm, replies, k), Voters(self, replies, k))
  }

  /** In whatever order they come, and however often: the candidate leads if and only if its voters are a majority,
      and as long as it does not it has counted exactly its voters. */
  lemma {:induction false} RepliesElectIff(x: Node, self: nat, replies: seq<Rounds.Reply>, k: nat)
    requires k <= |replies| && x.raft.replicas >= 2 && x.raft.state == Candidate && x.votes == {self}
    ensures StandsAfter(x, self, replies, k)
    decreases k
  {
    if k == 0 {
      NoReply(x, self, replies);
    } else {
      RepliesElectIff(x, self, replies, k - 1);
      ReplySnoc(x, self, replies, k - 1);
    }
  }

  lemma NoReply(x: Node, self: nat, replies: seq<Rounds.Reply>)
    requires x.raft.replicas >= 2 && x.raft.state == Candidate && x.votes == {self}
    ensures StandsAfter(x, self, replies, 0)
  {
    assert Voters(self, replies, 0) == {self};
  }

  lemma ReplySnoc(x: Node, self: nat, replies: seq<Rounds.Reply>, k: nat)
    requires k < |replies| && x.raft.state == Candidate && StandsAfter(x, self, replies, k)
    ensures StandsAfter(x, self, replies, k + 1)
  {
    var y, voters := AfterReplies(x, x.raft.currentTerm, replies, k), Voters(self, replies, k);
    VotersSnoc(self, replies, k);
    OneMoreReply(x, y, voters, replies[k]);
  }

  /** The same for all replies of an election, each peer asked once: the case in which `Rounds.CountVotes`, the shared
      counter of the code, counts one election. */
  lemma ElectionCounted(x: Node, self: nat, replies: seq<Rounds.Reply>)
    requires x.raft.replicas >= 2 && Rounds.OncePerPeer(x.raft.replicas, self, replies)
    requires x.raft.state == Candidate && x.votes == {self}
    ensures AfterReplies(x, x.raft.currentTerm, replies, |replies|).raft.state == Leader <==>
      2 * |Rounds.Accepting(self, replies)| > x.raft.replicas
    ensures forall v :: v in Rounds.Accepting(self, replies) ==> v < x.raft.replicas
  {
    RepliesElectIff(x, self, replies, |replies|);
    assert Voters(self, replies, |replies|) == Rounds.Accepting(self, replies);
  }

  // ----- All answers of a round -----

  /** The leader after the first `k` exchanges of its round have ended. */
  function AfterAnswers(node: Node, round: nat, replies: seq<Rounds.Reply>, k: nat): Node
    requires k <= |replies| && round < |node.rounds|
    ensures |AfterAnswers(node, round, replies, k).rounds| == |node.rounds|
    ensures AfterAnswers(node, round, replies, k).rounds[round].term == node.rounds[round].term
  {
    if k == 0 then node
    else
      var x := AfterAnswers(node, round, replies, k - 1);
      if replies[k - 1].success then Counted(x, round, node.rounds[round].term, replies[k - 1].peer) else x
  }

  lemma {:induction false} AnswersCount(node: Node, round: nat, self: nat, replies: seq<Rounds.Reply>, k: nat)
    requires k <= |replies| && round < |node.rounds| && node.rounds[round].ok == {self}
    ensures AfterAnswers(node, round, replies, k).rounds[round].ok == Voters(self, replies, k)
    decreases k
  {
    if k == 0 {
      assert Voters(self, replies, 0) == {self};
    } else {
      AnswersCount(node, round, self, replies, k - 1);
      VotersSnoc(self, replies, k - 1);
    }
  }

  /** A round of the group reaches its quorum exactly when `Rounds.CountReplies`, the two counters of the code, reports
      a success: with the leader and those that accepted it is n/2 + 1, which is more than half. */
  lemma QuorumIff(s: Cluster, i: nat, round: nat, replies: seq<Rounds.Reply>)
    requires i < |s.nodes| && round < |s.nodes[i].rounds| && s.nodes[i].rounds[round].ok == {i}
    ensures var n, accepting := |s.nodes|, |Rounds.Accepting(i, replies)|;
      var z := s.(nodes := s.nodes[i := AfterAnswers(s.nodes[i], round, replies, |replies|)]);
      && (QuorumReached(z, i, round) <==> accepting >= n / 2 + 1)
      && (QuorumReached(z, i, round) <==> 2 * accepting > n)
  {
    AnswersCount(s.nodes[i], round, i, replies, |replies|);
    assert Voters(i, replies, |replies|) == Rounds.Accepting(i, replies);
  }

  // ----- Runs -----

  /** A candidate that goes on as one has no majority. */
  ghost predicate Undecided(x: Node, n: nat) {
    x.raft.state == Candidate ==> 2 * |x.votes| <= n
  }

  lemma UndecidedKept(rule: Rule, s: Cluster, e: Event, z: Cluster)
    requires Step(rule, s, e, z) && Site(e) < |s.nodes| && |s.nodes| >= 2
    requires s.nodes[Site(e)].raft.replicas == |s.nodes| && Undecided(s.nodes[Site(e)], |s.nodes|)
    ensures Site(e) < |z.nodes| && Undecided(z.nodes[Site(e)], |s.nodes|)
  {
    if e.DeliverVoteReply? {
      CountedUndecided(s.nodes[e.p.dest], e.p.from, e.p.vote, |s.nodes|);
    } else if e.DeliverAppend? || e.DeliverAppendReply? {
      NobodyAnswered(rule, s, e, z);
    } else {
      NobodyCounted(rule, s, e, z);
    }
  }

  lemma NobodyAnswered(rule: Rule, s: Cluster, e: Event, z: Cluster)
    requires Step(rule, s, e, z) && (e.DeliverAppend? || e.DeliverAppendReply?) && Site(e) < |s.nodes|
    requires Undecided(s.nodes[Site(e)], |s.nodes|)
    ensures Site(e) < |z.nodes| && Undecided(z.nodes[Site(e)], |s.nodes|)
  {
  }

  lemma CountedUndecided(x: Node, from: nat, vote: RequestVoteResponse, n: nat)
    requires x.raft.replicas == n && Undecided(x, n)
    ensures Undecided(CountVote(x, from, vote), n)
  {
  }

  lemma NobodyCounted(rule: Rule, s: Cluster, e: Event, z: Cluster)
    requires Step(rule, s, e, z) && !e.DeliverVoteReply? && !e.DeliverAppend? && !e.DeliverAppendReply?
    requires Site(e) < |s.nodes| && |s.nodes| >= 2
    requires Undecided(s.nodes[Site(e)], |s.nodes|)
    ensures Site(e) < |z.nodes| && Undecided(z.nodes[Site(e)], |s.nodes|)
  {
  }

  /** In every state of every run of two or more, no candidate has a majority of votes: it leads as soon as it has. */
  lemma {:induction false} NoWaitingWinner(
    rule: Rule, replicas: nat, states: seq<Cluster>, events: seq<Event>, k: nat, i: nat)
    requires Run(rule, replicas, states, events) && k < |states| && i < replicas && replicas >= 2
    ensures |states[k].nodes| == replicas && Undecided(states[k].nodes[i], replicas)
    decreases k
  {
    Chronicle.GroupSize(rule, replicas, states, events, k);
    if k > 0 {
      NoWaitingWinner(rule, replicas, states, events, k - 1, i);
      var hs := Chronicle.Record(rule, replicas, states, events);
      assert Elections.Told(states[k - 1], hs[k - 1]) && Elections.NodeFits(states[k - 1], hs[k - 1], i);
      assert Stepped(rule, states, events, k - 1);
      if i == Site(events[k - 1]) {
        UndecidedKept(rule, states[k - 1], events[k - 1], states[k]);
      } else {
        Effects.OthersRest(rule, states[k - 1], events[k - 1], states[k]);
      }
    }
  }
}
