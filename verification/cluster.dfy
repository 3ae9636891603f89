/** The whole group: the nodes, what their goroutines are waiting for, and the messages.
    Messages are never taken out of the network, so they may be delivered late, again or never. */
module Cluster {
  import Entries
  import Consensus
  import opened Protocol

  datatype Kind = NoOpRound | WriteRound | Heartbeat | ReadCheck

  /** One call of LeaderSendAEs: `upper` is the leader's tail when it began, `index` the
      proposal it is for, `ok` the replicas counted as successes (the leader among them). */
  datatype Round = Round(
    kind: Kind,
    term: nat,
    index: int,
    upper: int,
    leaderCommit: int,
    client: Entries.Bytes,
    ok: set<nat>)

  /** `votes` is the vote counter of the current election, `waiting` the proposals whose
      verdict has not been acted on, `store` the key-value store of the node. */
  datatype Node = Node(raft: Fields, votes: set<nat>, rounds: seq<Round>, waiting: set<nat>, store: Map)

  /** Replies carry the request they answer, as the RPC layer does. */
  datatype Packet =
    | VoteRequest(from: nat, dest: nat, request: RequestVoteMessage)
    | VoteReply(from: nat, dest: nat, request: RequestVoteMessage, vote: RequestVoteResponse)
    | AppendRequest(from: nat, dest: nat, round: nat, upper: int, append: AppendEntriesMessage)
    | AppendReply(
        from: nat, dest: nat, round: nat, upper: int, append: AppendEntriesMessage, reply: AppendEntriesResponse)

  datatype Cluster = Cluster(nodes: seq<Node>, net: set<Packet>)

  datatype Event =
    | Timeout(i: nat)
    | DeliverVoteRequest(p: Packet)
    | DeliverVoteReply(p: Packet)
    | ClientWrite(i: nat, operation: Entries.Operation, client: Entries.Bytes)
    | StartRound(i: nat, kind: Kind)
    | RetryNoOp(i: nat)
    | SendAppend(i: nat, round: nat, peer: nat)
    | DeliverAppend(p: Packet)
    | DeliverAppendReply(p: Packet)
    | CommitProposal(i: nat, round: nat)
    | GiveUp(i: nat, index: nat)
    | ServeRead(i: nat, round: nat)
    | Apply(i: nat, done: nat)
    | CrashInApply(i: nat, done: nat)
    | Crash(i: nat)

  function Fresh(id: nat, replicas: nat): Node {
    Node(Initial(id, replicas), {}, [], {}, map[])
  }

  function Start(replicas: nat): Cluster {
    Cluster(seq(replicas, i requires i >= 0 => Fresh(i, replicas)), {})
  }

  function Moved(s: Cluster, i: nat, node: Node, packets: set<Packet>): Cluster
    requires i < |s.nodes|
  {
    Cluster(s.nodes[i := node], s.net + packets)
  }

  predicate Leads(s: Cluster, i: nat) {
    i < |s.nodes| && s.nodes[i].raft.state == Consensus.Leader
  }

  /** A round that belongs to the term the node leads now (R1 and R4 of README.md). */
  predicate Current(s: Cluster, i: nat, round: nat) {
    && Leads(s, i)
    && round < |s.nodes[i].rounds|
    && s.nodes[i].rounds[round].term == s.nodes[i].raft.currentTerm
  }

  /** n/2 + 1 successes, the leader's own among them. */
  predicate QuorumReached(s: Cluster, i: nat, round: nat)
    requires i < |s.nodes| && round < |s.nodes[i].rounds|
  {
    |s.nodes[i].rounds[round].ok| >= |s.nodes| / 2 + 1
  }

  // ----- Elections -----

  function VoteRequests(f: Fields): set<Packet> {
    set j | 0 <= j < f.replicas && j != f.replicaId :: VoteRequest(f.replicaId, j, VoteRequestOf(f))
  }

  function Stood(node: Node): Node {
    node.(raft := ToCandidate(node.raft), votes := {node.raft.replicaId})
  }

  /** The winner appends its no-op and starts the round that replicates it. */
  function BecomeLeader(node: Node): Node {
    var f := ToLeader(node.raft);
    var tail := |node.raft.log|;
    node.(raft := f, waiting := {tail},
      rounds := [Round(NoOpRound, f.currentTerm, tail, tail, f.commitIndex, f.latestClient, {f.replicaId})])
  }

  function CountVote(node: Node, from: nat, vote: RequestVoteResponse): Node {
    if node.raft.state != Consensus.Candidate then node
    else if vote.term > node.raft.currentTerm then node.(raft := ToFollower(node.raft, vote.term))
    else if vote.term == node.raft.currentTerm && vote.voteGranted then
      var counted := node.(votes := node.votes + {from});
      if |counted.votes| * 2 > node.raft.replicas then BecomeLeader(counted) else counted
    else node
  }

  // ----- Replication -----

  function Wrote(node: Node, operation: Entries.Operation, client: Entries.Bytes): Node {
    var f := Propose(node.raft, operation, client);
    var tail := |node.raft.log|;
    node.(raft := f, waiting := node.waiting + {tail},
      rounds := node.rounds + [Round(WriteRound, f.currentTerm, tail, tail, f.commitIndex, client, {f.replicaId})])
  }

  function Began(node: Node, kind: Kind): Node {
    var f := node.raft;
    var tail := |f.log| - 1;
    node.(rounds := node.rounds +
            [Round(kind, f.currentTerm, tail, tail, f.commitIndex, f.latestClient, {f.replicaId})])
  }

  /** The same message is sent again, up to the tail of this moment. */
  function RetriedNoOp(node: Node): Node
    requires node.rounds != []
  {
    node.(rounds := node.rounds + [node.rounds[0].(upper := |node.raft.log| - 1, ok := {node.raft.replicaId})])
  }

  function Counted(node: Node, round: nat, term: nat, from: nat): Node {
    if round < |node.rounds| && node.rounds[round].term == term
    then node.(rounds := node.rounds[round := node.rounds[round].(ok := node.rounds[round].ok + {from})])
    else node
  }

  function Committed1(node: Node, round: nat): Node
    requires round < |node.rounds| && 0 <= node.rounds[round].index < |node.raft.log|
  {
    var index := node.rounds[round].index;
    node.(raft := CommitOne(node.raft, index), waiting := node.waiting - {index})
  }

  // ----- Steps -----

  /** The oldest token announces a batch inside the log; `done` entries of it get applied. */
  predicate CanApply(f: Fields, done: nat) {
    && f.commitsReady != []
    && -1 <= f.lastApplied
    && done <= f.commitsReady[0]
    && f.lastApplied + f.commitsReady[0] < |f.log|
  }

  /** The next `done` entries after the last applied one. */
  function Batch(f: Fields, done: nat): Entries.Log
    requires -1 <= f.lastApplied && f.lastApplied + done < |f.log|
  {
    f.log[f.lastApplied + 1..f.lastApplied + done + 1]
  }

  /** The node an event happens at. */
  function Site(e: Event): nat {
    match e
    case DeliverVoteRequest(p) => p.dest
    case DeliverVoteReply(p) => p.dest
    case DeliverAppend(p) => p.dest
    case DeliverAppendReply(p) => p.dest
    case Timeout(i) => i
    case ClientWrite(i, _, _) => i
    case StartRound(i, _) => i
    case RetryNoOp(i) => i
    case SendAppend(i, _, _) => i
    case CommitProposal(i, _) => i
    case GiveUp(i, _) => i
    case ServeRead(i, _) => i
    case Apply(i, _) => i
    case CrashInApply(i, _) => i
    case Crash(i) => i
  }

  ghost predicate Step(rule: Rule, s: Cluster, e: Event, z: Cluster) {
    match e
    case Timeout(i) =>
      && i < |s.nodes| && s.nodes[i].raft.state != Consensus.Leader
      && var node := Stood(s.nodes[i]);
      && z == Moved(s, i, node, VoteRequests(node.raft))
    case DeliverVoteRequest(p) =>
      && p in s.net && p.VoteRequest? && p.dest < |s.nodes|
      && var (f, vote) := OnRequestVote(s.nodes[p.dest].raft, p.request);
      && z == Moved(s, p.dest, s.nodes[p.dest].(raft := f), {VoteReply(p.dest, p.from, p.request, vote)})
    case DeliverVoteReply(p) =>
      && p in s.net && p.VoteReply? && p.dest < |s.nodes|
      && z == Moved(s, p.dest, CountVote(s.nodes[p.dest], p.from, p.vote), {})
    case ClientWrite(i, operation, client) =>
      && Leads(s, i) && !operation.NoOp? && !Duplicate(s.nodes[i].raft, operation, client)
      && z == Moved(s, i, Wrote(s.nodes[i], operation, client), {})
    case StartRound(i, kind) =>
      && Leads(s, i) && (kind == Heartbeat || kind == ReadCheck)
      && z == Moved(s, i, Began(s.nodes[i], kind), {})
    case RetryNoOp(i) =>
      && Current(s, i, 0) && s.nodes[i].rounds[0].index in s.nodes[i].waiting
      && z == Moved(s, i, RetriedNoOp(s.nodes[i]), {})
    case SendAppend(i, round, peer) =>
      && Current(s, i, round) && peer != i && peer < |s.nodes|
      && var r := s.nodes[i].rounds[round];
      && CanAddress(s.nodes[i].raft, peer, r.upper)
      && var m := FirstRequest(s.nodes[i].raft, peer, r.upper, r.leaderCommit, r.client);
      && z == Moved(s, i, s.nodes[i], {AppendRequest(i, peer, round, r.upper, m)})
    case DeliverAppend(p) =>
      && p in s.net && p.AppendRequest? && p.dest < |s.nodes|
      && p.append.prevLogIndex >= -1 && s.nodes[p.dest].raft.commitIndex >= -1
      && var (f, reply) := OnAppendEntries(rule, s.nodes[p.dest].raft, p.append);
      && z == Moved(s, p.dest, s.nodes[p.dest].(raft := f),
                    {AppendReply(p.dest, p.from, p.round, p.upper, p.append, reply)})
    case DeliverAppendReply(p) =>
      && p in s.net && p.AppendReply? && p.dest < |s.nodes|
      && p.from < |s.nodes[p.dest].raft.nextIndex|
      && var node := s.nodes[p.dest];
      && var (f, outcome) := OnAppendReply(node.raft, p.from, p.upper, p.reply);
      && (match outcome
          case Failed => z == Moved(s, p.dest, node.(raft := f), {})
          case Succeeded => z == Moved(s, p.dest, Counted(node.(raft := f), p.round, p.append.term, p.from), {})
          case Retry =>
            && f.currentTerm == p.append.term && 0 <= p.append.prevLogIndex < |f.log| && p.upper < |f.log|
            && z == Moved(s, p.dest, node.(raft := f),
                        {AppendRequest(p.dest, p.from, p.round, p.upper, RetryRequest(f, p.append, p.upper))}))
    case CommitProposal(i, round) =>
      && Current(s, i, round) && QuorumReached(s, i, round)
      && var r := s.nodes[i].rounds[round];
      && (r.kind == NoOpRound || r.kind == WriteRound)
      && 0 <= r.index < |s.nodes[i].raft.log| && r.index in s.nodes[i].waiting
      && z == Moved(s, i, Committed1(s.nodes[i], round), {})
    case GiveUp(i, index) =>
      && i < |s.nodes| && s.nodes[i].rounds != [] && index != s.nodes[i].rounds[0].index
      && z == Moved(s, i, s.nodes[i].(waiting := s.nodes[i].waiting - {index}), {})
    case ServeRead(i, round) =>
      && Current(s, i, round) && QuorumReached(s, i, round)
      && s.nodes[i].rounds[round].kind == ReadCheck
      && z == s
    case Apply(i, done) =>
      && i < |s.nodes| && CanApply(s.nodes[i].raft, done)
      && var node := s.nodes[i];
      && z == Moved(s, i, node.(raft := Applied(node.raft, done),
                              store := ApplyAll(node.store, Batch(node.raft, done))), {})
    case CrashInApply(i, done) =>
      && i < |s.nodes| && CanApply(s.nodes[i].raft, done)
      && var node := s.nodes[i];
      && z == Moved(s, i, Restarted(node.(store := ApplyAll(node.store, Batch(node.raft, done)))), {})
    case Crash(i) =>
      && i < |s.nodes|
      && z == Moved(s, i, Restarted(s.nodes[i]), {})
  }

  /** Only the persisted fields and the store's own file survive, and of the file no empty value. */
  function Restarted(node: Node): Node {
    Node(Restore(node.raft), {}, [], {}, Live(node.store))
  }

  ghost predicate Run(rule: Rule, replicas: nat, states: seq<Cluster>, events: seq<Event>) {
    && |states| == |events| + 1
    && states[0] == Start(replicas)
    && forall k {:trigger Stepped(rule, states, events, k)} :: 0 <= k < |events| ==> Stepped(rule, states, events, k)
  }

  ghost predicate Stepped(rule: Rule, states: seq<Cluster>, events: seq<Event>, k: nat)
    requires k < |events| && |states| == |events| + 1
  {
    Step(rule, states[k], events[k], states[k + 1])
  }
}
