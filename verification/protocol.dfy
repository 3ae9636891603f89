/** What one node does on each event, as functions on the fields of the node. The class
    in `raft_node.dfy` computes these functions with the loops of the code. */
module Protocol {
  import opened Entries
  import Merging
  import opened Consensus

  /** The five fields that are written to the file. */
  datatype Persisted = Persisted(currentTerm: nat, votedFor: int, log: Log, commitIndex: int, lastApplied: int)

  /** The fields of a node. `commitsReady` holds the tokens sent but not yet received by
      the goroutine that applies entries. */
  datatype Fields = Fields(
    replicaId: nat,
    replicas: nat,
    currentTerm: nat,
    votedFor: int,
    state: Role,
    log: Log,
    commitIndex: int,
    lastApplied: int,
    nextIndex: seq<int>,
    trackMessage: map<Bytes, Operation>,
    latestClient: Bytes,
    commitsReady: seq<int>,
    storage: Persisted)

  datatype RequestVoteMessage = RequestVoteMessage(term: nat, candidateId: nat, lastLogIndex: int, lastLogTerm: int)

  datatype RequestVoteResponse = RequestVoteResponse(term: nat, voteGranted: bool)

  datatype AppendEntriesMessage = AppendEntriesMessage(
    term: nat,
    leaderId: nat,
    prevLogIndex: int,
    prevLogTerm: int,
    leaderCommit: int,
    entries: Log,
    latestClient: Bytes)

  datatype AppendEntriesResponse = AppendEntriesResponse(term: nat, success: bool)

  /** Section 5.3 asks for `Truncate`; the loops of the code do `Overwrite`. */
  datatype Rule = Overwrite | Truncate

  const NO_CLIENT: Bytes := []
  const BLANK_CLIENT: Bytes := [32]

  function Initial(id: nat, replicas: nat): Fields {
    Fields(id, replicas, 0, -1, Follower, [], -1, -1, seq(replicas, _ => 0), map[], NO_CLIENT, [],
           Persisted(0, -1, [], -1, -1))
  }

  function Persist(f: Fields): Fields {
    f.(storage := Persisted(f.currentTerm, f.votedFor, f.log, f.commitIndex, f.lastApplied))
  }

  /** Everything but the log is always on disk; of the log, only what a leader appended may be missing there. */
  ghost predicate StorageOk(f: Fields) {
    && f.storage.currentTerm == f.currentTerm
    && f.storage.votedFor == f.votedFor
    && f.storage.commitIndex == f.commitIndex
    && f.storage.lastApplied == f.lastApplied
    && f.storage.log <= f.log
    && (f.state != Leader ==> f.storage.log == f.log)
  }

  /** A restart keeps what was persisted and sends one token for the commits not yet applied. */
  function Restore(f: Fields): Fields {
    var p := f.storage;
    Initial(f.replicaId, f.replicas).(
      currentTerm := p.currentTerm, votedFor := p.votedFor, log := p.log,
      commitIndex := p.commitIndex, lastApplied := p.lastApplied, storage := p,
      commitsReady := if p.commitIndex > p.lastApplied then [p.commitIndex - p.lastApplied] else [])
  }

  function ToFollower(f: Fields, term: nat): Fields {
    Persist(f.(state := Follower, currentTerm := term, votedFor := -1))
  }

  function ToCandidate(f: Fields): Fields {
    Persist(f.(state := Candidate, currentTerm := f.currentTerm + 1, votedFor := f.replicaId))
  }

  function NoOpEntry(term: nat): LogEntry {
    LogEntry(term, NoOp, BLANK_CLIENT)
  }

  /** A new leader expects every other log to be as long as its own. */
  function FirstIndexes(replicas: nat, id: nat, length: nat): seq<int> {
    seq(replicas, i => if i == id then 0 else length)
  }

  function ToLeader(f: Fields): Fields {
    Persist(f.(
      state := Leader,
      nextIndex := FirstIndexes(f.replicas, f.replicaId, |f.log|),
      log := f.log + [NoOpEntry(f.currentTerm)]))
  }

  // ----- RequestVote -----

  function VoteRequestOf(f: Fields): RequestVoteMessage {
    RequestVoteMessage(f.currentTerm, f.replicaId, LastIndex(f.log), LastTerm(f.log))
  }

  /** A vote already given to the candidate is repeated whatever the terms are. */
  function OnRequestVote(f: Fields, m: RequestVoteMessage): (Fields, RequestVoteResponse) {
    var g := if m.term > f.currentTerm then ToFollower(f, m.term) else f;
    if g.votedFor == m.candidateId
       || (m.term == g.currentTerm && g.votedFor == -1 && UpToDate(m.lastLogIndex, m.lastLogTerm, f.log))
    then (Persist(g.(votedFor := m.candidateId)), RequestVoteResponse(m.term, true))
    else (g, RequestVoteResponse(m.term, false))
  }

  // ----- AppendEntries -----

  function Merge(rule: Rule, log: Log, prev: int, entries: Log): Log
    requires -1 <= prev < |log|
  {
    match rule
    case Overwrite => Merging.Overwriting(log, prev, entries)
    case Truncate => Merging.Truncating(log, prev, entries)
  }

  /** The table of each client's latest operation after reading `log[from..end]`. */
  function Track(table: map<Bytes, Operation>, log: Log, from: nat, end: int): map<Bytes, Operation>
    requires end <= |log|
    decreases end
  {
    if end <= from then table
    else Track(table, log, from, end - 1)[log[end - 1].clientid := log[end - 1].operation]
  }

  /** Take over the leader's commit index, clamped to the follower's own log. */
  function Learn(f: Fields, m: AppendEntriesMessage): Fields
    requires f.commitIndex >= -1
  {
    if m.leaderCommit <= f.commitIndex then f
    else
      var commit := if m.leaderCommit < |f.log| then m.leaderCommit else |f.log| - 1;
      f.(latestClient := m.latestClient,
         trackMessage := Track(f.trackMessage, f.log, f.commitIndex + 1, commit + 1),
         commitIndex := commit,
         commitsReady := f.commitsReady + [commit - f.commitIndex])
  }

  function OnAppendEntries(rule: Rule, f: Fields, m: AppendEntriesMessage): (Fields, AppendEntriesResponse)
    requires m.prevLogIndex >= -1 && f.commitIndex >= -1
  {
    if f.currentTerm > m.term then
      // A stale request is still answered with success if the log already holds its entries.
      var held := Merging.Matches(f.log, m.prevLogIndex, m.prevLogTerm)
        && Merging.Agreed(f.log, m.prevLogIndex + 1, m.entries) == |m.entries|;
      (f, AppendEntriesResponse(f.currentTerm, held))
    else
      var g := if f.currentTerm < m.term || f.state == Candidate then ToFollower(f, m.term) else f;
      if Merging.Matches(g.log, m.prevLogIndex, m.prevLogTerm) then
        var h := Learn(g.(log := Merge(rule, g.log, m.prevLogIndex, m.entries)), m);
        (Persist(h), AppendEntriesResponse(m.term, true))
      else (g, AppendEntriesResponse(m.term, false))
  }

  // ----- Sending -----

  function Slice(log: Log, from: nat, upper: int): Log
    requires upper < |log|
  {
    if from <= upper then log[from..upper + 1] else []
  }

  predicate CanAddress(f: Fields, peer: nat, upper: int) {
    peer < |f.nextIndex| && -1 <= f.nextIndex[peer] - 1 < |f.log| && upper < |f.log|
  }

  /** The first request of a round to `peer`, from `nextIndex` up to the tail of the round. */
  function FirstRequest(f: Fields, peer: nat, upper: int, leaderCommit: int, client: Bytes): AppendEntriesMessage
    requires CanAddress(f, peer, upper)
  {
    var prev := f.nextIndex[peer] - 1;
    AppendEntriesMessage(f.currentTerm, f.replicaId, prev, TermAt(f.log, prev), leaderCommit,
                         Slice(f.log, prev + 1, upper), client)
  }

  /** After a refusal: one entry further back, with the commit index of this moment. */
  function RetryRequest(f: Fields, m: AppendEntriesMessage, upper: int): AppendEntriesMessage
    requires 0 <= m.prevLogIndex < |f.log| && upper < |f.log|
  {
    var prev := m.prevLogIndex - 1;
    AppendEntriesMessage(f.currentTerm, f.replicaId, prev, TermAt(f.log, prev), f.commitIndex,
                         Slice(f.log, m.prevLogIndex, upper), f.latestClient)
  }

  datatype Outcome = Succeeded | Failed | Retry

  /** What the sender does with a reply, and whether the request counts, fails or is retried. */
  function OnAppendReply(f: Fields, peer: nat, upper: int, reply: AppendEntriesResponse): (Fields, Outcome)
    requires peer < |f.nextIndex|
  {
    if !reply.success then
      if f.state != Leader then (f, Failed)
      else if reply.term > f.currentTerm then (ToFollower(f, reply.term), Failed)
      else (f.(nextIndex := f.nextIndex[peer := f.nextIndex[peer] - 1]), Retry)
    else if f.currentTerm < reply.term then (ToFollower(f, reply.term), Succeeded)
    else (f.(nextIndex := f.nextIndex[peer := upper + 1]), Succeeded)
  }

  // ----- Client writes -----

  /** The same operation from the same client that wrote last is refused; deletions are exempt. */
  predicate Duplicate(f: Fields, operation: Operation, client: Bytes) {
    && client in f.trackMessage
    && !operation.Delete? && !operation.NoOp?
    && f.trackMessage[client] == operation
    && client == f.latestClient
  }

  /** What a read of the store answers for a missing key: the text "Invalid". */
  const INVALID: Bytes := [73, 110, 118, 97, 108, 105, 100]

  function Propose(f: Fields, operation: Operation, client: Bytes): Fields {
    f.(latestClient := client, log := f.log + [LogEntry(f.currentTerm, operation, client)])
  }

  /** A proposal reached its quorum: the commit index moves by one. */
  function CommitOne(f: Fields, index: nat): Fields
    requires index < |f.log|
  {
    var e := f.log[index];
    var g := f.(commitIndex := f.commitIndex + 1, commitsReady := f.commitsReady + [1]);
    Persist(if e.operation.NoOp? then g else g.(trackMessage := g.trackMessage[e.clientid := e.operation]))
  }

  // ----- Applying -----

  type Map = map<Bytes, Bytes>

  /** POST creates, PUT replaces, DELETE removes; the other cases leave the store alone. */
  function ApplyOne(m: Map, op: Operation): Map {
    match op
    case NoOp => m
    case Post(k, v) => if k in m then m else m[k := v]
    case Put(k, v) => if k in m then m[k := v] else m
    case Delete(k) => m - {k}
  }

  function ApplyAll(m: Map, entries: Log): Map {
    if entries == [] then m
    else ApplyOne(ApplyAll(m, entries[..|entries| - 1]), entries[|entries| - 1].operation)
  }

  /** What a store recovers from its file: a key with an empty value is taken for a deleted one. */
  function Live(m: Map): Map {
    map k | k in m && m[k] != [] :: m[k]
  }

  /** `done` entries of the batch announced by the oldest token have been applied. */
  function Applied(f: Fields, done: nat): Fields
    requires f.commitsReady != []
  {
    Persist(f.(lastApplied := f.lastApplied + done, commitsReady := f.commitsReady[1..]))
  }
}
