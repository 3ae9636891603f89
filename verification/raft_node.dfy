/** The node as the code has it: fields updated in place, loops over the log. Each method computes
    one function of `Protocol` on the value of the fields. */
module RaftNodes {
  import opened Entries
  import opened Merging
  import MergeLaws
  import opened Consensus
  import opened Protocol
  import Backoff
  import Cluster

  datatype WriteAnswer = Waits | Refused | Appended

  /** What the storage map holds under each key. */
  datatype Stored = Number(n: int) | LogValue(log: Log)

  predicate Complete(m: map<string, Stored>) {
    && "currentTerm" in m && m["currentTerm"].Number? && m["currentTerm"].n >= 0
    && "votedFor" in m && m["votedFor"].Number?
    && "log" in m && m["log"].LogValue?
    && "commitIndex" in m && m["commitIndex"].Number?
    && "lastApplied" in m && m["lastApplied"].Number?
  }

  /** What a restart would find: the stored values, or those of a new node. */
  function Unpack(m: map<string, Stored>): Persisted {
    if Complete(m)
    then Persisted(m["currentTerm"].n, m["votedFor"].n, m["log"].log, m["commitIndex"].n, m["lastApplied"].n)
    else Persisted(0, -1, [], -1, -1)
  }

  class RaftNode {
    const replicaId: nat
    const replicas: nat
    var currentTerm: nat
    var votedFor: int
    var state: Role
    var log: Log
    var commitIndex: int
    var lastApplied: int
    var nextIndex: array<int>
    var trackMessage: map<Bytes, Operation>
    var latestClient: Bytes
    var commitsReady: seq<int>
    var stored: map<string, Stored>

    /** The value of the fields. */
    ghost function View(): Fields
      reads this, nextIndex
    {
      Fields(replicaId, replicas, currentTerm, votedFor, state, log, commitIndex, lastApplied, nextIndex[..],
             trackMessage, latestClient, commitsReady, Unpack(stored))
    }

    constructor (id: nat, n: nat)
      ensures View() == Initial(id, n) && fresh(nextIndex)
    {
      replicaId, replicas := id, n;
      currentTerm, votedFor, state := 0, -1, Follower;
      log, commitIndex, lastApplied := [], -1, -1;
      nextIndex := new int[n](_ => 0);
      trackMessage, latestClient, commitsReady, stored := map[], NO_CLIENT, [], map[];
    }

    method PersistToStorage()
      modifies this`stored
      ensures View() == Persist(old(View())) && Complete(stored)
    {
      stored := stored["currentTerm" := Number(currentTerm)];
      stored := stored["votedFor" := Number(votedFor)];
      stored := stored["log" := LogValue(log)];
      stored := stored["commitIndex" := Number(commitIndex)];
      stored := stored["lastApplied" := Number(lastApplied)];
    }

    /** Take over the five stored values, if all are there; a new node keeps its own. */
    method RestoreFromStorage()
      requires currentTerm == 0 && votedFor == -1 && log == [] && commitIndex == -1 && lastApplied == -1
      modifies this`currentTerm, this`votedFor, this`log, this`commitIndex, this`lastApplied
      ensures Unpack(stored) == Persisted(currentTerm, votedFor, log, commitIndex, lastApplied)
    {
      if Complete(stored) {
        currentTerm := stored["currentTerm"].n;
        votedFor := stored["votedFor"].n;
        log := stored["log"].log;
        commitIndex := stored["commitIndex"].n;
        lastApplied := stored["lastApplied"].n;
      }
    }

    method Zeros() returns (next: array<int>)
      ensures fresh(next) && next[..] == Initial(replicaId, replicas).nextIndex
    {
      next := new int[replicas](_ => 0);
    }

    /** What a crash leaves: a new node with the same storage. */
    method Reset()
      modifies this
      ensures fresh(nextIndex) && stored == old(stored)
      ensures View() == Initial(replicaId, replicas).(storage := Unpack(stored))
    {
      var next := Zeros();
      currentTerm, votedFor, state := 0, -1, Follower;
      log, commitIndex, lastApplied := [], -1, -1;
      nextIndex, trackMessage, latestClient, commitsReady := next, map[], NO_CLIENT, [];
    }

    /** A restart: a new node takes over what is stored, and one token announces unapplied commits. */
    method Restart()
      modifies this
      ensures View() == Restore(old(View())) && fresh(nextIndex)
    {
      Reset();
      ghost var blank := View();
      RestoreFromStorage();
      assert View() == blank.(
        currentTerm := currentTerm, votedFor := votedFor, log := log,
        commitIndex := commitIndex, lastApplied := lastApplied);
      if commitIndex > lastApplied {
        commitsReady := [commitIndex - lastApplied];
      }
    }

    method ToFollower(term: nat)
      modifies this
      ensures nextIndex == old(nextIndex) && View() == Protocol.ToFollower(old(View()), term)
    {
      state := Follower;
      currentTerm := term;
      votedFor := -1;
      PersistToStorage();
    }

    method ToCandidate()
      modifies this
      ensures nextIndex == old(nextIndex) && View() == Protocol.ToCandidate(old(View()))
    {
      state := Candidate;
      currentTerm := currentTerm + 1;
      votedFor := replicaId;
      PersistToStorage();
    }

    method ToLeader()
      modifies this
      ensures fresh(nextIndex) && View() == Protocol.ToLeader(old(View()))
    {
      var next := new int[replicas](_ => 0);
      for id := 0 to replicas
        invariant unchanged(this)
        invariant forall i :: 0 <= i < id ==> next[i] == if i == replicaId then 0 else |log|
        invariant forall i :: id <= i < replicas ==> next[i] == 0
      {
        if id != replicaId {
          next[id] := |log|;
        }
      }
      assert next[..] == FirstIndexes(replicas, replicaId, |log|);
      state, nextIndex := Leader, next;
      log := log + [LogEntry(currentTerm, NoOp, BLANK_CLIENT)];
      PersistToStorage();
    }

    method RequestVote(m: RequestVoteMessage) returns (r: RequestVoteResponse)
      modifies this
      ensures nextIndex == old(nextIndex) && (View(), r) == OnRequestVote(old(View()), m)
    {
      var latestLogIndex: int, latestLogTerm: int := -1, -1;
      if |log| > 0 {
        latestLogIndex := |log| - 1;
        latestLogTerm := log[latestLogIndex].term;
      }
      if m.term > currentTerm {
        ToFollower(m.term);
      }
      if votedFor == m.candidateId
         || (m.term == currentTerm && votedFor == -1
             && (m.lastLogTerm > latestLogTerm
                 || (m.lastLogTerm == latestLogTerm && m.lastLogIndex >= latestLogIndex))) {
        votedFor := m.candidateId;
        PersistToStorage();
        r := RequestVoteResponse(m.term, true);
      } else {
        r := RequestVoteResponse(m.term, false);
      }
    }

    // ----- Elections -----

    method BuildVoteRequest() returns (m: RequestVoteMessage)
      ensures m == VoteRequestOf(View())
    {
      var latestLogIndex: int, latestLogTerm: int := -1, -1;
      if |log| > 0 {
        latestLogIndex := |log| - 1;
        latestLogTerm := log[latestLogIndex].term;
      }
      m := RequestVoteMessage(currentTerm, replicaId, latestLogIndex, latestLogTerm);
    }

    /** Count the answer of a replica not counted yet; `received` is the shared counter of the election. */
    method HandleVote(
      received: nat, vote: RequestVoteResponse, ghost node: Cluster.Node, ghost from: nat) returns (now: nat)
      requires node.raft == View() && received == |node.votes| && from !in node.votes
      modifies this
      ensures View() == Cluster.CountVote(node, from, vote).raft
      ensures now == |Cluster.CountVote(node, from, vote).votes|
    {
      now := received;
      if state != Candidate {
        return;
      }
      if vote.term > currentTerm {
        ToFollower(vote.term);
      } else if vote.term == currentTerm && vote.voteGranted {
        now := received + 1;
        if now * 2 > replicas {
          ToLeader();
        }
      }
    }

    // ----- Receiving -----

    /** The first loop over the entries of a request: up to the first mismatch or an end. */
    method Scan(prev: int, entries: Log) returns (logIndex: nat, entryIndex: nat)
      requires -1 <= prev < |log|
      ensures entryIndex == Agreed(log, prev + 1, entries) && logIndex == prev + 1 + entryIndex
    {
      logIndex, entryIndex := prev + 1, 0;
      while entryIndex < |entries| && logIndex < |log|
        invariant entryIndex <= |entries| && logIndex == prev + 1 + entryIndex
        invariant Agreed(log, prev + 1, entries) == AgreedFrom(log, prev + 1, entries, entryIndex)
      {
        if log[logIndex].term != entries[entryIndex].term {
          break;
        }
        entryIndex := entryIndex + 1;
        logIndex := logIndex + 1;
      }
    }

    /** The second loop: what the scan did not find is written over the old entries or behind them. */
    method Overwrite(prev: int, entries: Log, from: nat)
      requires -1 <= prev < |log| && from == Agreed(log, prev + 1, entries)
      modifies this`log
      ensures log == Overwriting(old(log), prev, entries)
    {
      var logIndex, entryIndex := prev + 1 + from, from;
      MergeLaws.AgreedFits(log, prev + 1, entries);
      ghost var was := log;
      while entryIndex < |entries|
        invariant from <= entryIndex <= |entries| && logIndex == prev + 1 + entryIndex
        invariant |log| == if logIndex > |was| then logIndex else |was|
        invariant forall j :: 0 <= j < |log| ==>
          log[j] == if prev + 1 + from <= j < logIndex then entries[j - (prev + 1)] else was[j]
      {
        if logIndex == |log| {
          log := log + [entries[entryIndex]];
        } else {
          log := log[logIndex := entries[entryIndex]];
        }
        entryIndex := entryIndex + 1;
        logIndex := logIndex + 1;
      }
      MergeLaws.OverwritingAt(was, prev, entries, 0);
      forall j | 0 <= j < |log|
        ensures log[j] == Overwriting(was, prev, entries)[j]
      {
        MergeLaws.OverwritingAt(was, prev, entries, j);
      }
    }

    /** Note each client's operation in the entries after the commit index, up to `upper` or the end of the log. */
    method NoteOperations(upper: int)
      requires -1 <= commitIndex < upper
      modifies this`trackMessage
      ensures trackMessage == Track(old(trackMessage), log, commitIndex + 1, if upper < |log| then upper + 1 else |log|)
    {
      var i := commitIndex + 1;
      while i <= upper && i < |log|
        invariant commitIndex + 1 <= i <= upper + 1 && (i <= |log| || i == commitIndex + 1)
        invariant trackMessage == Track(old(trackMessage), log, commitIndex + 1, if i <= |log| then i else |log|)
        decreases |log| - i
      {
        trackMessage := trackMessage[log[i].clientid := log[i].operation];
        i := i + 1;
      }
    }

    /** Take over the leader's commit index and note each client's operations on the way. */
    method LearnCommit(m: AppendEntriesMessage)
      requires commitIndex >= -1
      modifies this
      ensures nextIndex == old(nextIndex) && View() == Learn(old(View()), m)
    {
      if m.leaderCommit > commitIndex {
        var before := commitIndex;
        latestClient := m.latestClient;
        NoteOperations(m.leaderCommit);
        if m.leaderCommit < |log| {
          commitIndex := m.leaderCommit;
        } else {
          commitIndex := |log| - 1;
        }
        commitsReady := commitsReady + [commitIndex - before];
      }
    }

    method AppendEntries(m: AppendEntriesMessage) returns (r: AppendEntriesResponse)
      requires m.prevLogIndex >= -1 && commitIndex >= -1
      modifies this
      ensures nextIndex == old(nextIndex)
      ensures (View(), r) == OnAppendEntries(Rule.Overwrite, old(View()), m)
    {
      if currentTerm > m.term {
        if m.prevLogIndex == -1 || (m.prevLogIndex < |log| && log[m.prevLogIndex].term == m.prevLogTerm) {
          var logIndex, entryIndex := Scan(m.prevLogIndex, m.entries);
          return AppendEntriesResponse(currentTerm, entryIndex == |m.entries|);
        } else {
          return AppendEntriesResponse(currentTerm, false);
        }
      } else if currentTerm < m.term {
        ToFollower(m.term);
      } else if state == Candidate {
        ToFollower(m.term);
      }
      if m.prevLogIndex == -1 || (m.prevLogIndex < |log| && log[m.prevLogIndex].term == m.prevLogTerm) {
        var logIndex, entryIndex := Scan(m.prevLogIndex, m.entries);
        Overwrite(m.prevLogIndex, m.entries, entryIndex);
        LearnCommit(m);
        PersistToStorage();
        r := AppendEntriesResponse(m.term, true);
      } else {
        r := AppendEntriesResponse(m.term, false);
      }
    }

    // ----- Sending -----

    /** Copy the entries from `from` up to and including `upper`. */
    method CopyEntries(from: nat, upper: int) returns (entries: Log)
      requires upper < |log|
      ensures entries == Slice(log, from, upper)
    {
      entries := [];
      var i := from;
      while i <= upper
        invariant from <= i && (i <= upper + 1 || i == from)
        invariant entries == if from <= i <= upper + 1 then log[from..i] else []
        decreases upper - i
      {
        entries := entries + [log[i]];
        i := i + 1;
      }
    }

    /** The request a round begins with. */
    method BuildRequest(peer: nat, upper: int, leaderCommit: int, client: Bytes) returns (m: AppendEntriesMessage)
      requires CanAddress(View(), peer, upper)
      ensures m == FirstRequest(View(), peer, upper, leaderCommit, client)
    {
      var prevLogIndex := nextIndex[peer] - 1;
      var prevLogTerm: int := -1;
      if prevLogIndex >= 0 {
        prevLogTerm := log[prevLogIndex].term;
      }
      var entries := CopyEntries(prevLogIndex + 1, upper);
      m := AppendEntriesMessage(currentTerm, replicaId, prevLogIndex, prevLogTerm, leaderCommit, entries, client);
    }

    /** What the sender does with a reply. */
    method HandleReply(peer: nat, upper: int, reply: AppendEntriesResponse) returns (outcome: Outcome)
      requires peer < nextIndex.Length
      modifies this, nextIndex
      ensures nextIndex == old(nextIndex)
      ensures (View(), outcome) == OnAppendReply(old(View()), peer, upper, reply)
    {
      if !reply.success {
        if state != Leader {
          return Failed;
        }
        if reply.term > currentTerm {
          ToFollower(reply.term);
          return Failed;
        }
        nextIndex[peer] := nextIndex[peer] - 1;
        outcome := Retry;
      } else {
        if currentTerm < reply.term {
          ToFollower(reply.term);
        } else {
          nextIndex[peer] := upper + 1;
        }
        outcome := Succeeded;
      }
    }

    /** The request after a refusal: one entry further back. */
    method BuildRetry(m: AppendEntriesMessage, upper: int) returns (again: AppendEntriesMessage)
      requires 0 <= m.prevLogIndex < |log| && upper < |log|
      ensures again == RetryRequest(View(), m, upper)
    {
      var entries := CopyEntries(m.prevLogIndex, upper);
      var prevLogIndex := m.prevLogIndex - 1;
      var prevLogTerm: int := -1;
      if prevLogIndex >= 0 {
        prevLogTerm := log[prevLogIndex].term;
      }
      again := AppendEntriesMessage(
        currentTerm, replicaId, prevLogIndex, prevLogTerm, commitIndex, entries, latestClient);
    }

    /** Send, and after each refusal send again from one entry further back, until the follower accepts.
        The leader stays as it is meanwhile and the follower's term is not above its own. */
    method LeaderSendAE(follower: RaftNode, peer: nat, upper: int, m: AppendEntriesMessage) returns (status: bool)
      requires follower != this && follower.nextIndex != nextIndex
      requires Backoff.Ready(View(), follower.View(), peer, m, upper)
      modifies this, nextIndex, follower
      ensures nextIndex == old(nextIndex) && follower.nextIndex == old(follower.nextIndex)
      ensures status && View() == old(View()).(nextIndex := old(nextIndex[..])[peer := upper + 1])
      ensures follower.View() ==
        OnAppendEntries(Rule.Overwrite, old(follower.View()),
                        Backoff.Settled(old(View()), old(follower.log), m, upper)).0
      ensures upper < |follower.log| && follower.log[..upper + 1] == log[..upper + 1]
      decreases m.prevLogIndex + 1
    {
      ghost var f, g := View(), follower.View();
      var reply := follower.AppendEntries(m);
      assert View() == f;
      if Matches(g.log, m.prevLogIndex, m.prevLogTerm) {
        Backoff.Accepted(f, g, peer, m, upper);
      } else {
        Backoff.Refused(f, g, peer, m, upper);
      }
      var outcome := HandleReply(peer, upper, reply);
      if outcome == Retry {
        var again := BuildRetry(m, upper);
        Backoff.RefusalThenAccept(g, m, Backoff.Settled(f, g.log, m, upper));
        status := LeaderSendAE(follower, peer, upper, again);
      } else {
        status := outcome == Succeeded;
      }
    }

    // ----- Client writes -----

    /** One attempt: as long as something committed is not applied, the write waits and tries again. Then append the
        operation, unless it is the one its client wrote last, or changes a key that the read before a PUT or DELETE
        does not find. A read that no majority has confirmed says nothing, and the write goes on. */
    method WriteCommand(operation: Operation, client: Bytes, confirmed: bool, store: Map) returns (answer: WriteAnswer)
      modifies this
      ensures nextIndex == old(nextIndex)
      ensures answer == Waits <==> old(commitIndex) != old(lastApplied)
      ensures answer == Appended <==>
        && old(commitIndex) == old(lastApplied) && old(state) == Leader
        && !((operation.Post? || operation.Put?) && old(latestClient) == client
             && client in old(trackMessage) && old(trackMessage)[client] == operation)
        && !((operation.Put? || operation.Delete?) && confirmed
             && (operation.key !in store || store[operation.key] == INVALID))
      ensures View() == if answer == Appended then Propose(old(View()), operation, client) else old(View())
    {
      if commitIndex != lastApplied {
        return Waits;
      }
      if state != Leader {
        return Refused;
      }
      var equal := false;
      if client in trackMessage && !operation.Delete? && !operation.NoOp? {
        equal := trackMessage[client] == operation && client == latestClient;
      }
      if equal {
        return Refused;
      }
      if operation.Put? || operation.Delete? {
        var response := if operation.key in store then store[operation.key] else INVALID;
        if confirmed && response == INVALID {
          return Refused;
        }
      }
      latestClient := client;
      log := log + [LogEntry(currentTerm, operation, client)];
      answer := Appended;
    }

    /** The verdict for the proposal at `index` was positive. */
    method CommitProposal(index: nat)
      requires index < |log|
      modifies this
      ensures nextIndex == old(nextIndex) && View() == CommitOne(old(View()), index)
    {
      commitIndex := commitIndex + 1;
      if !log[index].operation.NoOp? {
        trackMessage := trackMessage[log[index].clientid := log[index].operation];
      }
      PersistToStorage();
      commitsReady := commitsReady + [1];
    }

    // ----- Applying -----

    /** Apply the entries in order; the store stops answering after `reachable` of them. */
    method ApplyEntries(store: Map, entries: Log, reachable: nat) returns (after: Map, applied: nat)
      ensures applied == if reachable < |entries| then reachable else |entries|
      ensures after == ApplyAll(store, entries[..applied])
    {
      after, applied := store, 0;
      while applied < |entries|
        invariant applied <= |entries| && applied <= reachable
        invariant after == ApplyAll(store, entries[..applied])
      {
        if applied == reachable {
          break;
        }
        assert entries[..applied + 1][..applied] == entries[..applied];
        after := ApplyOne(after, entries[applied].operation);
        applied := applied + 1;
      }
    }

    /** Apply the batch the oldest token announces, as far as the store answers. */
    method ApplyToStateMachine(store: Map, reachable: nat) returns (after: Map, applied: nat)
      requires commitsReady != [] && commitsReady[0] >= 0
      requires -1 <= lastApplied && lastApplied + commitsReady[0] < |log|
      modifies this
      ensures nextIndex == old(nextIndex)
      ensures applied == if reachable < old(commitsReady[0]) then reachable else old(commitsReady[0])
      ensures View() == Applied(old(View()), applied)
      ensures after == ApplyAll(store, old(log[lastApplied + 1..lastApplied + applied + 1]))
    {
      var toCommit := commitsReady[0];
      commitsReady := commitsReady[1..];
      var entries := log[lastApplied + 1..lastApplied + toCommit + 1];
      after, applied := ApplyEntries(store, entries, reachable);
      assert entries[..applied] == log[lastApplied + 1..lastApplied + applied + 1];
      lastApplied := lastApplied + applied;
      PersistToStorage();
    }
  }
}
