/** The table of each client's latest operation that a follower keeps. */
module Tracking {
  import opened Entries
  import opened Protocol
  import opened Cluster
  import opened Application
  import Chronicle
  import Counting

  lemma {:induction false} TrackCompose(table: map<Bytes, Operation>, log: Log, a: nat, b: int, c: int)
    requires a <= b <= c <= |log|
    ensures Track(Track(table, log, a, b), log, b, c) == Track(table, log, a, c)
    decreases c
  {
    if c > b {
      TrackCompose(table, log, a, b, c - 1);
    }
  }

  lemma {:induction false} TrackPrefix(table: map<Bytes, Operation>, x: Log, y: Log, a: nat, end: nat)
    requires end <= |x| && end <= |y| && x[..end] == y[..end]
    ensures Track(table, x, a, end) == Track(table, y, a, end)
    decreases end
  {
    if end > a {
      ShorterPrefix(x, y, end - 1, end);
      SamePrefixAt(x, y, end - 1, end);
      TrackPrefix(table, x, y, a, end - 1);
    }
  }

  /** `i` is the last entry of the client in `log[a..end]`. */
  ghost predicate LastOf(log: Log, a: nat, end: int, client: Bytes, i: nat) {
    && a <= i < end <= |log| && log[i].clientid == client
    && forall j :: i < j < end ==> log[j].clientid != client
  }

  ghost predicate Absent(log: Log, a: nat, end: int, client: Bytes) {
    forall i: nat :: !LastOf(log, a, end, client, i)
  }

  /** The client's last operation in the stretch, or what an older table said if it has none there. */
  ghost predicate Latest(
    before: map<Bytes, Operation>, table: map<Bytes, Operation>, log: Log, a: nat, end: int, client: Bytes)
  {
    && (forall i: nat :: LastOf(log, a, end, client, i) ==> client in table && table[client] == log[i].operation)
    && (Absent(log, a, end, client) ==>
          (client in table <==> client in before) && (client in table ==> table[client] == before[client]))
  }

  lemma {:induction false} TrackSays(table: map<Bytes, Operation>, log: Log, a: nat, end: int, client: Bytes)
    requires a <= end <= |log|
    ensures Latest(table, Track(table, log, a, end), log, a, end, client)
    decreases end
  {
    if end > a {
      var e := end - 1;
      TrackSays(table, log, a, e, client);
      if log[e].clientid == client {
        assert LastOf(log, a, end, client, e);
      } else {
        forall i: nat
          ensures LastOf(log, a, end, client, i) == LastOf(log, a, e, client, i)
        {
        }
      }
    }
  }

  // ----- Over runs -----

  predicate CrashOf(e: Event, i: nat) {
    e == Crash(i) || (e.CrashInApply? && e.i == i)
  }

  /** From moment `t` to moment `k` node `i` neither crashed nor led. */
  ghost predicate Followed(states: seq<Cluster>, events: seq<Event>, t: nat, k: nat, i: nat)
    requires t <= k <= |events| && |states| == |events| + 1
  {
    && (forall m :: t <= m <= k ==> !Leads(states[m], i))
    && (forall m :: t <= m < k ==> !CrashOf(events[m], i))
  }

  lemma FollowedBefore(states: seq<Cluster>, events: seq<Event>, t: nat, k: nat, i: nat)
    requires t < k <= |events| && |states| == |events| + 1 && Followed(states, events, t, k, i)
    ensures Followed(states, events, t, k - 1, i)
    ensures !Leads(states[k - 1], i) && !Leads(states[k], i) && !CrashOf(events[k - 1], i)
  {
  }

  /** How one step of a node that does not lead moves its table. */
  ghost predicate TableMoves(f: Fields, g: Fields) {
    -1 <= f.commitIndex <= g.commitIndex < |g.log|
    && g.trackMessage == Track(f.trackMessage, g.log, f.commitIndex + 1, g.commitIndex + 1)
  }

  lemma TableStep(s: Cluster, e: Event, n: Cluster)
    requires Step(Truncate, s, e, n) && Site(e) < |s.nodes| == |n.nodes|
    requires !Leads(s, Site(e)) && !Leads(n, Site(e)) && !CrashOf(e, Site(e))
    requires var f, g := s.nodes[Site(e)].raft, n.nodes[Site(e)].raft;
      -1 <= f.commitIndex < |f.log| && f.commitIndex <= g.commitIndex < |g.log|
    ensures TableMoves(s.nodes[Site(e)].raft, n.nodes[Site(e)].raft)
  {
    match e {
      case DeliverAppend(p) => AcceptMoves(s.nodes[p.dest].raft, p.append);
      case DeliverAppendReply(_) => TableReply(s, e, n);
      case Timeout(_) => TableElection(s, e, n);
      case DeliverVoteRequest(_) => TableElection(s, e, n);
      case DeliverVoteReply(_) => TableElection(s, e, n);
      case _ => TableRests(s, e, n);
    }
  }

  lemma AcceptMoves(f: Fields, m: AppendEntriesMessage)
    requires m.prevLogIndex >= -1 && -1 <= f.commitIndex < |f.log|
    requires var g := OnAppendEntries(Truncate, f, m).0; f.commitIndex <= g.commitIndex < |g.log|
    ensures TableMoves(f, OnAppendEntries(Truncate, f, m).0)
  {
  }

  lemma TableElection(s: Cluster, e: Event, n: Cluster)
    requires Step(Truncate, s, e, n) && (e.Timeout? || e.DeliverVoteRequest? || e.DeliverVoteReply?)
    requires Site(e) < |s.nodes| && -1 <= s.nodes[Site(e)].raft.commitIndex < |s.nodes[Site(e)].raft.log|
    ensures |n.nodes| == |s.nodes| && TableMoves(s.nodes[Site(e)].raft, n.nodes[Site(e)].raft)
  {
  }

  lemma TableReply(s: Cluster, e: Event, n: Cluster)
    requires Step(Truncate, s, e, n) && e.DeliverAppendReply?
    requires Site(e) < |s.nodes| && -1 <= s.nodes[Site(e)].raft.commitIndex < |s.nodes[Site(e)].raft.log|
    ensures |n.nodes| == |s.nodes| && TableMoves(s.nodes[Site(e)].raft, n.nodes[Site(e)].raft)
  {
  }

  lemma TableRests(s: Cluster, e: Event, n: Cluster)
    requires Step(Truncate, s, e, n)
    requires || e.GiveUp? || e.Apply? || e.ServeRead? || e.ClientWrite? || e.StartRound? || e.RetryNoOp?
             || e.SendAppend? || e.CommitProposal?
    requires Site(e) < |s.nodes| && !Leads(s, Site(e))
    requires -1 <= s.nodes[Site(e)].raft.commitIndex < |s.nodes[Site(e)].raft.log|
    ensures |n.nodes| == |s.nodes| && TableMoves(s.nodes[Site(e)].raft, n.nodes[Site(e)].raft)
  {
  }

  /** The table is an older one with the entries after `from` learned. */
  ghost predicate Learned(table: map<Bytes, Operation>, from: int, f: Fields) {
    && -1 <= from <= f.commitIndex < |f.log|
    && f.trackMessage == Track(table, f.log, from + 1, f.commitIndex + 1)
  }

  /** Two stretches of learning make one. */
  lemma TableJoins(table: map<Bytes, Operation>, from: int, f: Fields, g: Fields)
    requires Regular(f) && Regular(g) && KeepsCommitted(f, g) && TableMoves(f, g) && Learned(table, from, f)
    ensures Learned(table, from, g)
  {
    TrackPrefix(table, f.log, g.log, from + 1, f.commitIndex + 1);
    TrackCompose(table, g.log, from + 1, f.commitIndex + 1, g.commitIndex + 1);
  }

  lemma NothingLearned(f: Fields)
    requires Regular(f)
    ensures Learned(f.trackMessage, f.commitIndex, f)
  {
  }

  /** As long as a node neither crashes nor leads, its table changes by exactly the operations of the entries it learns
      to be committed, in their order, for every batch size and every clamp of the commit index. */
  lemma {:induction false} TableFollowsLog(
    replicas: nat, states: seq<Cluster>, events: seq<Event>, t: nat, k: nat, i: nat)
    requires Run(Truncate, replicas, states, events) && t <= k < |states| && i < replicas
    requires Followed(states, events, t, k, i)
    ensures |states[t].nodes| == |states[k].nodes| == replicas
    ensures var f := states[t].nodes[i].raft; Learned(f.trackMessage, f.commitIndex, states[k].nodes[i].raft)
    decreases k
  {
    if t < k {
      FollowedBefore(states, events, t, k, i);
      TableFollowsLog(replicas, states, events, t, k - 1, i);
      TableOneStep(replicas, states, events, k - 1, i);
      var f := states[t].nodes[i].raft;
      TableJoins(f.trackMessage, f.commitIndex, states[k - 1].nodes[i].raft, states[k].nodes[i].raft);
    } else {
      RegularAlways(replicas, states, events, t, i);
      NothingLearned(states[t].nodes[i].raft);
    }
  }

  lemma TableOneStep(replicas: nat, states: seq<Cluster>, events: seq<Event>, k: nat, i: nat)
    requires Run(Truncate, replicas, states, events) && k < |events| && i < replicas
    requires !Leads(states[k], i) && !Leads(states[k + 1], i) && !CrashOf(events[k], i)
    ensures |states[k].nodes| == |states[k + 1].nodes| == replicas
    ensures Regular(states[k].nodes[i].raft) && Regular(states[k + 1].nodes[i].raft)
    ensures KeepsCommitted(states[k].nodes[i].raft, states[k + 1].nodes[i].raft)
    ensures TableMoves(states[k].nodes[i].raft, states[k + 1].nodes[i].raft)
  {
    Stays(replicas, states, events, k, i);
    Counting.SeenStep(Truncate, replicas, states, events, k, i);
    if i == Site(events[k]) {
      assert Stepped(Truncate, states, events, k);
      TableStep(states[k], events[k], states[k + 1]);
    }
  }

  /** So a client's entry is the operation of its last entry learned since then, and as it was if there is none. */
  lemma TableIsLatest(
    replicas: nat, states: seq<Cluster>, events: seq<Event>, t: nat, k: nat, i: nat, client: Bytes)
    requires Run(Truncate, replicas, states, events) && t <= k < |states| && i < replicas
    requires Followed(states, events, t, k, i)
    ensures |states[t].nodes| == |states[k].nodes| == replicas
    ensures var f, g := states[t].nodes[i].raft, states[k].nodes[i].raft;
      Learned(f.trackMessage, f.commitIndex, g)
      && Latest(f.trackMessage, g.trackMessage, g.log, f.commitIndex + 1, g.commitIndex + 1, client)
  {
    TableFollowsLog(replicas, states, events, t, k, i);
    var f, g := states[t].nodes[i].raft, states[k].nodes[i].raft;
    TrackSays(f.trackMessage, g.log, f.commitIndex + 1, g.commitIndex + 1, client);
  }

  /** A life begins with an empty table. */
  lemma EmptyAtStart(replicas: nat, states: seq<Cluster>, events: seq<Event>, t: nat, i: nat)
    requires Run(Truncate, replicas, states, events) && t < |states| && i < replicas
    requires t == 0 || CrashOf(events[t - 1], i)
    ensures |states[t].nodes| == replicas && states[t].nodes[i].raft.trackMessage == map[]
  {
    Chronicle.GroupSize(Truncate, replicas, states, events, t);
    if t > 0 {
      assert Stepped(Truncate, states, events, t - 1);
      TableCleared(states[t - 1], events[t - 1], states[t], i);
    }
  }

  lemma TableCleared(s: Cluster, e: Event, n: Cluster, i: nat)
    requires Step(Truncate, s, e, n) && CrashOf(e, i)
    ensures i < |n.nodes| && n.nodes[i].raft.trackMessage == map[]
  {
  }

  // ----- A leader's table -----

  /** The table already says what the entry would write. */
  predicate Holds(table: map<Bytes, Operation>, e: LogEntry) {
    e.clientid in table && table[e.clientid] == e.operation
  }

  /** A leader records its own proposal, while its commit index passes whatever entry comes next. Its table goes on as a
      follower's would exactly in two cases. The proposal is a client's, and the entry passed is of the same client
      and operation, as when the proposal is itself the next entry. Or nothing would change either way. */
  lemma LeaderTableIff(f: Fields, index: nat)
    requires index < |f.log| && -1 <= f.commitIndex && f.commitIndex + 1 < |f.log|
    ensures TableMoves(f, CommitOne(f, index)) <==>
      var mine, next := f.log[index], f.log[f.commitIndex + 1];
      || (!mine.operation.NoOp? && mine.clientid == next.clientid && mine.operation == next.operation)
      || (Holds(f.trackMessage, next) && (mine.operation.NoOp? || Holds(f.trackMessage, mine)))
  {
    var g, c := CommitOne(f, index), f.commitIndex + 1;
    var mine, next := f.log[index], f.log[c];
    assert Track(f.trackMessage, f.log, c, c + 1)
        == Track(f.trackMessage, f.log, c, c)[next.clientid := next.operation];
    if mine.operation.NoOp? {
      SameEntry(f.trackMessage, next);
    } else {
      SameUpdate(f.trackMessage, mine, next);
    }
  }

  lemma SameEntry(table: map<Bytes, Operation>, next: LogEntry)
    ensures table == table[next.clientid := next.operation] <==> Holds(table, next)
  {
    var y := table[next.clientid := next.operation];
    assert next.clientid in y && y[next.clientid] == next.operation;
  }

  lemma SameUpdate(table: map<Bytes, Operation>, mine: LogEntry, next: LogEntry)
    ensures table[mine.clientid := mine.operation] == table[next.clientid := next.operation] <==>
      || (mine.clientid == next.clientid && mine.operation == next.operation)
      || (Holds(table, next) && Holds(table, mine))
  {
    var x, y := table[mine.clientid := mine.operation], table[next.clientid := next.operation];
    assert mine.clientid in x && x[mine.clientid] == mine.operation;
    assert next.clientid in y && y[next.clientid] == next.operation;
    if Holds(table, next) && Holds(table, mine) {
      assert x == table && y == table;
    }
  }
}
