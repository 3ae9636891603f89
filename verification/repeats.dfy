/** A client's write that is sent again: when it is refused, and how long a node remembers. */
module Repeats {
  import opened Entries
  import opened Protocol
  import opened Cluster
  import opened Tracking
  import Answers
  import Chronicle
  import Counting
  import Effects
  import Elections
  import Reads

  /** The node has the operation as the client's last one, and the client as the last that wrote. */
  ghost predicate Remembers(f: Fields, op: Operation, c: Bytes) {
    c in f.trackMessage && f.trackMessage[c] == op && f.latestClient == c
  }

  /** In every state: a leader appends a client's operation, if it is no no-op, unless it is a POST or PUT that the
      leader remembers. A DELETE is always appended, and so is the write of another client than the last one. */
  lemma AppendedIff(rule: Rule, s: Cluster, i: nat, op: Operation, c: Bytes)
    requires Leads(s, i) && !op.NoOp?
    ensures (exists z :: Step(rule, s, ClientWrite(i, op, c), z)) <==>
      !((op.Post? || op.Put?) && Remembers(s.nodes[i].raft, op, c))
  {
    var z := Moved(s, i, Wrote(s.nodes[i], op, c), {});
    if !Duplicate(s.nodes[i].raft, op, c) {
      assert Step(rule, s, ClientWrite(i, op, c), z);
    }
  }

  // ----- One step -----

  /** The node takes the commit index of the request. */
  ghost predicate Learning(f: Fields, m: AppendEntriesMessage) {
    f.currentTerm <= m.term && Answers.Precedes(f.log, m) && m.leaderCommit > f.commitIndex
  }

  /** Among the entries that become committed the client's last one is another operation. */
  ghost predicate LearnsOther(f: Fields, g: Fields, op: Operation, c: Bytes) {
    f.commitIndex >= -1
    && exists j: nat :: LastOf(g.log, f.commitIndex + 1, g.commitIndex + 1, c, j) && g.log[j].operation != op
  }

  /** What makes a node forget: a restart, a write of another client, a success for another operation of this client,
      and a request that announces commits, if it names another client or brings another operation of this one. */
  ghost predicate Disturbs(x: Node, e: Event, y: Node, op: Operation, c: Bytes) {
    match e
    case Crash(_) => true
    case CrashInApply(_, _) => true
    case ClientWrite(_, _, client) => client != c
    case CommitProposal(_, round) =>
      && round < |x.rounds| && 0 <= x.rounds[round].index < |x.raft.log|
      && var entry := x.raft.log[x.rounds[round].index];
      entry.clientid == c && !entry.operation.NoOp? && entry.operation != op
    case DeliverAppend(p) =>
      && p.AppendRequest? && Learning(x.raft, p.append)
      && (p.append.latestClient != c || LearnsOther(x.raft, y.raft, op, c))
    case _ => false
  }

  /** A node that remembers goes on doing so exactly as long as nothing of that happens. */
  lemma RemembersIff(rule: Rule, s: Cluster, e: Event, z: Cluster, op: Operation, c: Bytes)
    requires Step(rule, s, e, z) && Site(e) < |s.nodes| == |z.nodes| && Remembers(s.nodes[Site(e)].raft, op, c)
    requires -1 <= s.nodes[Site(e)].raft.commitIndex <= z.nodes[Site(e)].raft.commitIndex
    requires z.nodes[Site(e)].raft.commitIndex < |z.nodes[Site(e)].raft.log|
    ensures Remembers(z.nodes[Site(e)].raft, op, c) <==> !Disturbs(s.nodes[Site(e)], e, z.nodes[Site(e)], op, c)
  {
    match e {
      case DeliverAppend(p) => LearningIff(rule, s.nodes[p.dest].raft, p.append, op, c);
      case DeliverVoteReply(_) => VotesRemember(rule, s, e, z, op, c);
      case DeliverVoteRequest(_) => VotesRemember(rule, s, e, z, op, c);
      case Timeout(_) => VotesRemember(rule, s, e, z, op, c);
      case _ => OwnStepRemembers(rule, s, e, z, op, c);
    }
  }

  lemma VotesRemember(rule: Rule, s: Cluster, e: Event, z: Cluster, op: Operation, c: Bytes)
    requires Step(rule, s, e, z) && (e.DeliverVoteReply? || e.DeliverVoteRequest? || e.Timeout?)
    requires Site(e) < |s.nodes|
    ensures |z.nodes| == |s.nodes|
    ensures Remembers(z.nodes[Site(e)].raft, op, c) <==> Remembers(s.nodes[Site(e)].raft, op, c)
  {
  }

  lemma OwnStepRemembers(rule: Rule, s: Cluster, e: Event, z: Cluster, op: Operation, c: Bytes)
    requires Step(rule, s, e, z) && Site(e) < |s.nodes| && Remembers(s.nodes[Site(e)].raft, op, c)
    requires !e.DeliverVoteReply? && !e.DeliverVoteRequest? && !e.Timeout? && !e.DeliverAppend?
    ensures |z.nodes| == |s.nodes|
    ensures Remembers(z.nodes[Site(e)].raft, op, c) <==> !Disturbs(s.nodes[Site(e)], e, z.nodes[Site(e)], op, c)
  {
  }

  /** After a request that announces commits: the client is the one that the request names, and the operation is the
      client's last one among the new commits, or what the table had if there is none. */
  lemma LearnedIff(rule: Rule, f: Fields, m: AppendEntriesMessage, op: Operation, c: Bytes)
    requires m.prevLogIndex >= -1 && -1 <= f.commitIndex && Learning(f, m)
    requires f.commitIndex <= OnAppendEntries(rule, f, m).0.commitIndex < |OnAppendEntries(rule, f, m).0.log|
    ensures var g := OnAppendEntries(rule, f, m).0;
      var a, b := f.commitIndex + 1, g.commitIndex + 1;
      Remembers(g, op, c) <==>
        && m.latestClient == c
        && (|| (exists j: nat :: LastOf(g.log, a, b, c, j) && g.log[j].operation == op)
            || (Absent(g.log, a, b, c) && c in f.trackMessage && f.trackMessage[c] == op))
  {
    var g := OnAppendEntries(rule, f, m).0;
    Answers.AcceptedLearns(rule, f, m);
    TrackSays(f.trackMessage, g.log, f.commitIndex + 1, g.commitIndex + 1, c);
    TableLearned(rule, f, m);
  }

  lemma TableLearned(rule: Rule, f: Fields, m: AppendEntriesMessage)
    requires m.prevLogIndex >= -1 && -1 <= f.commitIndex && Learning(f, m)
    requires f.commitIndex <= OnAppendEntries(rule, f, m).0.commitIndex < |OnAppendEntries(rule, f, m).0.log|
    ensures var g := OnAppendEntries(rule, f, m).0;
      g.trackMessage == Track(f.trackMessage, g.log, f.commitIndex + 1, g.commitIndex + 1)
  {
  }

  lemma LearningIff(rule: Rule, f: Fields, m: AppendEntriesMessage, op: Operation, c: Bytes)
    requires m.prevLogIndex >= -1 && -1 <= f.commitIndex && Remembers(f, op, c)
    requires f.commitIndex <= OnAppendEntries(rule, f, m).0.commitIndex < |OnAppendEntries(rule, f, m).0.log|
    ensures var g := OnAppendEntries(rule, f, m).0;
      Remembers(g, op, c) <==> !(Learning(f, m) && (m.latestClient != c || LearnsOther(f, g, op, c)))
  {
    var g := OnAppendEntries(rule, f, m).0;
    if Learning(f, m) {
      LearnedIff(rule, f, m, op, c);
      SomeOrNone(g.log, f.commitIndex + 1, g.commitIndex + 1, c);
      OneLast(g.log, f.commitIndex + 1, g.commitIndex + 1, c);
    } else if f.currentTerm <= m.term && Answers.Precedes(f.log, m) {
      Answers.AcceptedLearns(rule, f, m);
    }
  }

  lemma SomeOrNone(log: Log, a: nat, b: int, c: Bytes)
    requires a <= b <= |log|
    ensures Absent(log, a, b, c) <==> !exists j: nat :: LastOf(log, a, b, c, j)
  {
  }

  lemma OneLast(log: Log, a: nat, b: int, c: Bytes)
    ensures forall i: nat, j: nat :: LastOf(log, a, b, c, i) && LastOf(log, a, b, c, j) ==> i == j
  {
  }

  // ----- Runs -----

  /** Nothing makes node `i` forget from moment `a` to moment `k`. */
  ghost predicate Undisturbed(
    states: seq<Cluster>, events: seq<Event>, a: nat, k: nat, i: nat, op: Operation, c: Bytes)
    requires a <= k <= |events| && |states| == |events| + 1
  {
    forall m {:trigger events[m]} ::
      a <= m < k && Site(events[m]) == i && i < |states[m].nodes| && i < |states[m + 1].nodes| ==>
        !Disturbs(states[m].nodes[i], events[m], states[m + 1].nodes[i], op, c)
  }

  /** A node that remembers a POST or PUT, and is not disturbed, does not append it again, whatever becomes of it: a
      leader, a follower that is elected later, one that loses its office and wins it back. */
  lemma {:induction false} RememberedUntil(
    rule: Rule, replicas: nat, states: seq<Cluster>, events: seq<Event>, a: nat, k: nat, i: nat,
    op: Operation, c: Bytes)
    requires Run(rule, replicas, states, events) && a <= k < |states| && i < replicas
    requires i < |states[a].nodes| && Remembers(states[a].nodes[i].raft, op, c)
    requires Undisturbed(states, events, a, k, i, op, c)
    ensures i < |states[k].nodes| && Remembers(states[k].nodes[i].raft, op, c)
    decreases k
  {
    if a < k {
      var j := k - 1;
      RememberedUntil(rule, replicas, states, events, a, j, i, op, c);
      Counting.SeenStep(rule, replicas, states, events, j, i);
      Counting.CommitInLog(rule, replicas, states, events, j, i);
      Counting.CommitInLog(rule, replicas, states, events, k, i);
      assert Stepped(rule, states, events, j) && events[j] == events[j];
      if i == Site(events[j]) {
        RemembersIff(rule, states[j], events[j], states[k], op, c);
      }
    }
  }

  /** So the same write of the client is no event of the run, however much later. */
  lemma NotAgain(
    rule: Rule, replicas: nat, states: seq<Cluster>, events: seq<Event>, a: nat, k: nat, i: nat,
    op: Operation, c: Bytes)
    requires Run(rule, replicas, states, events) && a <= k < |events| && i < replicas && (op.Post? || op.Put?)
    requires i < |states[a].nodes| && Remembers(states[a].nodes[i].raft, op, c)
    requires Undisturbed(states, events, a, k, i, op, c)
    ensures events[k] != ClientWrite(i, op, c)
  {
    RememberedUntil(rule, replicas, states, events, a, k, i, op, c);
    assert Stepped(rule, states, events, k);
  }

  /** The leader's own steps between an append and a success, as far as the client is concerned: nobody else writes. */
  ghost predicate OnlyWriter(events: seq<Event>, a: nat, k: nat, i: nat, c: Bytes)
    requires k <= |events|
  {
    forall m {:trigger events[m]} :: a <= m < k && events[m].ClientWrite? && events[m].i == i ==> events[m].client == c
  }

  /** Nor has another operation of the client a late success. */
  ghost predicate NoOtherSuccess(
    states: seq<Cluster>, events: seq<Event>, a: nat, k: nat, i: nat, op: Operation, c: Bytes)
    requires a <= k <= |events| && |states| == |events| + 1
  {
    forall m {:trigger events[m]} ::
      a <= m < k && events[m].CommitProposal? && events[m].i == i && i < |states[m].nodes| ==>
        !Disturbs(states[m].nodes[i], events[m], states[m].nodes[i], op, c)
  }

  /** While a node leads, only writes touch its latest client. */
  lemma LatestKept(rule: Rule, s: Cluster, h: Elections.History, e: Event, z: Cluster, i: nat, c: Bytes)
    requires Elections.Told(s, h) && Step(rule, s, e, z) && Leads(s, i) && Leads(z, i)
    requires s.nodes[i].raft.latestClient == c && (e.ClientWrite? && e.i == i ==> e.client == c)
    ensures z.nodes[i].raft.latestClient == c
  {
    Effects.OthersRest(rule, s, e, z);
    if i == Site(e) {
      if e.DeliverAppend? {
        assert Elections.PacketFits(s, h, e.p) && Elections.NodeFits(s, h, i);
        Counting.StaleRequest(rule, s, e.p, z);
      } else {
        LatestOwnStep(rule, s, e, z, c);
      }
    }
  }

  lemma LatestOwnStep(rule: Rule, s: Cluster, e: Event, z: Cluster, c: Bytes)
    requires Step(rule, s, e, z) && Leads(s, Site(e)) && Leads(z, Site(e)) && !e.DeliverAppend?
    requires s.nodes[Site(e)].raft.latestClient == c && (e.ClientWrite? ==> e.client == c)
    ensures z.nodes[Site(e)].raft.latestClient == c
  {
  }

  lemma {:induction false} LatestUntil(
    rule: Rule, replicas: nat, states: seq<Cluster>, events: seq<Event>, a: nat, k: nat, i: nat, c: Bytes)
    requires Run(rule, replicas, states, events) && Counting.LeadsFrom(states, a, k, i)
    requires Leads(states[a], i) && states[a].nodes[i].raft.latestClient == c && OnlyWriter(events, a, k, i, c)
    ensures Leads(states[k], i) && states[k].nodes[i].raft.latestClient == c
    decreases k
  {
    assert Leads(states[k], i);
    if a < k {
      var j := k - 1;
      LatestUntil(rule, replicas, states, events, a, j, i, c);
      var hs := Chronicle.Record(rule, replicas, states, events);
      assert Elections.Told(states[j], hs[j]) && Stepped(rule, states, events, j) && events[j] == events[j];
      LatestKept(rule, states[j], hs[j], events[j], states[k], i, c);
    }
  }

  /** A leader that leads on is only disturbed by writes and successes. */
  lemma LeaderUndisturbed(
    rule: Rule, replicas: nat, states: seq<Cluster>, events: seq<Event>, a: nat, k: nat, i: nat,
    op: Operation, c: Bytes)
    requires Run(rule, replicas, states, events) && Counting.LeadsFrom(states, a, k, i)
    requires OnlyWriter(events, a, k, i, c) && NoOtherSuccess(states, events, a, k, i, op, c)
    ensures Undisturbed(states, events, a, k, i, op, c)
  {
    var hs := Chronicle.Record(rule, replicas, states, events);
    forall m | a <= m < k && Site(events[m]) == i && i < |states[m].nodes| && i < |states[m + 1].nodes|
      ensures !Disturbs(states[m].nodes[i], events[m], states[m + 1].nodes[i], op, c)
    {
      var j := m + 1;
      assert Leads(states[m], i) && Leads(states[j], i);
      assert Elections.Told(states[m], hs[m]) && Stepped(rule, states, events, m);
      LeaderStays(rule, states[m], hs[m], events[m], states[j], i, op, c);
    }
  }

  lemma LeaderStays(
    rule: Rule, s: Cluster, h: Elections.History, e: Event, z: Cluster, i: nat, op: Operation, c: Bytes)
    requires Elections.Told(s, h) && Step(rule, s, e, z) && Site(e) == i && Leads(s, i) && Leads(z, i)
    requires e.ClientWrite? ==> e.client == c
    requires e.CommitProposal? ==> !Disturbs(s.nodes[i], e, s.nodes[i], op, c)
    ensures !Disturbs(s.nodes[i], e, z.nodes[i], op, c)
  {
    if e.DeliverAppend? {
      assert Elections.PacketFits(s, h, e.p) && Elections.NodeFits(s, h, i);
      Answers.StepsDownFor(rule, s, e.p, z);
    }
  }

  /** A leader has appended a client's POST or PUT, and it succeeded. As long as that leader leads, no other client
      writes and no other operation of this client has a late success, it does not append the same write again. */
  lemma RepeatRefused(
    rule: Rule, replicas: nat, states: seq<Cluster>, events: seq<Event>, a: nat, b: nat, k: nat, i: nat, round: nat,
    op: Operation, c: Bytes)
    requires Run(rule, replicas, states, events) && a < b < k < |events| && (op.Post? || op.Put?)
    requires events[a] == ClientWrite(i, op, c) && Counting.LeadsFrom(states, a, k, i) && Leads(states[a], i)
    requires events[b] == CommitProposal(i, round) && i < |states[b].nodes| && round < |states[b].nodes[i].rounds|
    requires states[b].nodes[i].rounds[round].index == |states[a].nodes[i].raft.log|
    requires OnlyWriter(events, a, k, i, c) && NoOtherSuccess(states, events, b + 1, k, i, op, c)
    ensures events[k] != ClientWrite(i, op, c)
  {
    Chronicle.GroupSize(rule, replicas, states, events, a);
    var a1, b1 := a + 1, b + 1;
    assert Leads(states[a1], i) && Leads(states[b], i) && Leads(states[b1], i);
    assert Stepped(rule, states, events, a) && Stepped(rule, states, events, b);
    LatestUntil(rule, replicas, states, events, a1, b, i, c);
    EntryStays(rule, replicas, states, events, a1, b, i);
    CommitRemembers(rule, states[b], i, round, states[b1], op, c);
    LeaderUndisturbed(rule, replicas, states, events, b1, k, i, op, c);
    NotAgain(rule, replicas, states, events, b1, k, i, op, c);
  }

  lemma EntryStays(rule: Rule, replicas: nat, states: seq<Cluster>, events: seq<Event>, a: nat, b: nat, i: nat)
    requires Run(rule, replicas, states, events) && Counting.LeadsFrom(states, a, b, i)
    requires Leads(states[a], i) && Leads(states[b], i)
    ensures states[a].nodes[i].raft.log <= states[b].nodes[i].raft.log
  {
    var hs := Chronicle.Record(rule, replicas, states, events);
    Reads.SameTerm(rule, states, events, hs, a, b, i);
    Chronicle.LeaderAppendOnly(rule, replicas, states, events, a, b, i, i);
  }

  lemma CommitRemembers(rule: Rule, s: Cluster, i: nat, round: nat, z: Cluster, op: Operation, c: Bytes)
    requires Step(rule, s, CommitProposal(i, round), z) && s.nodes[i].raft.latestClient == c && !op.NoOp?
    requires var entry := s.nodes[i].raft.log[s.nodes[i].rounds[round].index];
      entry.operation == op && entry.clientid == c
    ensures i < |z.nodes| && Remembers(z.nodes[i].raft, op, c)
  {
  }

  /** A follower that has learned of a client's POST or PUT, as the client's last commit and from a request that names
      the client, and that is not disturbed since, does not append it again when it leads. */
  lemma LearnerRefuses(
    rule: Rule, replicas: nat, states: seq<Cluster>, events: seq<Event>, b: nat, k: nat, p: Packet, x: nat,
    op: Operation, c: Bytes)
    requires Run(rule, replicas, states, events) && b < k < |events| && (op.Post? || op.Put?)
    requires events[b] == DeliverAppend(p) && p.AppendRequest? && p.dest < replicas
    requires p.dest < |states[b].nodes| && p.dest < |states[b + 1].nodes|
    requires Learning(states[b].nodes[p.dest].raft, p.append) && p.append.latestClient == c
    requires var f, g := states[b].nodes[p.dest].raft, states[b + 1].nodes[p.dest].raft;
      f.commitIndex >= -1 && LastOf(g.log, f.commitIndex + 1, g.commitIndex + 1, c, x) && g.log[x].operation == op
    requires Undisturbed(states, events, b + 1, k, p.dest, op, c)
    ensures events[k] != ClientWrite(p.dest, op, c)
  {
    var b1, f := b + 1, states[b].nodes[p.dest].raft;
    assert Stepped(rule, states, events, b);
    Counting.SeenStep(rule, replicas, states, events, b, p.dest);
    Counting.CommitInLog(rule, replicas, states, events, b1, p.dest);
    LearnedIff(rule, f, p.append, op, c);
    NotAgain(rule, replicas, states, events, b1, k, p.dest, op, c);
  }
}
