/** What a node answers to a request for entries, and what a sender makes of the answer, said of the inputs alone. */
module Answers {
  import opened Entries
  import opened Merging
  import opened Consensus
  import opened Protocol
  import opened Cluster
  import Chronicle
  import Effects
  import Elections
  import MergeLaws
  import Refinement
  import Safety
  import Simulation
  import Theorems

  // ----- The answer -----

  /** The log has an entry of the given term in front of the sent ones, or nothing has to be in front of them. */
  ghost predicate Precedes(log: Log, m: AppendEntriesMessage) {
    m.prevLogIndex == -1 || (0 <= m.prevLogIndex < |log| && log[m.prevLogIndex].term == m.prevLogTerm)
  }

  /** At the place of every sent entry the log has one of its term. */
  ghost predicate HoldsAll(log: Log, m: AppendEntriesMessage) {
    forall j {:trigger m.entries[j]} :: 0 <= j < |m.entries| ==>
      && 0 <= m.prevLogIndex + 1 + j < |log|
      && log[m.prevLogIndex + 1 + j].term == m.entries[j].term
  }

  lemma AgreedIsAll(log: Log, m: AppendEntriesMessage)
    requires m.prevLogIndex >= -1
    ensures Agreed(log, m.prevLogIndex + 1, m.entries) == |m.entries| <==> HoldsAll(log, m)
  {
    var start := m.prevLogIndex + 1;
    AgreedStops(log, start, m.entries);
    var c := Agreed(log, start, m.entries);
    if c == |m.entries| {
      forall j | 0 <= j < |m.entries|
        ensures start + j < |log| && log[start + j].term == m.entries[j].term
      {
        AgreedAt(log, start, m.entries, j);
      }
    } else {
      assert m.entries[c] == m.entries[c];
    }
  }

  /** A request of a lower term: nothing changes, the answer has the higher term, and it is a success if and only if the
      log holds everything that was sent. */
  lemma StaleAnswerIff(rule: Rule, f: Fields, m: AppendEntriesMessage)
    requires m.prevLogIndex >= -1 && f.commitIndex >= -1 && f.currentTerm > m.term
    ensures var (g, reply) := OnAppendEntries(rule, f, m);
      && g == f && reply.term == f.currentTerm
      && (reply.success <==> Precedes(f.log, m) && HoldsAll(f.log, m))
  {
    AgreedIsAll(f.log, m);
  }

  /** The node gives up its role and its vote for the request. */
  predicate StepsDown(f: Fields, term: nat) {
    f.currentTerm < term || f.state == Candidate
  }

  /** Any other request: the node is in the request's term then, as a follower if it was behind or a candidate. It is a
      success if and only if the entry in front of the sent ones is there, and otherwise nothing else has changed. */
  lemma AnswerIff(rule: Rule, f: Fields, m: AppendEntriesMessage)
    requires m.prevLogIndex >= -1 && f.commitIndex >= -1 && f.currentTerm <= m.term
    ensures var (g, reply) := OnAppendEntries(rule, f, m);
      && reply.term == m.term == g.currentTerm && (reply.success <==> Precedes(f.log, m))
      && g.state == (if StepsDown(f, m.term) then Follower else f.state)
      && g.votedFor == (if StepsDown(f, m.term) then -1 else f.votedFor)
      && (!reply.success ==> Unmoved(f, g))
  {
  }

  /** A leader that goes on leading has not taken anything from a request, if none is of its own term. */
  lemma StepsDownFor(rule: Rule, s: Cluster, p: Packet, z: Cluster)
    requires Step(rule, s, DeliverAppend(p), z) && Leads(s, p.dest) && Leads(z, p.dest)
    requires p.append.term != s.nodes[p.dest].raft.currentTerm
    ensures p.append.term < s.nodes[p.dest].raft.currentTerm && z.nodes[p.dest] == s.nodes[p.dest]
  {
  }

  /** Log, indices, table and tokens are as before. */
  ghost predicate Unmoved(f: Fields, g: Fields) {
    && g.log == f.log && g.nextIndex == f.nextIndex && g.lastApplied == f.lastApplied
    && g.commitIndex == f.commitIndex && g.commitsReady == f.commitsReady
    && g.trackMessage == f.trackMessage && g.latestClient == f.latestClient
  }

  function Least(x: int, y: int): int {
    if x <= y then x else y
  }

  /** The log begins as it did, then holds everything sent, and ends there. */
  ghost predicate CutOff(log: Log, m: AppendEntriesMessage, z: Log) {
    && -1 <= m.prevLogIndex < |log| && |z| == m.prevLogIndex + 1 + |m.entries|
    && z[..m.prevLogIndex + 1] == log[..m.prevLogIndex + 1] && HoldsAll(z, m)
  }

  /** A log that held everything sent stays as it is, and any other is cut off behind it. */
  lemma MergedMeans(log: Log, m: AppendEntriesMessage)
    requires m.prevLogIndex >= -1 && Precedes(log, m)
    ensures var z := Truncating(log, m.prevLogIndex, m.entries);
      && (if HoldsAll(log, m) then z == log else CutOff(log, m, z))
  {
    AgreedIsAll(log, m);
    if HoldsAll(log, m) {
      NothingNew(log, m);
    } else {
      CutAndAppended(log, m);
    }
  }

  lemma NothingNew(log: Log, m: AppendEntriesMessage)
    requires -1 <= m.prevLogIndex < |log| && Agreed(log, m.prevLogIndex + 1, m.entries) == |m.entries|
    ensures Truncating(log, m.prevLogIndex, m.entries) == log
  {
  }

  lemma CutAndAppended(log: Log, m: AppendEntriesMessage)
    requires m.prevLogIndex >= -1 && Precedes(log, m)
    requires Agreed(log, m.prevLogIndex + 1, m.entries) < |m.entries|
    ensures CutOff(log, m, Truncating(log, m.prevLogIndex, m.entries))
  {
    var start := m.prevLogIndex + 1;
    var c := Agreed(log, start, m.entries);
    var z := Truncating(log, m.prevLogIndex, m.entries);
    MergeLaws.AgreedFits(log, start, m.entries);
    Spliced(log, start, m.entries, c, z);
    forall j | 0 <= j < |m.entries|
      ensures start + j < |z| && z[start + j].term == m.entries[j].term
    {
      if j < c {
        AgreedAt(log, start, m.entries, j);
      }
    }
  }

  lemma Spliced(log: Log, start: nat, entries: Log, c: nat, z: Log)
    requires start + c <= |log| && c <= |entries| && z == log[..start + c] + entries[c..]
    ensures |z| == start + |entries| && z[..start] == log[..start]
    ensures forall j {:trigger entries[j]} ::
      0 <= j < |entries| ==> z[start + j] == if j < c then log[start + j] else entries[j]
  {
  }

  /** What a node learns with a success: of all commits that its log reaches, with one token for them and the client of
      the request, if there are more than it knew, and otherwise of none. */
  ghost predicate Learns(f: Fields, m: AppendEntriesMessage, g: Fields) {
    if m.leaderCommit <= f.commitIndex then
      && g.commitIndex == f.commitIndex && g.commitsReady == f.commitsReady
      && g.latestClient == f.latestClient && g.trackMessage == f.trackMessage
    else
      && g.commitIndex == Least(m.leaderCommit, |g.log| - 1) && g.latestClient == m.latestClient
      && g.commitsReady == f.commitsReady + [g.commitIndex - f.commitIndex]
  }

  /** After a success under either merge: the node has learned, and all is in its file. */
  lemma AcceptedLearns(rule: Rule, f: Fields, m: AppendEntriesMessage)
    requires m.prevLogIndex >= -1 && f.commitIndex >= -1 && f.currentTerm <= m.term && Precedes(f.log, m)
    ensures var g := OnAppendEntries(rule, f, m).0;
      && g.log == Merge(rule, f.log, m.prevLogIndex, m.entries)
      && Learns(f, m, g) && g.nextIndex == f.nextIndex && g.lastApplied == f.lastApplied
      && g.storage == Persisted(g.currentTerm, g.votedFor, g.log, g.commitIndex, g.lastApplied)
  {
  }

  /** Under Section 5.3 its log then holds everything sent. */
  lemma AcceptedMeans(f: Fields, m: AppendEntriesMessage)
    requires m.prevLogIndex >= -1 && f.commitIndex >= -1 && f.currentTerm <= m.term && Precedes(f.log, m)
    ensures var g := OnAppendEntries(Truncate, f, m).0;
      if HoldsAll(f.log, m) then g.log == f.log else CutOff(f.log, m, g.log)
  {
    var g := OnAppendEntries(Truncate, f, m).0;
    AcceptedLearns(Truncate, f, m);
    MergedMeans(f.log, m);
    assert g.log == Truncating(f.log, m.prevLogIndex, m.entries);
  }

  // ----- What a stale success is worth -----

  /** Over a run under Section 5.3: a success for a request of a lower term means that the follower's log is that of the
      sender, at a moment when it led that term, up to the end of the request. */
  lemma StaleSuccess(replicas: nat, states: seq<Cluster>, events: seq<Event>, k: nat, p: Packet) returns (a: nat)
    requires Run(Truncate, replicas, states, events) && k < |events| && events[k] == DeliverAppend(p)
    requires p.AppendRequest? && p.dest < |states[k].nodes| && p.append.prevLogIndex >= -1
    requires var f := states[k].nodes[p.dest].raft;
      f.commitIndex >= -1 && f.currentTerm > p.append.term && OnAppendEntries(Truncate, f, p.append).1.success
    ensures a <= k && Leads(states[a], p.from) && states[a].nodes[p.from].raft.currentTerm == p.append.term
    ensures var x, y := states[k].nodes[p.dest].raft.log, states[a].nodes[p.from].raft.log;
      var end := p.append.prevLogIndex + 1 + |p.append.entries|;
      end <= |x| && end <= |y| && x[..end] == y[..end]
  {
    var f, m := states[k].nodes[p.dest].raft, p.append;
    StaleAnswerIff(Truncate, f, m);
    assert Stepped(Truncate, states, events, k);
    var ws := Theorems.Explain(replicas, states, events);
    assert Simulation.Sim(states[k], ws[k]);
    Refinement.PacketOf(states[k], ws[k], p);
    Theorems.At(states, events, ws, k, k, p.dest);
    var j;
    a, j := Theorems.LedOnce(states, events, ws, k, m.term);
    SenderLed(replicas, states, events, k, p, a, j);
    StaleAgrees(ws[k], f.log, p);
  }

  /** A log that holds all of a request is its leader's up to the end of it. */
  lemma StaleAgrees(w: World, log: Log, p: Packet)
    requires Inv(w) && Simulation.PacketOk(w, p) && p.AppendRequest? && Known(w.leaders, log)
    requires Precedes(log, p.append) && HoldsAll(log, p.append)
    ensures var end := p.append.prevLogIndex + 1 + |p.append.entries|;
      && p.append.term in w.leaders
      && var y := w.leaders[p.append.term].log;
      0 <= end <= |log| && end <= |y| && log[..end] == y[..end]
  {
    var m := p.append;
    SentIsLeaders(w, p);
    var y := w.leaders[m.term].log;
    var end := m.prevLogIndex + 1 + |m.entries|;
    if end > 0 {
      LastIsThere(log, y, m);
      LeaderKnown(w, m.term);
      Safety.LogMatching(w, log, y, end - 1);
    }
  }

  lemma SentIsLeaders(w: World, p: Packet)
    requires Simulation.PacketOk(w, p) && p.AppendRequest? && LeadersOk(w) && AppendsOk(w)
    ensures var m := p.append;
      && m.term in w.leaders
      && var y := w.leaders[m.term].log;
      && -1 <= m.prevLogIndex && m.prevLogIndex + 1 + |m.entries| <= |y|
      && m.entries == y[m.prevLogIndex + 1..m.prevLogIndex + 1 + |m.entries|]
      && m.prevLogTerm == TermAt(y, m.prevLogIndex)
  {
    var m := p.append;
    assert AppendOk(w, Append(m.term, m.prevLogIndex, m.prevLogTerm, m.entries, m.leaderCommit));
  }

  lemma LeaderKnown(w: World, t: nat)
    requires LeadersOk(w) && t in w.leaders
    ensures Known(w.leaders, w.leaders[t].log)
  {
    assert LeaderOk(w, t, w.leaders[t]);
  }

  /** The last entry of the request, or the one in front of it. */
  lemma LastIsThere(x: Log, y: Log, m: AppendEntriesMessage)
    requires m.prevLogIndex >= -1 && Precedes(x, m) && HoldsAll(x, m) && m.prevLogIndex + |m.entries| >= 0
    requires m.prevLogIndex + 1 + |m.entries| <= |y|
    requires m.entries == y[m.prevLogIndex + 1..m.prevLogIndex + 1 + |m.entries|]
    requires m.prevLogTerm == TermAt(y, m.prevLogIndex)
    ensures var end := m.prevLogIndex + 1 + |m.entries|; end <= |x| && x[end - 1].term == y[end - 1].term
  {
    if m.entries != [] {
      var j := |m.entries| - 1;
      assert m.entries[j] == y[m.prevLogIndex + 1 + j];
    }
  }

  lemma SenderLed(replicas: nat, states: seq<Cluster>, events: seq<Event>, k: nat, p: Packet, a: nat, j: nat)
    requires Run(Truncate, replicas, states, events) && a <= k < |states| && p in states[k].net && p.AppendRequest?
    requires Leads(states[a], j) && states[a].nodes[j].raft.currentTerm == p.append.term
    ensures j == p.from
  {
    var hs := Chronicle.Record(Truncate, replicas, states, events);
    Chronicle.LedThen(states, events, hs, a, k, j);
    assert Elections.Told(states[k], hs[k]) && Elections.PacketFits(states[k], hs[k], p);
  }

  // ----- The sender's side -----

  /** A higher term in an answer, refusal or success: the node is a follower in exactly that term, its vote is free and
      on disk, and log, indices, table and tokens are as before. Only a leader heeds a refusal. */
  lemma HigherTermMeans(f: Fields, peer: nat, upper: int, reply: AppendEntriesResponse)
    requires peer < |f.nextIndex| && reply.term > f.currentTerm && (reply.success || f.state == Leader)
    ensures var (g, outcome) := OnAppendReply(f, peer, upper, reply);
      && g.currentTerm == reply.term && g.state == Follower && g.votedFor == -1 && Unmoved(f, g)
      && g.storage == Persisted(reply.term, -1, f.log, f.commitIndex, f.lastApplied)
      && outcome == if reply.success then Succeeded else Failed
  {
  }

  /** Any other answer leaves everything but `nextIndex` of the peer: behind the round after a success, one back after a
      refusal that a leader hears. A refusal that the node no longer hears as leader changes nothing. */
  lemma OwnTermMeans(f: Fields, peer: nat, upper: int, reply: AppendEntriesResponse)
    requires peer < |f.nextIndex| && (reply.term <= f.currentTerm || (f.state != Leader && !reply.success))
    ensures var (g, outcome) := OnAppendReply(f, peer, upper, reply);
      && g == f.(nextIndex := g.nextIndex) && |g.nextIndex| == |f.nextIndex|
      && (forall q :: 0 <= q < |f.nextIndex| && q != peer ==> g.nextIndex[q] == f.nextIndex[q])
      && (reply.success ==> g.nextIndex[peer] == upper + 1 && outcome == Succeeded)
      && (!reply.success && f.state == Leader ==> g.nextIndex[peer] == f.nextIndex[peer] - 1 && outcome == Retry)
      && (!reply.success && f.state != Leader ==> g == f && outcome == Failed)
  {
  }

  // ----- A restart -----

  /** The five stored values are back, the role and everything else are those of a new node, and one token announces
      what is committed and not applied. Of the log only what a leader has not written to its file can be missing. */
  lemma RestartMeans(node: Node)
    requires StorageOk(node.raft) && node.raft.replicas > 0
    ensures var f, y := node.raft, Restarted(node);
      var g := y.raft;
      && g.currentTerm == f.currentTerm && g.votedFor == f.votedFor
      && g.commitIndex == f.commitIndex && g.lastApplied == f.lastApplied
      && g.log <= f.log && (f.state != Leader ==> g.log == f.log) && StorageOk(g)
      && g.state == Follower && g.replicaId == f.replicaId && g.replicas == f.replicas
      && |g.nextIndex| == f.replicas && (forall j :: 0 <= j < f.replicas ==> g.nextIndex[j] == 0)
      && g.trackMessage == map[] && g.latestClient == []
      && g.commitsReady == (if f.commitIndex > f.lastApplied then [f.commitIndex - f.lastApplied] else [])
      && y.votes == {} && y.rounds == [] && y.waiting == {}
      && forall key :: key in y.store <==> key in node.store && node.store[key] != []
  {
  }

  // ----- Where terms come from -----

  /** Event `m` is the time-out of a node that was in the term before. */
  ghost predicate BeginsTerm(states: seq<Cluster>, events: seq<Event>, m: nat, t: nat)
    requires m < |events| && |states| == |events| + 1
  {
    events[m].Timeout? && events[m].i < |states[m].nodes| && t == states[m].nodes[events[m].i].raft.currentTerm + 1
  }

  /** The terms that time-outs have begun so far, and term 0. */
  function BegunTerms(states: seq<Cluster>, events: seq<Event>, k: nat): set<nat>
    requires k <= |events| && |states| == |events| + 1
  {
    if k == 0 then {0} else BegunTerms(states, events, k - 1) + NewTerm(states[k - 1], events[k - 1])
  }

  function NewTerm(s: Cluster, e: Event): set<nat> {
    if e.Timeout? && e.i < |s.nodes| then {s.nodes[e.i].raft.currentTerm + 1} else {}
  }

  lemma {:induction false} BegunBy(states: seq<Cluster>, events: seq<Event>, k: nat, t: nat)
    requires k <= |events| && |states| == |events| + 1 && t in BegunTerms(states, events, k)
    ensures t == 0
      || exists m {:trigger BeginsTerm(states, events, m, t)} :: 0 <= m < k && BeginsTerm(states, events, m, t)
    decreases k
  {
    if k > 0 {
      if t in NewTerm(states[k - 1], events[k - 1]) {
        assert BeginsTerm(states, events, k - 1, t);
      } else {
        BegunBy(states, events, k - 1, t);
      }
    }
  }

  /** The terms that a packet carries. */
  function TermsOf(p: Packet): set<nat> {
    match p
    case VoteRequest(_, _, m) => {m.term}
    case VoteReply(_, _, m, vote) => {m.term, vote.term}
    case AppendRequest(_, _, _, _, m) => {m.term}
    case AppendReply(_, _, _, _, m, reply) => {m.term, reply.term}
  }

  ghost predicate InTerms(f: Fields, ts: set<nat>) {
    f.currentTerm in ts && f.storage.currentTerm in ts
  }

  /** No node, file or packet knows another term than these. */
  ghost predicate OnlyTerms(s: Cluster, ts: set<nat>) {
    && (forall i {:trigger s.nodes[i]} :: 0 <= i < |s.nodes| ==> InTerms(s.nodes[i].raft, ts))
    && (forall p {:trigger p in s.net} :: p in s.net ==> TermsOf(p) <= ts)
  }

  lemma TermsKept(rule: Rule, s: Cluster, e: Event, z: Cluster, ts: set<nat>)
    requires Step(rule, s, e, z) && OnlyTerms(s, ts)
    ensures OnlyTerms(z, ts + NewTerm(s, e))
  {
    Effects.OthersRest(rule, s, e, z);
    SiteTerms(rule, s, e, z, ts);
    forall p | p in z.net
      ensures TermsOf(p) <= ts + NewTerm(s, e)
    {
      if p !in s.net {
        PacketTerms(rule, s, e, z, ts, p);
      }
    }
  }

  lemma SiteTerms(rule: Rule, s: Cluster, e: Event, z: Cluster, ts: set<nat>)
    requires Step(rule, s, e, z) && OnlyTerms(s, ts)
    ensures Site(e) < |z.nodes| == |s.nodes| && InTerms(z.nodes[Site(e)].raft, ts + NewTerm(s, e))
  {
    match e {
      case DeliverAppend(p) => AppendTerms(rule, s.nodes[p.dest].raft, p.append, ts);
      case DeliverVoteRequest(p) =>
        assert p in s.net;
        VoteTerms(s.nodes[p.dest].raft, p.request, ts);
      case DeliverVoteReply(p) =>
        assert p in s.net;
        CountTerms(s.nodes[p.dest], p.from, p.vote, ts);
      case _ => OwnTerms(rule, s, e, z, ts);
    }
  }

  lemma OwnTerms(rule: Rule, s: Cluster, e: Event, z: Cluster, ts: set<nat>)
    requires Step(rule, s, e, z) && OnlyTerms(s, ts)
    requires !e.DeliverAppend? && !e.DeliverVoteRequest? && !e.DeliverVoteReply?
    ensures Site(e) < |z.nodes| == |s.nodes| && InTerms(z.nodes[Site(e)].raft, ts + NewTerm(s, e))
  {
  }

  lemma VoteTerms(f: Fields, m: RequestVoteMessage, ts: set<nat>)
    requires InTerms(f, ts) && m.term in ts
    ensures InTerms(OnRequestVote(f, m).0, ts)
  {
  }

  lemma CountTerms(x: Node, from: nat, vote: RequestVoteResponse, ts: set<nat>)
    requires InTerms(x.raft, ts) && vote.term in ts
    ensures InTerms(CountVote(x, from, vote).raft, ts)
  {
  }

  lemma AppendTerms(rule: Rule, f: Fields, m: AppendEntriesMessage, ts: set<nat>)
    requires m.prevLogIndex >= -1 && f.commitIndex >= -1 && InTerms(f, ts) && m.term in ts
    ensures var (g, reply) := OnAppendEntries(rule, f, m); InTerms(g, ts) && reply.term in ts
  {
  }

  lemma PacketTerms(rule: Rule, s: Cluster, e: Event, z: Cluster, ts: set<nat>, p: Packet)
    requires Step(rule, s, e, z) && OnlyTerms(s, ts) && p in z.net && p !in s.net
    ensures TermsOf(p) <= ts + NewTerm(s, e)
  {
    if e.DeliverAppend? {
      AppendTerms(rule, s.nodes[e.p.dest].raft, e.p.append, ts);
    }
  }

  /** Over every run and under either merge: every node is in term 0 or in one that some time-out of the run began, and
      packets carry no others. Terms come from time-outs alone. */
  lemma {:induction false} TermsComeFromTimeouts(
    rule: Rule, replicas: nat, states: seq<Cluster>, events: seq<Event>, k: nat)
    requires Run(rule, replicas, states, events) && k < |states|
    ensures OnlyTerms(states[k], BegunTerms(states, events, k))
    decreases k
  {
    if k > 0 {
      TermsComeFromTimeouts(rule, replicas, states, events, k - 1);
      assert Stepped(rule, states, events, k - 1);
      TermsKept(rule, states[k - 1], events[k - 1], states[k], BegunTerms(states, events, k - 1));
    }
  }

  /** So for each node, whatever its term, there is such a time-out. */
  lemma TermWasBegun(rule: Rule, replicas: nat, states: seq<Cluster>, events: seq<Event>, k: nat, i: nat)
    returns (m: nat)
    requires Run(rule, replicas, states, events) && k < |states| && i < |states[k].nodes|
    requires states[k].nodes[i].raft.currentTerm > 0
    ensures m < k && events[m].Timeout? && events[m].i < |states[m].nodes|
    ensures states[k].nodes[i].raft.currentTerm == states[m].nodes[events[m].i].raft.currentTerm + 1
  {
    TermsComeFromTimeouts(rule, replicas, states, events, k);
    var t := states[k].nodes[i].raft.currentTerm;
    BegunBy(states, events, k, t);
    m :| 0 <= m < k && BeginsTerm(states, events, m, t);
  }
}
