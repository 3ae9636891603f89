/** What an acceptance and a commit leave in the logs and files of the group, over every run. */
module Durability {
  import opened Consensus
  import Acceptance
  import opened Protocol
  import opened Cluster
  import opened Simulation
  import opened Theorems
  import Entries
  import Merging
  import Steps
  import Safety
  import Refinement
  import Chronicle

  // ----- Committed entries stay on a majority of disks -----

  /** Node `v` would still have `log[..c + 1]` after a crash. */
  ghost predicate OnDisk(s: Cluster, v: nat, log: Entries.Log, c: int) {
    && v < |s.nodes| && -1 <= c < |log|
    && c < |s.nodes[v].raft.storage.log|
    && s.nodes[v].raft.storage.log[..c + 1] == log[..c + 1]
  }

  lemma AckOnDisk(w: World, v: nat, log: Entries.Log, c: nat, t: nat, k: nat)
    requires LeadersOk(w) && AcksOk(w) && Committed(w, t, k) && AckedUpTo(w, v, t, k)
    requires c <= k && Holds(w, log, t, c)
    ensures v < |w.replicas| && c < |w.replicas[v].disk| && w.replicas[v].disk[..c + 1] == log[..c + 1]
  {
    var a :| a in w.acks && a.replica == v && a.term == t && a.upto >= k;
    assert AckOk(w, a);
    Safety.AllLaterLead(w, t, k, w.replicas[v].term + 1);
    assert Holds(w, w.replicas[v].disk, t, k);
    Entries.ShorterPrefix(w.replicas[v].disk, w.leaders[t].log, c + 1, k + 1);
  }

  /** Whatever some node had committed at moment `a` is in the files of a majority at every moment from then on.
      So the commit index, which only counts successful proposals, never passes what a quorum has stored. */
  lemma CommittedIsDurable(replicas: nat, states: seq<Cluster>, events: seq<Event>, a: nat, m: nat, i: nat)
    returns (q: set<nat>)
    requires Run(Truncate, replicas, states, events)
    requires a <= m < |states| && i < |states[a].nodes|
    ensures var f := states[a].nodes[i].raft;
      f.commitIndex >= 0 ==> Majority(q, replicas) && forall v :: v in q ==> OnDisk(states[m], v, f.log, f.commitIndex)
  {
    var ws := Explain(replicas, states, events);
    CommittedNow(states, events, ws, a, m, i);
    var w, f := ws[m], states[a].nodes[i].raft;
    Chronicle.GroupSize(Truncate, replicas, states, events, m);
    assert Sim(states[m], w);
    q := {};
    if f.commitIndex >= 0 {
      var t: nat, k: nat :| BackedBy(w, f.currentTerm, f.log, f.commitIndex, t, k);
      q :| QuorumAcked(w, t, k, q);
      forall v | v in q
        ensures OnDisk(states[m], v, f.log, f.commitIndex)
      {
        assert AckedUpTo(w, v, t, k);
        AckOnDisk(w, v, f.log, f.commitIndex, t, k);
        assert w.replicas[v] == Core(states[m].nodes[v]);
      }
    }
  }

  /** A write that was reported as successful is in the files of a majority at every later moment,
      even while the commit index has not reached it yet. */
  lemma SuccessfulWriteIsDurable(
    replicas: nat, states: seq<Cluster>, events: seq<Event>, k: nat, m: nat, i: nat, round: nat)
    returns (q: set<nat>)
    requires Run(Truncate, replicas, states, events)
    requires k < m < |states| && events[k] == CommitProposal(i, round)
    requires i < |states[k].nodes| && round < |states[k].nodes[i].rounds|
    ensures Majority(q, replicas)
    ensures forall v :: v in q ==>
      OnDisk(states[m], v, states[k].nodes[i].raft.log, states[k].nodes[i].rounds[round].index)
  {
    var ws := Explain(replicas, states, events);
    var w, f, index := ws[m], states[k].nodes[i].raft, states[k].nodes[i].rounds[round].index;
    var t := f.currentTerm;
    assert Stepped(Truncate, states, events, k);
    ProposalHeld(states, events, ws, k, m, i, round);
    Chronicle.GroupSize(Truncate, replicas, states, events, m);
    assert Sim(states[m], w);
    q :| QuorumAcked(w, t, index, q);
    forall v | v in q
      ensures OnDisk(states[m], v, f.log, index)
    {
      assert AckedUpTo(w, v, t, index);
      AckOnDisk(w, v, f.log, index, t, index);
      assert w.replicas[v] == Core(states[m].nodes[v]);
    }
  }

  /** The history of a later moment knows that a quorum stored the proposal. */
  lemma ProposalHeld(states: seq<Cluster>, events: seq<Event>, ws: seq<World>, k: nat, m: nat, i: nat, round: nat)
    requires Explained(states, events, ws)
    requires k < m < |states| && events[k] == CommitProposal(i, round)
    requires Current(states[k], i, round)
    ensures var f := states[k].nodes[i].raft; var index := states[k].nodes[i].rounds[round].index;
      && index >= 0 && Committed(ws[m], f.currentTerm, index) && Holds(ws[m], f.log, f.currentTerm, index)
      && LeadersOk(ws[m]) && AcksOk(ws[m])
  {
    var f := states[k].nodes[i].raft;
    assert Marked(states[k], ws[k], events[k], states[k + 1], ws[k + 1]);
    At(states, events, ws, k, m, i);
    assert Steps.Grows(ws[k + 1], ws[m]);
    Steps.CommittedGrows(ws[k + 1], ws[m], f.currentTerm, states[k].nodes[i].rounds[round].index);
    Refinement.LeadsItsTerm(ws[k], i, states[k].nodes[i]);
    assert RoundOk(ws[k], i, f.currentTerm, states[k].nodes[i].rounds[round]);
    assert Steps.LeaderGrows(ws[k].leaders[f.currentTerm], ws[m].leaders[f.currentTerm]);
  }

  /** Every leader of a later term, at any moment, has a write that was ever reported as successful. */
  lemma LaterLeadersHaveIt(
    replicas: nat, states: seq<Cluster>, events: seq<Event>, k: nat, i: nat, round: nat, b: nat, j: nat)
    requires Run(Truncate, replicas, states, events)
    requires k < |events| && events[k] == CommitProposal(i, round)
    requires i < |states[k].nodes| && round < |states[k].nodes[i].rounds|
    requires b < |states| && Leads(states[b], j)
    requires states[b].nodes[j].raft.currentTerm > states[k].nodes[i].raft.currentTerm
    ensures var x, l := states[k].nodes[i].raft.log, states[b].nodes[j].raft.log;
      var index := states[k].nodes[i].rounds[round].index;
      0 <= index < |x| && index < |l| && x[..index + 1] == l[..index + 1]
  {
    var ws := Explain(replicas, states, events);
    var m := if b <= k then k + 1 else b;
    var f, u := states[k].nodes[i].raft, states[b].nodes[j].raft.currentTerm;
    var index := states[k].nodes[i].rounds[round].index;
    assert Stepped(Truncate, states, events, k);
    ProposalHeld(states, events, ws, k, m, i, round);
    At(states, events, ws, b, m, j);
    At(states, events, ws, b, b, j);
    Safety.LeaderCompleteness(ws[m], f.currentTerm, index, u);
    InOldLog(ws[b], ws[m], u, f.currentTerm, index);
  }

  // ----- Prefix after accept -----

  lemma AcceptedLog(w: World, v: nat, f: Fields, m: AppendEntriesMessage)
    requires Inv(w) && v < |w.replicas| && w.replicas[v] == CoreOf(f)
    requires m.prevLogIndex >= -1 && f.commitIndex >= -1 && f.currentTerm <= m.term
    requires m.term in w.leaders
    requires Append(m.term, m.prevLogIndex, m.prevLogTerm, m.entries, m.leaderCommit) in w.appends
    requires OnAppendEntries(Truncate, f, m).1.success
    ensures var g := OnAppendEntries(Truncate, f, m).0;
      && g.log <= w.leaders[m.term].log && |g.log| > m.prevLogIndex + |m.entries|
  {
    var a := Append(m.term, m.prevLogIndex, m.prevLogTerm, m.entries, m.leaderCommit);
    assert ReplicaOk(w, v, w.replicas[v]);
    assert AppendOk(w, a);
    Acceptance.AcceptedPrefix(w, f.log, a);
  }

  /** After any accepted request of term `t` the follower's whole log, and so everything up to the commit index it
      clamps to its own length, is a prefix of the log the leader of `t` has at any later moment;
      of the leader's log at an earlier moment it is a prefix or an extension. */
  lemma PrefixAfterAccept(replicas: nat, states: seq<Cluster>, events: seq<Event>, k: nat, p: Packet, b: nat, j: nat)
    requires Run(Truncate, replicas, states, events)
    requires k < |events| && events[k] == DeliverAppend(p) && p.AppendRequest? && p.dest < |states[k].nodes|
    requires states[k].nodes[p.dest].raft.currentTerm <= p.append.term
    requires p.append.prevLogIndex >= -1
    requires Merging.Matches(states[k].nodes[p.dest].raft.log, p.append.prevLogIndex, p.append.prevLogTerm)
    requires b < |states| && Leads(states[b], j) && states[b].nodes[j].raft.currentTerm == p.append.term
    ensures p.dest < |states[k + 1].nodes|
    ensures var x, l := states[k + 1].nodes[p.dest].raft.log, states[b].nodes[j].raft.log;
      && (k < b ==> x <= l)
      && (b <= k ==> x <= l || l <= x)
      && |x| > p.append.prevLogIndex + |p.append.entries|
      && -1 <= states[k + 1].nodes[p.dest].raft.commitIndex < |x|
  {
    var ws := Explain(replicas, states, events);
    AcceptedThen(replicas, states, events, ws, k, p);
    var m := if k <= b then b else k;
    LeaderThen(states, events, ws, k, b, m, p.append.term, j);
    CommitOnDisk(replicas, states, events, k + 1, p.dest);
    var x, l := states[k + 1].nodes[p.dest].raft.log, states[b].nodes[j].raft.log;
    if b <= k {
      OneExtends(x, l, ws[m].leaders[p.append.term].log);
    }
  }

  /** The follower's log after the acceptance, in the history of that moment. */
  lemma AcceptedThen(replicas: nat, states: seq<Cluster>, events: seq<Event>, ws: seq<World>, k: nat, p: Packet)
    requires Run(Truncate, replicas, states, events) && Explained(states, events, ws)
    requires k < |events| && events[k] == DeliverAppend(p) && p.AppendRequest? && p.dest < |states[k].nodes|
    requires states[k].nodes[p.dest].raft.currentTerm <= p.append.term
    requires p.append.prevLogIndex >= -1
    requires Merging.Matches(states[k].nodes[p.dest].raft.log, p.append.prevLogIndex, p.append.prevLogTerm)
    ensures p.dest < |states[k + 1].nodes| && p.append.term in ws[k].leaders
    ensures var x := states[k + 1].nodes[p.dest].raft.log;
      x <= ws[k].leaders[p.append.term].log && |x| > p.append.prevLogIndex + |p.append.entries|
  {
    assert Stepped(Truncate, states, events, k);
    At(states, events, ws, k, k, p.dest);
    assert Sim(states[k], ws[k]);
    Refinement.PacketOf(states[k], ws[k], p);
    AcceptedLog(ws[k], p.dest, states[k].nodes[p.dest].raft, p.append);
  }

  /** A leader of the term at moment `b`, and the term's log at moment `k`, in the history of a later moment. */
  lemma LeaderThen(
    states: seq<Cluster>, events: seq<Event>, ws: seq<World>, k: nat, b: nat, m: nat, t: nat, j: nat)
    requires Explained(states, events, ws) && k <= m < |states| && b <= m && (m == k || m == b)
    requires t in ws[k].leaders && Leads(states[b], j) && states[b].nodes[j].raft.currentTerm == t
    ensures t in ws[m].leaders && ws[k].leaders[t].log <= ws[m].leaders[t].log
    ensures states[b].nodes[j].raft.log <= ws[m].leaders[t].log
    ensures m == b ==> states[b].nodes[j].raft.log == ws[m].leaders[t].log
  {
    At(states, events, ws, b, m, j);
    assert Steps.Grows(ws[k], ws[m]);
    assert Steps.LeaderGrows(ws[k].leaders[t], ws[m].leaders[t]);
    assert Steps.LeaderGrows(ws[b].leaders[t], ws[m].leaders[t]);
  }

  lemma OneExtends(x: Entries.Log, y: Entries.Log, z: Entries.Log)
    requires x <= z && y <= z
    ensures x <= y || y <= x
  {
    if |x| <= |y| {
      assert x == z[..|x|] && y == z[..|y|];
      assert y[..|x|] == z[..|x|];
    } else {
      assert x[..|y|] == z[..|y|];
    }
  }
}
