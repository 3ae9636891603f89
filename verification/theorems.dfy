/** The promises of the protocol, over every run of the group under the rule of Section 5.3. */
module Theorems {
  import opened Consensus
  import opened Steps
  import Safety
  import opened Protocol
  import opened Cluster
  import opened Simulation
  import opened Refinement
  import opened Elections
  import Chronicle
  import Entries

  /** A run with the history of the protocol beside it. */
  ghost predicate Explained(states: seq<Cluster>, events: seq<Event>, ws: seq<World>) {
    && |ws| == |states| == |events| + 1 && ws[0].leaders == map[]
    && (forall k {:trigger Sim(states[k], ws[k])} :: 0 <= k < |states| ==> Sim(states[k], ws[k]))
    && (forall j, k {:trigger Grows(ws[j], ws[k])} :: 0 <= j <= k < |states| ==> Grows(ws[j], ws[k]))
    && (forall k {:trigger Marked(states[k], ws[k], events[k], states[k + 1], ws[k + 1])} ::
          0 <= k < |events| ==> Marked(states[k], ws[k], events[k], states[k + 1], ws[k + 1]))
  }

  /** What the history remembers of one step. */
  ghost predicate Marked(s: Cluster, w: World, e: Event, n: Cluster, z: World) {
    LogsLed(w, z, n) && (e.CommitProposal? ==> SucceededNow(s, z, e.i, e.round))
  }

  lemma Explain(replicas: nat, states: seq<Cluster>, events: seq<Event>) returns (ws: seq<World>)
    requires Run(Truncate, replicas, states, events)
    ensures Explained(states, events, ws)
  {
    var hs := Chronicle.Record(Truncate, replicas, states, events);
    ws := ExplainFrom(replicas, states, events, hs);
  }

  lemma {:induction false} ExplainFrom(replicas: nat, states: seq<Cluster>, events: seq<Event>, hs: seq<History>)
    returns (ws: seq<World>)
    requires Run(Truncate, replicas, states, events)
    requires |hs| >= |states|
    requires forall k {:trigger Told(states[k], hs[k])} :: 0 <= k < |states| ==> Told(states[k], hs[k])
    ensures Explained(states, events, ws)
    decreases |events|
  {
    var n := |events|;
    if n == 0 {
      var w := SimStart(replicas);
      ws := [w];
      assert Sim(states[0], ws[0]);
    } else {
      Chronicle.RunPrefix(Truncate, replicas, states, events, n - 1);
      forall k | 0 <= k < n
        ensures Told(states[..n][k], hs[k])
      {
        assert Told(states[k], hs[k]);
      }
      var front := ExplainFrom(replicas, states[..n], events[..n - 1], hs);
      assert Sim(states[..n][n - 1], front[n - 1]) && Told(states[n - 1], hs[n - 1]);
      assert Stepped(Truncate, states, events, n - 1);
      var w := ExplainStep(states[n - 1], front[n - 1], hs[n - 1], events[n - 1], states[n]);
      ws := front + [w];
      OneMore(states, events, front, w);
    }
  }

  lemma ExplainStep(s: Cluster, w: World, h: History, e: Event, z: Cluster) returns (v: World)
    requires Sim(s, w) && Told(s, h) && Step(Truncate, s, e, z)
    ensures Sim(z, v) && Grows(w, v) && Marked(s, w, e, z, v)
  {
    ReplyMatches(s, h, e);
    v := SimStep(s, w, e, z);
  }

  lemma ReplyMatches(s: Cluster, h: History, e: Event)
    requires Told(s, h) && (e.DeliverAppendReply? ==> e.p in s.net)
    ensures e.DeliverAppendReply? ==> RoundsMatch(s, e.p)
  {
    if e.DeliverAppendReply? && e.p.AppendReply? && Leads(s, e.p.dest) && e.p.round < |s.nodes[e.p.dest].rounds|
       && s.nodes[e.p.dest].rounds[e.p.round].term == e.p.append.term {
      Chronicle.ReplyOfRound(s, h, e.p);
    }
  }

  lemma OneMore(states: seq<Cluster>, events: seq<Event>, ws: seq<World>, w: World)
    requires |ws| == |events| > 0 && |states| == |events| + 1
    requires var n := |events|;
      && Explained(states[..n], events[..n - 1], ws) && Sim(states[n], w)
      && Grows(ws[n - 1], w) && Marked(states[n - 1], ws[n - 1], events[n - 1], states[n], w)
    ensures Explained(states, events, ws + [w])
  {
    var n, all := |events|, ws + [w];
    forall k | 0 <= k < |states|
      ensures Sim(states[k], all[k])
    {
      if k < n {
        assert Sim(states[..n][k], ws[k]);
      }
    }
    forall j, k | 0 <= j <= k < |states|
      ensures Grows(all[j], all[k])
    {
      if k < n {
        assert Grows(ws[j], ws[k]);
      } else if j < n {
        assert Grows(ws[j], ws[n - 1]);
        GrowsTransitive(ws[j], ws[n - 1], w);
      }
    }
    forall k | 0 <= k < |events|
      ensures Marked(states[k], all[k], events[k], states[k + 1], all[k + 1])
    {
      if k < n - 1 {
        assert Marked(states[..n][k], ws[k], events[..n - 1][k], states[..n][k + 1], ws[k + 1]);
      }
    }
  }

  /** What is known of node `i` at moment `a`, and that history only grew until `m`. */
  lemma At(states: seq<Cluster>, events: seq<Event>, ws: seq<World>, a: nat, m: nat, i: nat)
    requires Explained(states, events, ws) && a <= m < |states| && i < |states[a].nodes|
    ensures Grows(ws[a], ws[m])
    ensures i < |ws[a].replicas| == |states[a].nodes|
    ensures ws[a].replicas[i] == Core(states[a].nodes[i]) && NodeOk(ws[a], i, states[a].nodes[i])
    ensures ReplicaOk(ws[a], i, ws[a].replicas[i]) && CommitOk(ws[a], ws[a].replicas[i])
    ensures LeadersOk(ws[m]) && AcksOk(ws[m])
  {
    assert Grows(ws[a], ws[m]);
    assert Sim(states[a], ws[a]) && Sim(states[m], ws[m]);
    Unfold(states[a], ws[a], i);
  }

  /** Log Matching: logs of any two nodes, at any two moments, that agree on a term at an index agree up to it. */
  lemma RunLogMatching(replicas: nat, states: seq<Cluster>, events: seq<Event>, a: nat, b: nat, i: nat, j: nat, k: nat)
    requires Run(Truncate, replicas, states, events)
    requires a < |states| && b < |states| && i < |states[a].nodes| && j < |states[b].nodes|
    requires k < |states[a].nodes[i].raft.log| && k < |states[b].nodes[j].raft.log|
    requires states[a].nodes[i].raft.log[k].term == states[b].nodes[j].raft.log[k].term
    ensures states[a].nodes[i].raft.log[..k + 1] == states[b].nodes[j].raft.log[..k + 1]
  {
    var ws := Explain(replicas, states, events);
    var m := if a <= b then b else a;
    At(states, events, ws, a, m, i);
    At(states, events, ws, b, m, j);
    var x, y := states[a].nodes[i].raft.log, states[b].nodes[j].raft.log;
    KnownGrows(ws[a], ws[m], x);
    KnownGrows(ws[b], ws[m], y);
    Safety.LogMatching(ws[m], x, y, k);
  }

  /** Along a log the terms never decrease, and none is higher than the node's own. */
  lemma LogsSorted(replicas: nat, states: seq<Cluster>, events: seq<Event>, a: nat, i: nat)
    requires Run(Truncate, replicas, states, events)
    requires a < |states| && i < |states[a].nodes|
    ensures Entries.Sorted(states[a].nodes[i].raft.log)
    ensures Entries.TermsUpTo(states[a].nodes[i].raft.log, states[a].nodes[i].raft.currentTerm)
  {
    var ws := Explain(replicas, states, events);
    At(states, events, ws, a, a, i);
  }

  /** What a node has committed, seen in the history of a later moment. */
  lemma CommittedNow(states: seq<Cluster>, events: seq<Event>, ws: seq<World>, a: nat, m: nat, i: nat)
    requires Explained(states, events, ws) && a <= m < |states| && i < |states[a].nodes|
    ensures var f := states[a].nodes[i].raft;
      && -1 <= f.commitIndex < |f.log| && Backed(ws[m], f.currentTerm, f.log, f.commitIndex)
      && LeadersOk(ws[m]) && AcksOk(ws[m])
  {
    At(states, events, ws, a, m, i);
    var f := states[a].nodes[i].raft;
    assert f.storage.log[..f.commitIndex + 1] == f.log[..f.commitIndex + 1];
    BackedGrows(ws[a], ws[m], f.currentTerm, f.storage.log, f.currentTerm, f.log, f.commitIndex);
  }

  /** The commit index always lies inside the log, and inside the part of it that is on disk. */
  lemma CommitOnDisk(replicas: nat, states: seq<Cluster>, events: seq<Event>, a: nat, i: nat)
    requires Run(Truncate, replicas, states, events)
    requires a < |states| && i < |states[a].nodes|
    ensures var f := states[a].nodes[i].raft; -1 <= f.commitIndex < |f.storage.log| <= |f.log|
  {
    var ws := Explain(replicas, states, events);
    At(states, events, ws, a, a, i);
  }

  /** The commit index never falls, not even where a follower clamps it to its own log. */
  lemma CommitRises(replicas: nat, states: seq<Cluster>, events: seq<Event>, k: nat, p: Packet)
    requires Run(Truncate, replicas, states, events) && k < |events| && events[k] == DeliverAppend(p)
    ensures p.dest < |states[k].nodes| == |states[k + 1].nodes|
    ensures states[k].nodes[p.dest].raft.commitIndex <= states[k + 1].nodes[p.dest].raft.commitIndex
  {
    var ws := Explain(replicas, states, events);
    assert Stepped(Truncate, states, events, k);
    assert Sim(states[k], ws[k]);
    Unfold(states[k], ws[k], p.dest);
    PacketOf(states[k], ws[k], p);
    var f := states[k].nodes[p.dest].raft;
    if f.currentTerm <= p.append.term {
      var z := Answer(ws[k], p.dest, f, p.append);
    }
  }

  /** State Machine Safety: what any two nodes have committed at an index, at any two moments, is the same. */
  lemma StateMachineSafety(
    replicas: nat, states: seq<Cluster>, events: seq<Event>, a: nat, b: nat, i: nat, j: nat, k: nat)
    requires Run(Truncate, replicas, states, events)
    requires a < |states| && b < |states| && i < |states[a].nodes| && j < |states[b].nodes|
    requires k <= states[a].nodes[i].raft.commitIndex && k <= states[b].nodes[j].raft.commitIndex
    ensures k < |states[a].nodes[i].raft.log| && k < |states[b].nodes[j].raft.log|
    ensures states[a].nodes[i].raft.log[..k + 1] == states[b].nodes[j].raft.log[..k + 1]
  {
    var ws := Explain(replicas, states, events);
    var m := if a <= b then b else a;
    CommittedNow(states, events, ws, a, m, i);
    CommittedNow(states, events, ws, b, m, j);
    var f, g := states[a].nodes[i].raft, states[b].nodes[j].raft;
    Safety.BackedAgree(ws[m], f.currentTerm, f.log, f.commitIndex, g.currentTerm, g.log, g.commitIndex, k);
  }

  /** Leader Completeness: a leader of the same or a later term has everything committed up to then. */
  lemma CompleteLeader(replicas: nat, states: seq<Cluster>, events: seq<Event>, a: nat, b: nat, i: nat, j: nat)
    requires Run(Truncate, replicas, states, events)
    requires a < |states| && b < |states| && i < |states[a].nodes| && Leads(states[b], j)
    requires states[a].nodes[i].raft.currentTerm <= states[b].nodes[j].raft.currentTerm
    requires a <= b || states[a].nodes[i].raft.currentTerm < states[b].nodes[j].raft.currentTerm
    ensures var f, g := states[a].nodes[i].raft, states[b].nodes[j].raft;
      && -1 <= f.commitIndex < |f.log| && f.commitIndex < |g.log|
      && f.log[..f.commitIndex + 1] == g.log[..f.commitIndex + 1]
  {
    var ws := Explain(replicas, states, events);
    var m := if a <= b then b else a;
    var f, g := states[a].nodes[i].raft, states[b].nodes[j].raft;
    CommittedNow(states, events, ws, a, m, i);
    At(states, events, ws, b, m, j);
    if f.commitIndex >= 0 {
      if a <= b {
        Safety.BackedInLeader(ws[m], f.currentTerm, f.log, f.commitIndex, g.currentTerm);
      } else {
        At(states, events, ws, b, b, j);
        BackedInEarlierLeader(ws[b], ws[m], f.currentTerm, f.log, f.commitIndex, g.currentTerm);
      }
    }
  }

  /** The same for a leader of a higher term, seen before the entry was committed. */
  lemma BackedInEarlierLeader(w: World, z: World, bound: nat, log: Entries.Log, c: nat, t: nat)
    requires Grows(w, z) && LeadersOk(w) && LeadersOk(z) && AcksOk(z)
    requires Backed(z, bound, log, c) && c < |log| && bound < t && t in w.leaders
    ensures c < |w.leaders[t].log| && log[..c + 1] == w.leaders[t].log[..c + 1]
  {
    var t0: nat, k: nat :| BackedBy(z, bound, log, c, t0, k);
    Safety.LeaderCompleteness(z, t0, k, t);
    InOldLog(w, z, t, t0, k);
    Entries.ShorterPrefix(w.leaders[t].log, z.leaders[t0].log, c + 1, k + 1);
  }

  /** A leader had the entries in question when it was elected, not only later. */
  lemma InOldLog(w: World, z: World, t: nat, t0: nat, k: nat)
    requires Grows(w, z) && t in w.leaders && Later(z, t, t0, k) && LeadersOk(w)
    ensures k < |w.leaders[t].log| && w.leaders[t].log[..k + 1] == z.leaders[t0].log[..k + 1]
  {
    assert LeaderOk(w, t, w.leaders[t]);
    assert LeaderGrows(w.leaders[t], z.leaders[t]);
    assert w.leaders[t].log[..k + 1] == z.leaders[t].log[..k + 1];
  }

  // ----- Where a log comes from -----

  /** At some moment the leader of the term really had what the history keeps as its log. */
  lemma {:induction false} LedOnce(states: seq<Cluster>, events: seq<Event>, ws: seq<World>, k: nat, t: nat)
    returns (a: nat, j: nat)
    requires Explained(states, events, ws) && k < |states| && t in ws[k].leaders
    ensures a <= k && Leads(states[a], j) && states[a].nodes[j].raft.currentTerm == t
    ensures states[a].nodes[j].raft.log == ws[k].leaders[t].log
    decreases k
  {
    j := ws[k].leaders[t].id;
    if Led(states[k], t, ws[k].leaders[t]) {
      a := k;
      At(states, events, ws, k, k, j);
    } else {
      var m := k - 1;
      assert Marked(states[m], ws[m], events[m], states[m + 1], ws[m + 1]);
      a, j := LedOnce(states, events, ws, m, t);
    }
  }

  /** Every log is, at any moment, the beginning of a log that the leader of its last term has had by then. */
  lemma LogOrigin(replicas: nat, states: seq<Cluster>, events: seq<Event>, k: nat, i: nat) returns (a: nat, j: nat)
    requires Run(Truncate, replicas, states, events) && k < |states| && i < |states[k].nodes|
    requires states[k].nodes[i].raft.log != []
    ensures a <= k && Leads(states[a], j)
    ensures states[a].nodes[j].raft.currentTerm == Entries.LastTerm(states[k].nodes[i].raft.log)
    ensures states[k].nodes[i].raft.log <= states[a].nodes[j].raft.log
  {
    var ws := Explain(replicas, states, events);
    At(states, events, ws, k, k, i);
    var log := states[k].nodes[i].raft.log;
    Safety.PrefixOfLeader(ws[k], log, Entries.LastTerm(log));
    a, j := LedOnce(states, events, ws, k, Entries.LastTerm(log));
  }
}
