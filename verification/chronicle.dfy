/** Elections over whole runs, under either merge. */
module Chronicle {
  import Consensus
  import Entries
  import opened Protocol
  import opened Cluster
  import opened Elections

  /** A run with its history beside it. */
  ghost predicate Recorded(states: seq<Cluster>, events: seq<Event>, hs: seq<History>) {
    && |hs| == |states| == |events| + 1
    && (forall k {:trigger Told(states[k], hs[k])} :: 0 <= k < |states| ==> Told(states[k], hs[k]))
    && (forall j, k {:trigger Grown(hs[j], hs[k])} :: 0 <= j <= k < |states| ==> Grown(hs[j], hs[k]))
    && (forall k {:trigger Noted(states[k], events[k], hs[k], hs[k + 1])} ::
          0 <= k < |events| ==> Noted(states[k], events[k], hs[k], hs[k + 1]))
  }

  ghost predicate Noted(s: Cluster, e: Event, h: History, g: History) {
    e.StartRound? ==> Begun(s, h, g, e.i)
  }

  lemma {:induction false} Record(rule: Rule, replicas: nat, states: seq<Cluster>, events: seq<Event>)
    returns (hs: seq<History>)
    requires Run(rule, replicas, states, events)
    ensures Recorded(states, events, hs)
    decreases |events|
  {
    var n := |events|;
    if n == 0 {
      hs := [History({}, map[])];
      ToldAtStart(replicas);
      assert Told(states[0], hs[0]) && Grown(hs[0], hs[0]);
    } else {
      assert Stepped(rule, states, events, n - 1);
      RunPrefix(rule, replicas, states, events, n - 1);
      var front := Record(rule, replicas, states[..n], events[..n - 1]);
      assert Told(states[..n][n - 1], front[n - 1]);
      var g := Goes(rule, states[n - 1], front[n - 1], events[n - 1], states[n]);
      hs := front + [g];
      OneMoreState(states, events, front, g);
    }
  }

  lemma RunPrefix(rule: Rule, replicas: nat, states: seq<Cluster>, events: seq<Event>, n: nat)
    requires Run(rule, replicas, states, events) && n <= |events|
    ensures Run(rule, replicas, states[..n + 1], events[..n])
  {
    var x, y := states[..n + 1], events[..n];
    forall k | 0 <= k < n
      ensures Stepped(rule, x, y, k)
    {
      assert Stepped(rule, states, events, k);
    }
  }

  lemma OneMoreState(states: seq<Cluster>, events: seq<Event>, hs: seq<History>, g: History)
    requires |hs| == |events| > 0 && |states| == |events| + 1
    requires var n := |events|;
      && Recorded(states[..n], events[..n - 1], hs) && Told(states[n], g)
      && Grown(hs[n - 1], g) && Noted(states[n - 1], events[n - 1], hs[n - 1], g)
    ensures Recorded(states, events, hs + [g])
  {
    var n, all := |events|, hs + [g];
    forall k | 0 <= k < |states|
      ensures Told(states[k], all[k])
    {
      if k < n {
        assert Told(states[..n][k], hs[k]);
      }
    }
    forall j, k | 0 <= j <= k < |states|
      ensures Grown(all[j], all[k])
    {
      if k < n {
        assert Grown(hs[j], hs[k]);
      } else if j < n {
        assert Grown(hs[j], hs[n - 1]);
        GrownTransitive(hs[j], hs[n - 1], g);
      }
    }
    forall k | 0 <= k < |events|
      ensures Noted(states[k], events[k], all[k], all[k + 1])
    {
      if k < n - 1 {
        assert Noted(states[..n][k], events[..n - 1][k], hs[k], hs[k + 1]);
      }
    }
  }

  /** The size of the group never changes. */
  lemma {:induction false} GroupSize(rule: Rule, replicas: nat, states: seq<Cluster>, events: seq<Event>, k: nat)
    requires Run(rule, replicas, states, events) && k < |states|
    ensures |states[k].nodes| == replicas
    decreases k
  {
    if k > 0 {
      GroupSize(rule, replicas, states, events, k - 1);
      assert Stepped(rule, states, events, k - 1);
      SameSize(rule, states[k - 1], events[k - 1], states[k]);
    }
  }

  lemma SameSize(rule: Rule, s: Cluster, e: Event, z: Cluster)
    requires Step(rule, s, e, z)
    ensures |z.nodes| == |s.nodes|
  {
  }

  /** A leader of moment `a`, seen in the history of a later moment. */
  lemma LedThen(states: seq<Cluster>, events: seq<Event>, hs: seq<History>, a: nat, m: nat, i: nat)
    requires Recorded(states, events, hs) && a <= m < |states| && Leads(states[a], i)
    ensures var f := states[a].nodes[i].raft; var t := f.currentTerm;
      && t in hs[a].reigns && t in hs[m].reigns && hs[m].reigns[t].id == i
      && hs[a].reigns[t].log == f.log && f.log <= hs[m].reigns[t].log
      && hs[m].reigns[t].voters == hs[a].reigns[t].voters && ReignFits(states[a], hs[a], t)
  {
    assert Told(states[a], hs[a]) && Grown(hs[a], hs[m]);
    assert NodeFits(states[a], hs[a], i);
    var t := states[a].nodes[i].raft.currentTerm;
    assert t in hs[m].reigns && ReignFits(states[a], hs[a], t);
  }

  /** Election Safety: over a whole run, at most one node ever leads a term. */
  lemma ElectionSafety(
    rule: Rule, replicas: nat, states: seq<Cluster>, events: seq<Event>, a: nat, b: nat, i: nat, j: nat)
    requires Run(rule, replicas, states, events)
    requires a < |states| && b < |states| && Leads(states[a], i) && Leads(states[b], j)
    requires states[a].nodes[i].raft.currentTerm == states[b].nodes[j].raft.currentTerm
    ensures i == j
  {
    var hs := Record(rule, replicas, states, events);
    var m := if a <= b then b else a;
    LedThen(states, events, hs, a, m, i);
    LedThen(states, events, hs, b, m, j);
  }

  /** Between two moments at which a term is led, its leader's log has only grown. */
  lemma LeaderAppendOnly(
    rule: Rule, replicas: nat, states: seq<Cluster>, events: seq<Event>, a: nat, b: nat, i: nat, j: nat)
    requires Run(rule, replicas, states, events)
    requires a <= b < |states| && Leads(states[a], i) && Leads(states[b], j)
    requires states[a].nodes[i].raft.currentTerm == states[b].nodes[j].raft.currentTerm
    ensures states[a].nodes[i].raft.log <= states[b].nodes[j].raft.log
  {
    var hs := Record(rule, replicas, states, events);
    LedThen(states, events, hs, a, b, i);
    LedThen(states, events, hs, b, b, j);
  }

  /** Confirmed reads: if a read is served by the leader of term `t`, nobody had become leader of a
      higher term when the round of heartbeats for that read began. */
  lemma ConfirmedRead(
    rule: Rule, replicas: nat, states: seq<Cluster>, events: seq<Event>, a: nat, b: nat, i: nat, m: nat, j: nat)
    requires Run(rule, replicas, states, events)
    requires m <= a < b < |events| && events[a] == StartRound(i, ReadCheck)
    requires i < |states[a].nodes| && events[b] == ServeRead(i, |states[a].nodes[i].rounds|)
    requires i < |states[b].nodes| && states[a].nodes[i].raft.currentTerm == states[b].nodes[i].raft.currentTerm
    requires Leads(states[m], j)
    ensures states[m].nodes[j].raft.currentTerm <= states[a].nodes[i].raft.currentTerm
  {
    var hs := Record(rule, replicas, states, events);
    var t, u := states[a].nodes[i].raft.currentTerm, states[m].nodes[j].raft.currentTerm;
    var r := |states[a].nodes[i].rounds|;
    assert Stepped(rule, states, events, b);
    GroupSize(rule, replicas, states, events, b);
    GroupSize(rule, replicas, states, events, m);
    LedThen(states, events, hs, m, a, j);
    LedThen(states, events, hs, m, b, j);
    var known := RememberedTerms(states, events, hs, a, b, i);
    var ok := RoundBehind(states, events, hs, b, i, r, replicas);
    if u > t {
      assert u in known;
      var v := Consensus.MajoritiesMeet(ok, hs[b].reigns[u].voters, replicas);
      assert false;
    }
  }

  /** The round of moment `a` still remembers at moment `b` who led when it began. */
  lemma RememberedTerms(states: seq<Cluster>, events: seq<Event>, hs: seq<History>, a: nat, b: nat, i: nat)
    returns (known: set<nat>)
    requires Recorded(states, events, hs) && a < b < |events| && events[a].StartRound? && events[a].i == i
    requires i < |states[a].nodes|
    ensures var t, r := states[a].nodes[i].raft.currentTerm, |states[a].nodes[i].rounds|;
      && t in hs[b].reigns && r < |hs[b].reigns[t].rounds| && hs[b].reigns[t].rounds[r].leaders == known
    ensures known == hs[a].reigns.Keys
  {
    var t := states[a].nodes[i].raft.currentTerm;
    assert Noted(states[a], events[a], hs[a], hs[a + 1]) && Grown(hs[a + 1], hs[b]);
    assert t in hs[b].reigns;
    known := hs[a].reigns.Keys;
  }

  /** A quorum of successes: none of those nodes elected a higher leader the round knew of. */
  lemma RoundBehind(
    states: seq<Cluster>, events: seq<Event>, hs: seq<History>, b: nat, i: nat, r: nat, n: nat) returns (ok: set<nat>)
    requires Recorded(states, events, hs) && b < |states| && |states[b].nodes| == n
    requires Current(states[b], i, r) && QuorumReached(states[b], i, r)
    ensures Consensus.Majority(ok, n)
    ensures forall v :: v in ok ==> NotAhead(hs[b], v, states[b].nodes[i].raft.currentTerm, r)
  {
    var node := states[b].nodes[i];
    assert Told(states[b], hs[b]);
    assert NodeFits(states[b], hs[b], i);
    assert RoundTold(n, hs[b], i, node.raft.currentTerm, r, node.rounds[r]);
    ok := node.rounds[r].ok;
  }

  // ----- Sending -----

  /** A leader that retries a refused request of its own term never reaches below index 0 or past its log,
      and what it sent is exactly its log from there up to the tail of the round. */
  lemma RetryInBounds(rule: Rule, replicas: nat, states: seq<Cluster>, events: seq<Event>, k: nat, p: Packet)
    requires Run(rule, replicas, states, events) && k < |states|
    requires p in states[k].net && p.AppendReply? && Leads(states[k], p.dest)
    requires p.append.term == states[k].nodes[p.dest].raft.currentTerm
    requires p.from < |states[k].nodes[p.dest].raft.nextIndex|
    requires OnAppendReply(states[k].nodes[p.dest].raft, p.from, p.upper, p.reply).1 == Retry
    ensures var log, m := states[k].nodes[p.dest].raft.log, p.append;
      && 0 <= m.prevLogIndex < |log| && 0 <= p.upper < |log|
      && m.prevLogTerm == log[m.prevLogIndex].term
      && m.entries == Slice(log, m.prevLogIndex + 1, p.upper)
  {
    var hs := Record(rule, replicas, states, events);
    assert Told(states[k], hs[k]);
    OwnRequest(states[k], hs[k], p);
    Refused(states[k].nodes[p.dest].raft, p);
  }

  /** A leader finds what it sent in its own log. */
  lemma OwnRequest(s: Cluster, h: History, p: Packet)
    requires Told(s, h) && p in s.net && p.AppendReply? && Leads(s, p.dest)
    requires p.append.term == s.nodes[p.dest].raft.currentTerm
    ensures var log, m := s.nodes[p.dest].raft.log, p.append;
      && -1 <= m.prevLogIndex < |log| && 0 <= p.upper < |log|
      && m.prevLogTerm == Entries.TermAt(log, m.prevLogIndex)
      && m.entries == Slice(log, m.prevLogIndex + 1, p.upper)
      && (!p.reply.success && p.reply.term <= m.term ==> m.prevLogIndex >= 0)
  {
    ReplyTold(s, h, p);
    ReignTold(s, h, p.dest);
  }

  lemma Refused(f: Fields, p: Packet)
    requires p.AppendReply? && p.from < |f.nextIndex| && OnAppendReply(f, p.from, p.upper, p.reply).1 == Retry
    ensures !p.reply.success && p.reply.term <= f.currentTerm
  {
  }

  /** A reply counts for a round that replicates as far as its request did. */
  lemma ReplyOfRound(s: Cluster, h: History, p: Packet)
    requires Told(s, h) && p in s.net && p.AppendReply? && Leads(s, p.dest)
    requires p.round < |s.nodes[p.dest].rounds| && s.nodes[p.dest].rounds[p.round].term == p.append.term
    ensures s.nodes[p.dest].rounds[p.round].upper == p.upper
  {
    var node := s.nodes[p.dest];
    assert PacketFits(s, h, p) && NodeFits(s, h, p.dest);
    assert RoundTold(|s.nodes|, h, p.dest, node.raft.currentTerm, p.round, node.rounds[p.round]);
  }
}
