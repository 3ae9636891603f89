/** What a served read can miss. The leader that serves it is the right one, and its commit index may still lag behind
    what clients have been told. The theorems say when it does not, and that reads are then up to date. */
module Reads {
  import opened Protocol
  import opened Cluster
  import opened Elections
  import opened Counting
  import Application
  import Durability
  import Chronicle
  import Consensus
  import Effects
  import Preservation
  import Theorems

  // ----- A leader without a gap -----

  /** When it was elected, everything before its no-op was committed, and its successes are all proposals up to some
      one, the no-op first. */
  ghost predicate Gapless(node: Node, tally: set<nat>) {
    && node.rounds != [] && CommitAtElection(node) == node.rounds[0].index - 1
    && forall x, y {:trigger x in tally, y in tally} :: x in tally && node.rounds[0].index <= y <= x ==> y in tally
  }

  /** Then every success is committed. */
  lemma GaplessCommits(rule: Rule, replicas: nat, states: seq<Cluster>, events: seq<Event>, k: nat, i: nat)
    requires Run(rule, replicas, states, events) && k < |states| && Leads(states[k], i)
    requires Gapless(states[k].nodes[i], Tally(states, events, k, i))
    ensures states[k].nodes[i].raft.commitIndex >= states[k].nodes[i].rounds[0].index - 1
    ensures forall x :: x in Tally(states, events, k, i) ==> x <= states[k].nodes[i].raft.commitIndex
  {
    CommitIsTally(rule, replicas, states, events, k, i);
    var tally := Tally(states, events, k, i);
    if tally != {} {
      var newest := Preservation.Largest(tally);
      NewestCommittedIff(rule, replicas, states, events, k, i, newest);
    }
  }

  /** And once it has had a success, they are all committed only then. */
  lemma CommittedIffGapless(rule: Rule, replicas: nat, states: seq<Cluster>, events: seq<Event>, k: nat, i: nat)
    requires Run(rule, replicas, states, events) && k < |states| && Leads(states[k], i)
    requires Tally(states, events, k, i) != {}
    ensures (forall x :: x in Tally(states, events, k, i) ==> x <= states[k].nodes[i].raft.commitIndex)
      <==> Gapless(states[k].nodes[i], Tally(states, events, k, i))
  {
    CommitIsTally(rule, replicas, states, events, k, i);
    var newest := Preservation.Largest(Tally(states, events, k, i));
    NewestCommittedIff(rule, replicas, states, events, k, i, newest);
    if Gapless(states[k].nodes[i], Tally(states, events, k, i)) {
      GaplessCommits(rule, replicas, states, events, k, i);
    }
  }

  // ----- The reign -----

  lemma {:induction false} ReignStart(
    rule: Rule, replicas: nat, states: seq<Cluster>, events: seq<Event>, k: nat, i: nat) returns (a: nat)
    requires Run(rule, replicas, states, events) && k < |states| && Leads(states[k], i)
    ensures 0 < a && LeadsFrom(states, a, k, i) && !Leads(states[a - 1], i)
    decreases k
  {
    if k > 0 && Leads(states[k - 1], i) {
      a := ReignStart(rule, replicas, states, events, k - 1, i);
    } else {
      a := k;
    }
  }

  /** The first state of a reign: the no-op is the last entry, and the node was a candidate before. */
  lemma FirstState(rule: Rule, replicas: nat, states: seq<Cluster>, events: seq<Event>, a: nat, i: nat)
    requires Run(rule, replicas, states, events) && 0 < a < |states| && Leads(states[a], i) && !Leads(states[a - 1], i)
    ensures i < |states[a - 1].nodes| && states[a - 1].nodes[i].raft.state == Consensus.Candidate
    ensures var x, y := states[a - 1].nodes[i].raft, states[a].nodes[i];
      && y.raft.currentTerm == x.currentTerm && y.raft.log == x.log + [NoOpEntry(x.currentTerm)]
      && y.rounds != [] && y.rounds[0].index == |x.log|
  {
    var k := a - 1;
    assert Stepped(rule, states, events, k);
    Chronicle.GroupSize(rule, replicas, states, events, k);
    Chronicle.GroupSize(rule, replicas, states, events, a);
    Effects.OthersRest(rule, states[k], events[k], states[a]);
    LeaderBegins(rule, states[k], events[k], states[a]);
  }

  lemma NoCandidateAgain(s: Cluster, h: History, i: nat, t: nat)
    requires Told(s, h) && t in h.reigns && h.reigns[t].id == i
    ensures i < |s.nodes| && (s.nodes[i].raft.currentTerm == t ==> s.nodes[i].raft.state != Consensus.Candidate)
  {
    assert ReignFits(s, h, t);
  }

  /** A node that led a term does not begin to lead it again. */
  lemma LedBeforeStart(
    rule: Rule, replicas: nat, states: seq<Cluster>, events: seq<Event>, m: nat, a: nat, i: nat)
    requires Run(rule, replicas, states, events) && 0 < a < |states| && Leads(states[a], i) && !Leads(states[a - 1], i)
    requires m < |states| && Leads(states[m], i)
    requires states[m].nodes[i].raft.currentTerm == states[a].nodes[i].raft.currentTerm
    ensures a <= m
  {
    if m < a {
      var hs := Chronicle.Record(rule, replicas, states, events);
      FirstState(rule, replicas, states, events, a, i);
      Chronicle.LedThen(states, events, hs, m, a - 1, i);
      assert Told(states[a - 1], hs[a - 1]);
      NoCandidateAgain(states[a - 1], hs[a - 1], i, states[m].nodes[i].raft.currentTerm);
      assert false;
    }
  }

  /** A success stays counted as long as the reign lasts. */
  lemma {:induction false} StaysCounted(
    rule: Rule, replicas: nat, states: seq<Cluster>, events: seq<Event>, m: nat, k: nat, i: nat, round: nat)
    requires Run(rule, replicas, states, events) && m < k < |states| && LeadsFrom(states, m, k, i)
    requires events[m] == CommitProposal(i, round) && Stepped(rule, states, events, m)
    ensures states[m].nodes[i].rounds[round].index in Tally(states, events, k, i)
    decreases k
  {
    assert Leads(states[k - 1], i);
    if m < k - 1 {
      StaysCounted(rule, replicas, states, events, m, k - 1, i, round);
    }
  }

  // ----- What the leader has committed -----

  /** What an earlier term has brought into the log lies before the no-op. */
  lemma OlderBelow(
    rule: Rule, replicas: nat, states: seq<Cluster>, events: seq<Event>, a: nat, k: nat, i: nat, x: nat, term: nat)
    requires Run(rule, replicas, states, events) && 0 < a && LeadsFrom(states, a, k, i) && !Leads(states[a - 1], i)
    requires Leads(states[a], i) && x < |states[a].nodes[i].raft.log|
    requires states[a].nodes[i].raft.log[x].term <= term < states[a].nodes[i].raft.currentTerm
    ensures Leads(states[k], i) && states[k].nodes[i].rounds != [] && x < states[k].nodes[i].rounds[0].index
    ensures states[a].nodes[i].raft.currentTerm == states[k].nodes[i].raft.currentTerm
    ensures states[a].nodes[i].raft.log <= states[k].nodes[i].raft.log
  {
    FirstState(rule, replicas, states, events, a, i);
    var hs := Chronicle.Record(rule, replicas, states, events);
    FirstRoundKept(rule, replicas, states, events, hs, a, k, i);
    SameTerm(rule, states, events, hs, a, k, i);
    Chronicle.LeaderAppendOnly(rule, replicas, states, events, a, k, i, i);
  }

  lemma {:induction false} SameTerm(
    rule: Rule, states: seq<Cluster>, events: seq<Event>, hs: seq<History>, a: nat, k: nat, i: nat)
    requires Chronicle.Recorded(states, events, hs) && LeadsFrom(states, a, k, i)
    requires forall m {:trigger Stepped(rule, states, events, m)} ::
      0 <= m < |events| ==> Stepped(rule, states, events, m)
    ensures Leads(states[a], i) && Leads(states[k], i)
    ensures states[a].nodes[i].raft.currentTerm == states[k].nodes[i].raft.currentTerm
    decreases k
  {
    assert Leads(states[a], i) && Leads(states[k], i);
    if a < k {
      SameTerm(rule, states, events, hs, a, k - 1, i);
      assert Stepped(rule, states, events, k - 1) && Told(states[k - 1], hs[k - 1]);
      LeaderKeepsTerm(rule, states[k - 1], hs[k - 1], events[k - 1], states[k], i);
    }
  }

  lemma LeaderKeepsTerm(rule: Rule, s: Cluster, h: History, e: Event, z: Cluster, i: nat)
    requires Told(s, h) && Step(rule, s, e, z) && Leads(s, i) && Leads(z, i)
    ensures z.nodes[i].raft.currentTerm == s.nodes[i].raft.currentTerm
  {
    Effects.OthersRest(rule, s, e, z);
    if i == Site(e) {
      if e.DeliverAppend? {
        assert PacketFits(s, h, e.p) && NodeFits(s, h, i);
        StaleRequest(rule, s, e.p, z);
      } else {
        KeepsTerm(rule, s, e, z);
      }
    }
  }

  lemma KeepsTerm(rule: Rule, s: Cluster, e: Event, z: Cluster)
    requires Step(rule, s, e, z) && Leads(s, Site(e)) && Leads(z, Site(e)) && !e.DeliverAppend?
    ensures z.nodes[Site(e)].raft.currentTerm == s.nodes[Site(e)].raft.currentTerm
  {
  }

  /** A write that was reported as successful, in a term not above the leader's, is committed by a leader without
      a gap. */
  lemma WriteCommitted(
    replicas: nat, states: seq<Cluster>, events: seq<Event>, m: nat, j: nat, round: nat, a: nat, i: nat)
    requires Run(Truncate, replicas, states, events) && m < a < |states| && events[m] == CommitProposal(j, round)
    requires Leads(states[a], i) && Gapless(states[a].nodes[i], Tally(states, events, a, i))
    requires j < |states[m].nodes| && round < |states[m].nodes[j].rounds|
    requires states[m].nodes[j].raft.currentTerm <= states[a].nodes[i].raft.currentTerm
    ensures var x, l := states[m].nodes[j].raft.log, states[a].nodes[i].raft;
      var index := states[m].nodes[j].rounds[round].index;
      0 <= index < |x| && index <= l.commitIndex < |l.log| && l.log[index] == x[index]
  {
    assert Stepped(Truncate, states, events, m);
    Chronicle.GroupSize(Truncate, replicas, states, events, a);
    Counting.CommitInLog(Truncate, replicas, states, events, a, i);
    GaplessCommits(Truncate, replicas, states, events, a, i);
    if states[m].nodes[j].raft.currentTerm == states[a].nodes[i].raft.currentTerm {
      OwnWrite(replicas, states, events, m, j, round, a, i);
    } else {
      OlderWrite(replicas, states, events, m, j, round, a, i);
    }
  }

  lemma OwnWrite(
    replicas: nat, states: seq<Cluster>, events: seq<Event>, m: nat, j: nat, round: nat, a: nat, i: nat)
    requires Run(Truncate, replicas, states, events) && m < a < |states| && events[m] == CommitProposal(j, round)
    requires Leads(states[a], i) && Current(states[m], j, round)
    requires states[m].nodes[j].raft.currentTerm == states[a].nodes[i].raft.currentTerm
    ensures states[m].nodes[j].rounds[round].index in Tally(states, events, a, i)
    ensures states[m].nodes[j].raft.log <= states[a].nodes[i].raft.log
  {
    Chronicle.ElectionSafety(Truncate, replicas, states, events, m, a, j, i);
    Chronicle.LeaderAppendOnly(Truncate, replicas, states, events, m, a, j, i);
    var start := ReignStart(Truncate, replicas, states, events, a, i);
    var hs := Chronicle.Record(Truncate, replicas, states, events);
    SameTerm(Truncate, states, events, hs, start, a, i);
    LedBeforeStart(Truncate, replicas, states, events, m, start, i);
    assert Stepped(Truncate, states, events, m);
    StaysCounted(Truncate, replicas, states, events, m, a, i, round);
  }

  lemma OlderWrite(
    replicas: nat, states: seq<Cluster>, events: seq<Event>, m: nat, j: nat, round: nat, a: nat, i: nat)
    requires Run(Truncate, replicas, states, events) && m < a < |states| && events[m] == CommitProposal(j, round)
    requires Leads(states[a], i) && Current(states[m], j, round)
    requires states[m].nodes[j].raft.currentTerm < states[a].nodes[i].raft.currentTerm
    ensures var x, l := states[m].nodes[j].raft.log, states[a].nodes[i];
      var index := states[m].nodes[j].rounds[round].index;
      && 0 <= index < |x| && index < |l.raft.log| && l.raft.log[index] == x[index]
      && l.rounds != [] && index < l.rounds[0].index
  {
    var start := ReignStart(Truncate, replicas, states, events, a, i);
    var hs := Chronicle.Record(Truncate, replicas, states, events);
    SameTerm(Truncate, states, events, hs, start, a, i);
    Durability.LaterLeadersHaveIt(replicas, states, events, m, j, round, start, i);
    Theorems.LogsSorted(replicas, states, events, m, j);
    var f, l, index := states[m].nodes[j].raft, states[start].nodes[i].raft.log, states[m].nodes[j].rounds[round].index;
    assert f.log[..index + 1][index] == l[..index + 1][index];
    OlderBelow(Truncate, replicas, states, events, start, a, i, index, f.currentTerm);
  }

  /** What an earlier leader had committed, a leader without a gap has committed, too. */
  lemma CommitCovered(replicas: nat, states: seq<Cluster>, events: seq<Event>, m: nat, j: nat, a: nat, i: nat)
    requires Run(Truncate, replicas, states, events) && m <= a < |states| && Leads(states[m], j)
    requires Leads(states[a], i) && Gapless(states[a].nodes[i], Tally(states, events, a, i))
    requires states[m].nodes[j].raft.currentTerm <= states[a].nodes[i].raft.currentTerm
    ensures states[m].nodes[j].raft.commitIndex <= states[a].nodes[i].raft.commitIndex
  {
    Chronicle.GroupSize(Truncate, replicas, states, events, a);
    GaplessCommits(Truncate, replicas, states, events, a, i);
    Counting.CommitInLog(Truncate, replicas, states, events, a, i);
    if states[m].nodes[j].raft.currentTerm == states[a].nodes[i].raft.currentTerm {
      Chronicle.ElectionSafety(Truncate, replicas, states, events, m, a, j, i);
      Later(replicas, states, events, m, a, i);
    } else if states[m].nodes[j].raft.commitIndex >= 0 {
      OlderCommit(replicas, states, events, m, j, a, i);
    }
  }

  lemma OlderCommit(replicas: nat, states: seq<Cluster>, events: seq<Event>, m: nat, j: nat, a: nat, i: nat)
    requires Run(Truncate, replicas, states, events) && m <= a < |states| && Leads(states[m], j)
    requires Leads(states[a], i) && 0 <= states[m].nodes[j].raft.commitIndex
    requires states[m].nodes[j].raft.currentTerm < states[a].nodes[i].raft.currentTerm
    ensures var l := states[a].nodes[i];
      l.rounds != [] && states[m].nodes[j].raft.commitIndex < l.rounds[0].index
  {
    var start := ReignStart(Truncate, replicas, states, events, a, i);
    var hs := Chronicle.Record(Truncate, replicas, states, events);
    SameTerm(Truncate, states, events, hs, start, a, i);
    Theorems.CompleteLeader(replicas, states, events, m, start, j, i);
    Theorems.LogsSorted(replicas, states, events, m, j);
    var f, l := states[m].nodes[j].raft, states[start].nodes[i].raft.log;
    var c := f.commitIndex;
    assert f.log[..c + 1][c] == l[..c + 1][c];
    OlderBelow(Truncate, replicas, states, events, start, a, i, c, f.currentTerm);
  }

  /** Of one node, neither the commit index nor what it has applied ever falls. */
  lemma {:induction false} Later(replicas: nat, states: seq<Cluster>, events: seq<Event>, a: nat, b: nat, i: nat)
    requires Run(Truncate, replicas, states, events) && a <= b < |states| && i < replicas
    ensures |states[a].nodes| == |states[b].nodes| == replicas
    ensures states[a].nodes[i].raft.commitIndex <= states[b].nodes[i].raft.commitIndex
    ensures states[a].nodes[i].raft.lastApplied <= states[b].nodes[i].raft.lastApplied
    decreases b
  {
    Chronicle.GroupSize(Truncate, replicas, states, events, b);
    if a < b {
      Later(replicas, states, events, a, b - 1, i);
      Application.StoreContext(replicas, states, events, b - 1, i);
    }
  }

  // ----- Reads -----

  /** Node `i` serves a read at moment `b`: it began the round of heartbeats at moment `a`, when it had applied
      everything it had committed, and it still leads the same term. */
  ghost predicate ReadServed(states: seq<Cluster>, events: seq<Event>, a: nat, b: nat, i: nat) {
    && |states| == |events| + 1 && a < b < |events| && events[a] == StartRound(i, ReadCheck)
    && i < |states[a].nodes| && i < |states[b].nodes|
    && events[b] == ServeRead(i, |states[a].nodes[i].rounds|)
    && states[a].nodes[i].raft.currentTerm == states[b].nodes[i].raft.currentTerm
    && states[a].nodes[i].raft.commitIndex == states[a].nodes[i].raft.lastApplied
  }

  /** A read served by a leader without a gap sees every write that was reported as successful before the read began,
      whichever leader reported it: the entry is in the part of the log that the store stands for. */
  lemma ReadSeesWrite(
    replicas: nat, states: seq<Cluster>, events: seq<Event>, m: nat, j: nat, round: nat, a: nat, b: nat, i: nat)
    requires Run(Truncate, replicas, states, events) && ReadServed(states, events, a, b, i)
    requires Gapless(states[a].nodes[i], Tally(states, events, a, i))
    requires m < a && events[m] == CommitProposal(j, round)
    requires j < |states[m].nodes| && round < |states[m].nodes[j].rounds|
    ensures var x, seen := states[m].nodes[j].raft.log, Application.AppliedPart(states[b].nodes[i].raft);
      var index := states[m].nodes[j].rounds[round].index;
      0 <= index < |x| && index < |seen| && seen[index] == x[index]
  {
    assert Stepped(Truncate, states, events, m) && Stepped(Truncate, states, events, a);
    Chronicle.ConfirmedRead(Truncate, replicas, states, events, a, b, i, m, j);
    WriteCommitted(replicas, states, events, m, j, round, a, i);
    SeenAtServe(replicas, states, events, a, b, i, states[m].nodes[j].rounds[round].index);
  }

  /** What was committed when the read began is applied, unchanged, when it is served. */
  lemma SeenAtServe(
    replicas: nat, states: seq<Cluster>, events: seq<Event>, a: nat, b: nat, i: nat, index: nat)
    requires Run(Truncate, replicas, states, events) && ReadServed(states, events, a, b, i)
    requires index <= states[a].nodes[i].raft.commitIndex
    ensures var f, seen := states[a].nodes[i].raft, Application.AppliedPart(states[b].nodes[i].raft);
      index < |f.log| && index < |seen| && seen[..index + 1] == f.log[..index + 1]
  {
    Chronicle.GroupSize(Truncate, replicas, states, events, a);
    Later(replicas, states, events, a, b, i);
    Application.RegularAlways(replicas, states, events, b, i);
    Theorems.StateMachineSafety(replicas, states, events, a, b, i, i, index);
  }

  /** Nor does it go back behind an earlier read, whichever leader served that one. */
  lemma ReadsGoForward(
    replicas: nat, states: seq<Cluster>, events: seq<Event>, c: nat, d: nat, j: nat, a: nat, b: nat, i: nat)
    requires Run(Truncate, replicas, states, events)
    requires ReadServed(states, events, c, d, j) && ReadServed(states, events, a, b, i) && d <= a
    requires Gapless(states[a].nodes[i], Tally(states, events, a, i))
    ensures Application.AppliedPart(states[d].nodes[j].raft) <= Application.AppliedPart(states[b].nodes[i].raft)
  {
    assert Stepped(Truncate, states, events, d) && Stepped(Truncate, states, events, a);
    Chronicle.ConfirmedRead(Truncate, replicas, states, events, a, b, i, d, j);
    CommitCovered(replicas, states, events, d, j, a, i);
    Chronicle.GroupSize(Truncate, replicas, states, events, d);
    Chronicle.GroupSize(Truncate, replicas, states, events, a);
    Later(replicas, states, events, a, b, i);
    Application.RegularAlways(replicas, states, events, d, j);
    Application.RegularAlways(replicas, states, events, b, i);
    var last := states[d].nodes[j].raft.lastApplied;
    if last >= 0 {
      Theorems.StateMachineSafety(replicas, states, events, d, b, j, i, last);
      Behind(states[d].nodes[j].raft, states[b].nodes[i].raft);
    }
  }

  lemma Behind(f: Fields, g: Fields)
    requires 0 <= f.lastApplied <= g.lastApplied < |g.log| && f.lastApplied < |f.log|
    requires f.log[..f.lastApplied + 1] == g.log[..f.lastApplied + 1]
    ensures Application.AppliedPart(f) <= Application.AppliedPart(g)
  {
    assert g.log[..g.lastApplied + 1][..f.lastApplied + 1] == g.log[..f.lastApplied + 1];
  }
}
