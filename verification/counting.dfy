/** The leader counts: its commit index moves by one for every successful proposal, in whatever order
    the proposals succeed, and still never passes a proposal that a quorum has accepted. How far it lags behind
    the successes is exact: it is where it stood at the election, plus the number of successes since. */
module Counting {
  import MergeLaws
  import Preservation
  import opened Protocol
  import opened Cluster
  import Effects
  import opened Elections
  import Chronicle
  import Theorems
  import Consensus
  import Merging

  /** Some round for the proposal at `index` reached its quorum. */
  ghost predicate Won(node: Node, n: nat, index: nat) {
    exists r: nat :: WonBy(node, n, index, r)
  }

  ghost predicate WonBy(node: Node, n: nat, index: nat, r: nat) {
    && r < |node.rounds| && node.rounds[r].index == index && |node.rounds[r].ok| >= n / 2 + 1
    && (node.rounds[r].kind == NoOpRound || node.rounds[r].kind == WriteRound)
  }

  /** The commit index at the moment of the election: the round of the no-op has kept it. */
  function CommitAtElection(node: Node): int
    requires node.rounds != []
  {
    node.rounds[0].leaderCommit
  }

  /** `done` are the proposals that were counted. */
  ghost predicate Counts(node: Node, n: nat, done: set<nat>) {
    && node.rounds != [] && 0 <= node.rounds[0].index < |node.raft.log|
    && -1 <= CommitAtElection(node) < node.rounds[0].index
    && node.raft.commitIndex == CommitAtElection(node) + |done|
    && (forall x :: x in done ==> node.rounds[0].index <= x < |node.raft.log| && x !in node.waiting && Won(node, n, x))
    && (forall x :: x in node.waiting ==> node.rounds[0].index <= x < |node.raft.log|)
  }

  ghost predicate InCount(node: Node, n: nat, done: set<nat>) {
    node.raft.state == Consensus.Leader ==> Counts(node, n, done)
  }

  /** What one step does to the counting of a leader that goes on leading: rounds are added or their successes
      grow, fresh proposals are added, and at most one proposal that won is counted. */
  ghost predicate Continues(x: Node, y: Node) {
    && |x.rounds| <= |y.rounds|
    && (forall r {:trigger RoundGoesOn(x, y, r)} :: 0 <= r < |x.rounds| ==> RoundGoesOn(x, y, r))
    && |x.raft.log| <= |y.raft.log|
    && (forall p :: p in y.waiting ==> p in x.waiting || |x.raft.log| <= p < |y.raft.log|)
  }

  ghost predicate RoundGoesOn(x: Node, y: Node, r: nat) {
    && r < |x.rounds| && r < |y.rounds|
    && y.rounds[r].index == x.rounds[r].index && y.rounds[r].kind == x.rounds[r].kind
    && y.rounds[r].leaderCommit == x.rounds[r].leaderCommit
    && x.rounds[r].ok <= y.rounds[r].ok
  }

  lemma WonGrows(x: Node, y: Node, n: nat, index: nat)
    requires Continues(x, y) && Won(x, n, index)
    ensures Won(y, n, index)
  {
    var r: nat :| WonBy(x, n, index, r);
    assert RoundGoesOn(x, y, r);
    Consensus.SubsetSize(x.rounds[r].ok, y.rounds[r].ok);
    assert WonBy(y, n, index, r);
  }

  lemma CountsGoOn(x: Node, y: Node, n: nat, done: set<nat>)
    requires Counts(x, n, done) && Continues(x, y) && y.raft.commitIndex == x.raft.commitIndex
    ensures Counts(y, n, done)
  {
    assert RoundGoesOn(x, y, 0);
    forall p | p in done
      ensures Won(y, n, p)
    {
      WonGrows(x, y, n, p);
    }
  }

  lemma CountsOneMore(x: Node, y: Node, n: nat, done: set<nat>, round: nat)
    requires Counts(x, n, done) && round < |x.rounds| && x.rounds[round].index >= 0
    requires WonBy(x, n, x.rounds[round].index, round)
    requires x.rounds[round].index in x.waiting
    requires y.rounds == x.rounds && y.raft.log == x.raft.log && y.waiting == x.waiting - {x.rounds[round].index as nat}
    requires y.raft.commitIndex == x.raft.commitIndex + 1
    ensures Counts(y, n, done + {x.rounds[round].index as nat})
  {
    var index: nat := x.rounds[round].index;
    assert WonBy(y, n, index, round);
    forall p | p in done
      ensures Won(y, n, p)
    {
      var r: nat :| WonBy(x, n, p, r);
      assert WonBy(y, n, p, r);
    }
    assert |done + {index}| == |done| + 1;
  }

  /** Nothing is counted when a leader begins. */
  lemma CountsFresh(x: Node, y: Node, n: nat)
    requires y == BecomeLeader(x) && -1 <= x.raft.commitIndex < |x.raft.log|
    ensures Counts(y, n, {})
  {
  }

  // ----- Steps -----

  /** What is on disk reaches past the commit index. */
  ghost predicate Fits(f: Fields) {
    -1 <= f.commitIndex < |f.storage.log|
  }

  /** Where the loops as written merge, or nothing is merged, the commit index stays inside the log. */
  lemma FitsKept(rule: Rule, s: Cluster, e: Event, z: Cluster)
    requires Step(rule, s, e, z) && (e.DeliverAppend? ==> rule == Rule.Overwrite) && !e.CommitProposal?
    requires Site(e) < |s.nodes| && StorageOk(s.nodes[Site(e)].raft) && Fits(s.nodes[Site(e)].raft)
    ensures Site(e) < |z.nodes|
    ensures var f, g := s.nodes[Site(e)].raft, z.nodes[Site(e)].raft;
      Fits(g) && f.commitIndex <= g.commitIndex && (f.commitIndex == g.commitIndex || e.DeliverAppend?)
  {
    if e.DeliverAppend? {
      LearnFits(s.nodes[e.p.dest].raft, e.p.append);
    }
  }

  lemma LearnFits(f: Fields, m: AppendEntriesMessage)
    requires m.prevLogIndex >= -1 && StorageOk(f) && Fits(f)
    ensures var g := OnAppendEntries(Rule.Overwrite, f, m).0; Fits(g) && f.commitIndex <= g.commitIndex
  {
    if Merging.Matches(f.log, m.prevLogIndex, m.prevLogTerm) {
      MergeLaws.OverwritingAt(f.log, m.prevLogIndex, m.entries, 0);
    }
  }

  /** A leader that still leads after its own step. */
  lemma LeaderGoesOn(rule: Rule, s: Cluster, h: History, e: Event, z: Cluster)
    requires Told(s, h) && Step(rule, s, e, z) && Leads(s, Site(e)) && Leads(z, Site(e)) && !e.CommitProposal?
    ensures Continues(s.nodes[Site(e)], z.nodes[Site(e)])
    ensures z.nodes[Site(e)].raft.commitIndex == s.nodes[Site(e)].raft.commitIndex
  {
    match e {
      case DeliverAppend(p) =>
        assert PacketFits(s, h, p) && NodeFits(s, h, p.dest);
        StaleRequest(rule, s, p, z);
      case DeliverAppendReply(p) => ReplyGoesOn(rule, s, p, z);
      case _ => OwnStepGoesOn(rule, s, e, z);
    }
  }

  lemma StaleRequest(rule: Rule, s: Cluster, p: Packet, z: Cluster)
    requires Step(rule, s, DeliverAppend(p), z) && Leads(s, p.dest) && Leads(z, p.dest)
    requires p.append.term != s.nodes[p.dest].raft.currentTerm
    ensures z.nodes[p.dest] == s.nodes[p.dest]
  {
  }

  lemma ReplyGoesOn(rule: Rule, s: Cluster, p: Packet, z: Cluster)
    requires Step(rule, s, DeliverAppendReply(p), z) && Leads(s, p.dest) && Leads(z, p.dest)
    ensures Continues(s.nodes[p.dest], z.nodes[p.dest])
    ensures z.nodes[p.dest].raft.commitIndex == s.nodes[p.dest].raft.commitIndex
  {
  }

  lemma OwnStepGoesOn(rule: Rule, s: Cluster, e: Event, z: Cluster)
    requires Step(rule, s, e, z) && Leads(s, Site(e)) && Leads(z, Site(e))
    requires !e.CommitProposal? && !e.DeliverAppend? && !e.DeliverAppendReply?
    ensures Continues(s.nodes[Site(e)], z.nodes[Site(e)])
    ensures z.nodes[Site(e)].raft.commitIndex == s.nodes[Site(e)].raft.commitIndex
  {
  }

  /** Nobody becomes leader but by an election, and then with a fresh round. */
  lemma LeaderBegins(rule: Rule, s: Cluster, e: Event, z: Cluster)
    requires Step(rule, s, e, z) && Site(e) < |s.nodes| && !Leads(s, Site(e)) && Leads(z, Site(e))
    ensures s.nodes[Site(e)].raft.state == Consensus.Candidate
    ensures exists x: Node :: x.raft == s.nodes[Site(e)].raft && z.nodes[Site(e)] == BecomeLeader(x)
  {
    match e {
      case DeliverVoteReply(p) =>
        var x := s.nodes[p.dest].(votes := s.nodes[p.dest].votes + {p.from});
        assert z.nodes[p.dest] == BecomeLeader(x);
      case _ => OnlyElections(rule, s, e, z);
    }
  }

  lemma OnlyElections(rule: Rule, s: Cluster, e: Event, z: Cluster)
    requires Step(rule, s, e, z) && Site(e) < |s.nodes| && !Leads(s, Site(e)) && !e.DeliverVoteReply?
    ensures !Leads(z, Site(e))
  {
  }

  /** The proposals that node `i` has counted, once an event has happened. */
  function Tallied(s: Cluster, e: Event, i: nat, done: set<nat>): set<nat> {
    if !Leads(s, i) then {}
    else if e.CommitProposal? && e.i == i && e.round < |s.nodes[i].rounds| && s.nodes[i].rounds[e.round].index >= 0
    then done + {s.nodes[i].rounds[e.round].index as nat}
    else done
  }

  lemma CountingStep(rule: Rule, s: Cluster, h: History, e: Event, z: Cluster, n: nat, done: set<nat>)
    requires Told(s, h) && Step(rule, s, e, z) && |s.nodes| == |z.nodes| == n && Site(e) < n
    requires Fits(s.nodes[Site(e)].raft) && InCount(s.nodes[Site(e)], n, done)
    ensures InCount(z.nodes[Site(e)], n, Tallied(s, e, Site(e), done))
    ensures e.CommitProposal? ==> Fits(z.nodes[Site(e)].raft)
  {
    var i := Site(e);
    var x, y := s.nodes[i], z.nodes[i];
    assert NodeFits(s, h, i);
    if e.CommitProposal? {
      assert WonBy(x, n, x.rounds[e.round].index, e.round);
      CountsOneMore(x, y, n, done, e.round);
      CountedBelow(y, n, done + {x.rounds[e.round].index as nat});
    } else if Leads(z, i) && Leads(s, i) {
      LeaderGoesOn(rule, s, h, e, z);
      CountsGoOn(x, y, n, done);
    } else if Leads(z, i) {
      LeaderBegins(rule, s, e, z);
      var u: Node :| u.raft == x.raft && y == BecomeLeader(u);
      CountsFresh(u, y, n);
    }
  }

  /** As many distinct proposals as were counted fit into the log. */
  lemma CountedBelow(node: Node, n: nat, done: set<nat>)
    requires Counts(node, n, done)
    ensures node.raft.commitIndex < |node.raft.log|
  {
    if done != {} {
      var m := Preservation.LargestOf(done, node.rounds[0].index);
    }
  }

  // ----- Runs -----

  /** The proposals that node `i` has counted since it became the leader it is. */
  function Tally(states: seq<Cluster>, events: seq<Event>, k: nat, i: nat): set<nat>
    requires k <= |events| && |states| == |events| + 1
  {
    if k == 0 then {} else Tallied(states[k - 1], events[k - 1], i, Tally(states, events, k - 1, i))
  }

  lemma {:induction false} CountingAlways(
    rule: Rule, replicas: nat, states: seq<Cluster>, events: seq<Event>, k: nat, i: nat)
    requires Run(rule, replicas, states, events) && k < |states| && i < replicas
    ensures |states[k].nodes| == replicas && Fits(states[k].nodes[i].raft)
    ensures InCount(states[k].nodes[i], replicas, Tally(states, events, k, i))
    decreases k
  {
    if k > 0 {
      CountingAlways(rule, replicas, states, events, k - 1, i);
      CountingKept(rule, replicas, states, events, k - 1, i);
    }
  }

  lemma CountingKept(rule: Rule, replicas: nat, states: seq<Cluster>, events: seq<Event>, k: nat, i: nat)
    requires Run(rule, replicas, states, events) && k < |events| && i < replicas
    requires |states[k].nodes| == replicas && Fits(states[k].nodes[i].raft)
    requires InCount(states[k].nodes[i], replicas, Tally(states, events, k, i))
    ensures |states[k + 1].nodes| == replicas && Fits(states[k + 1].nodes[i].raft)
    ensures InCount(states[k + 1].nodes[i], replicas, Tally(states, events, k + 1, i))
    ensures states[k].nodes[i].raft.commitIndex <= states[k + 1].nodes[i].raft.commitIndex
  {
    assert Stepped(rule, states, events, k);
    Effects.OthersRest(rule, states[k], events[k], states[k + 1]);
    var hs := Chronicle.Record(rule, replicas, states, events);
    TallyKept(rule, states, events, hs, k, i);
    FitsStays(rule, replicas, states, events, hs, k, i);
  }

  lemma TallyKept(rule: Rule, states: seq<Cluster>, events: seq<Event>, hs: seq<History>, k: nat, i: nat)
    requires Chronicle.Recorded(states, events, hs) && k < |events| && Stepped(rule, states, events, k)
    requires i < |states[k].nodes| == |states[k + 1].nodes| && Fits(states[k].nodes[i].raft)
    requires InCount(states[k].nodes[i], |states[k].nodes|, Tally(states, events, k, i))
    ensures InCount(states[k + 1].nodes[i], |states[k].nodes|, Tally(states, events, k + 1, i))
    ensures events[k].CommitProposal? ==> Fits(states[k + 1].nodes[i].raft)
  {
    var e, done := events[k], Tally(states, events, k, i);
    Effects.OthersRest(rule, states[k], e, states[k + 1]);
    if i == Site(e) {
      assert Told(states[k], hs[k]);
      CountingStep(rule, states[k], hs[k], e, states[k + 1], |states[k].nodes|, done);
    }
  }

  lemma FitsStays(
    rule: Rule, replicas: nat, states: seq<Cluster>, events: seq<Event>, hs: seq<History>, k: nat, i: nat)
    requires Run(rule, replicas, states, events) && Chronicle.Recorded(states, events, hs)
    requires k < |events| && i < replicas && i < |states[k].nodes| == |states[k + 1].nodes|
    requires Fits(states[k].nodes[i].raft) && (events[k].CommitProposal? ==> Fits(states[k + 1].nodes[i].raft))
    ensures Fits(states[k + 1].nodes[i].raft)
    ensures states[k].nodes[i].raft.commitIndex <= states[k + 1].nodes[i].raft.commitIndex
  {
    var e := events[k];
    assert Stepped(rule, states, events, k);
    Effects.OthersRest(rule, states[k], e, states[k + 1]);
    if i == Site(e) {
      assert Told(states[k], hs[k]) && NodeFits(states[k], hs[k], i);
      if rule == Truncate && e.DeliverAppend? {
        Theorems.CommitOnDisk(replicas, states, events, k + 1, i);
        Theorems.CommitRises(replicas, states, events, k, e.p);
      } else if !e.CommitProposal? {
        FitsKept(rule, states[k], e, states[k + 1]);
      }
    }
  }

  /** The commit index always lies inside the log, and inside the part of it that is on disk. */
  lemma CommitInLog(rule: Rule, replicas: nat, states: seq<Cluster>, events: seq<Event>, k: nat, i: nat)
    requires Run(rule, replicas, states, events) && k < |states| && i < replicas
    ensures |states[k].nodes| == replicas
    ensures var f := states[k].nodes[i].raft; -1 <= f.commitIndex < |f.storage.log| <= |f.log|
  {
    CountingAlways(rule, replicas, states, events, k, i);
    var hs := Chronicle.Record(rule, replicas, states, events);
    assert Told(states[k], hs[k]) && NodeFits(states[k], hs[k], i);
  }

  /** Every step of a run, seen from one node: its commit index never falls. */
  lemma SeenStep(rule: Rule, replicas: nat, states: seq<Cluster>, events: seq<Event>, k: nat, i: nat)
    requires Run(rule, replicas, states, events) && k < |events| && i < replicas
    ensures |states[k].nodes| == |states[k + 1].nodes| == replicas
    ensures if i == Site(events[k]) then Effects.Acts(states[k].nodes[i], events[k], states[k + 1].nodes[i])
            else states[k + 1].nodes[i] == states[k].nodes[i]
    ensures states[k].nodes[i].raft.commitIndex <= states[k + 1].nodes[i].raft.commitIndex
  {
    CountingAlways(rule, replicas, states, events, k, i);
    CountingKept(rule, replicas, states, events, k, i);
    var hs := Chronicle.Record(rule, replicas, states, events);
    assert Told(states[k], hs[k]) && NodeFits(states[k], hs[k], i);
    assert Stepped(rule, states, events, k);
    Effects.NodeStep(rule, states[k], events[k], states[k + 1], i);
  }

  /** In every state of every run: a leader's commit index either lies below the no-op it began with, or at
      or below the index of a proposal of its own that n/2 + 1 replicas have accepted. */
  lemma CommitNeverPassesQuorum(rule: Rule, replicas: nat, states: seq<Cluster>, events: seq<Event>, k: nat, i: nat)
    requires Run(rule, replicas, states, events) && k < |states| && Leads(states[k], i)
    ensures var node := states[k].nodes[i];
      && node.rounds != []
      && (node.raft.commitIndex < node.rounds[0].index
          || exists m: nat :: node.raft.commitIndex <= m < |node.raft.log| && Won(node, replicas, m))
  {
    Chronicle.GroupSize(rule, replicas, states, events, k);
    CountingAlways(rule, replicas, states, events, k, i);
    var node, done := states[k].nodes[i], Tally(states, events, k, i);
    if done != {} {
      var m := Preservation.LargestOf(done, node.rounds[0].index);
      assert Won(node, replicas, m);
    }
  }

  /** In every state of every run: a leader's commit index is the one it had at its election plus the number of its
      proposals that have succeeded since. */
  lemma CommitIsTally(rule: Rule, replicas: nat, states: seq<Cluster>, events: seq<Event>, k: nat, i: nat)
    requires Run(rule, replicas, states, events) && k < |states| && Leads(states[k], i)
    ensures var node, done := states[k].nodes[i], Tally(states, events, k, i);
      && node.rounds != [] && CommitAtElection(node) < node.rounds[0].index
      && node.raft.commitIndex == CommitAtElection(node) + |done|
      && forall x :: x in done ==> node.rounds[0].index <= x < |node.raft.log| && Won(node, replicas, x)
  {
    Chronicle.GroupSize(rule, replicas, states, events, k);
    CountingAlways(rule, replicas, states, events, k, i);
  }

  lemma FirstRoundStays(rule: Rule, s: Cluster, h: History, e: Event, z: Cluster, i: nat)
    requires Told(s, h) && Step(rule, s, e, z) && Leads(s, i) && Leads(z, i)
    ensures s.nodes[i].rounds != [] && z.nodes[i].rounds != []
    ensures CommitAtElection(z.nodes[i]) == CommitAtElection(s.nodes[i])
    ensures z.nodes[i].rounds[0].index == s.nodes[i].rounds[0].index
  {
    assert NodeFits(s, h, i);
    Effects.OthersRest(rule, s, e, z);
    if i == Site(e) && !e.CommitProposal? {
      LeaderGoesOn(rule, s, h, e, z);
      assert RoundGoesOn(s.nodes[i], z.nodes[i], 0);
    }
  }

  ghost predicate LeadsFrom(states: seq<Cluster>, a: nat, k: nat, i: nat) {
    a <= k < |states| && forall m {:trigger Leads(states[m], i)} :: a <= m <= k ==> Leads(states[m], i)
  }

  lemma {:induction false} FirstRoundKept(
    rule: Rule, replicas: nat, states: seq<Cluster>, events: seq<Event>, hs: seq<History>, a: nat, k: nat, i: nat)
    requires Run(rule, replicas, states, events) && Chronicle.Recorded(states, events, hs)
    requires LeadsFrom(states, a, k, i)
    ensures Leads(states[a], i) && states[a].nodes[i].rounds != []
    ensures Leads(states[k], i) && states[k].nodes[i].rounds != []
    ensures CommitAtElection(states[k].nodes[i]) == CommitAtElection(states[a].nodes[i])
    ensures states[k].nodes[i].rounds[0].index == states[a].nodes[i].rounds[0].index
    decreases k
  {
    assert Leads(states[k], i) && Told(states[k], hs[k]) && NodeFits(states[k], hs[k], i);
    if a < k {
      FirstRoundKept(rule, replicas, states, events, hs, a, k - 1, i);
      assert Told(states[k - 1], hs[k - 1]) && Stepped(rule, states, events, k - 1);
      FirstRoundStays(rule, states[k - 1], hs[k - 1], events[k - 1], states[k], i);
    }
  }

  /** From its election at moment `a` on, and as long as it leads: every success has moved the commit index by one. */
  lemma ReignCounts(rule: Rule, replicas: nat, states: seq<Cluster>, events: seq<Event>, a: nat, k: nat, i: nat)
    requires Run(rule, replicas, states, events) && 0 < a && LeadsFrom(states, a, k, i) && !Leads(states[a - 1], i)
    ensures Leads(states[a], i) && Leads(states[k], i) && Tally(states, events, a, i) == {}
    ensures var x, y := states[a].nodes[i], states[k].nodes[i];
      && y.rounds != [] && CommitAtElection(y) == x.raft.commitIndex
      && y.raft.commitIndex == x.raft.commitIndex + |Tally(states, events, k, i)|
  {
    var hs := Chronicle.Record(rule, replicas, states, events);
    FirstRoundKept(rule, replicas, states, events, hs, a, k, i);
    CommitIsTally(rule, replicas, states, events, a, i);
    CommitIsTally(rule, replicas, states, events, k, i);
  }

  /** Numbers from `first` to `last` are as many as they can be exactly if none is missing. */
  lemma {:induction false} NoneMissing(done: set<nat>, first: nat, last: int)
    requires first <= last + 1 && forall x :: x in done ==> first <= x <= last
    ensures |done| <= last + 1 - first
    ensures |done| == last + 1 - first <==> forall x {:trigger x in done} :: first <= x <= last ==> x in done
    decreases last
  {
    if first <= last {
      var rest: set<nat> := done - {last};
      NoneMissing(rest, first, last - 1);
      if last in done {
        assert |rest| == |done| - 1;
        assert forall x :: x in rest <==> x in done && x != last;
      } else {
        assert rest == done;
      }
    }
  }

  /** The newest success of a leader is committed if and only if everything before its no-op was committed when it
      was elected and every proposal since, up to that one, has succeeded. Otherwise its client has been told of a
      success that no replica applies yet. */
  lemma NewestCommittedIff(
    rule: Rule, replicas: nat, states: seq<Cluster>, events: seq<Event>, k: nat, i: nat, newest: nat)
    requires Run(rule, replicas, states, events) && k < |states| && Leads(states[k], i)
    requires newest in Tally(states, events, k, i) && forall x :: x in Tally(states, events, k, i) ==> x <= newest
    ensures var node := states[k].nodes[i];
      && node.rounds != [] && 0 <= node.rounds[0].index
      && (newest <= node.raft.commitIndex <==>
            && CommitAtElection(node) == node.rounds[0].index - 1
            && forall x {:trigger x in Tally(states, events, k, i)} ::
                 node.rounds[0].index <= x <= newest ==> x in Tally(states, events, k, i))
  {
    Chronicle.GroupSize(rule, replicas, states, events, k);
    CountingAlways(rule, replicas, states, events, k, i);
    var node, done := states[k].nodes[i], Tally(states, events, k, i);
    NoneMissing(done, node.rounds[0].index, newest);
  }
}
