/** A run in which a read misses a write that has been reported as successful. */
module StaleRead {
  import opened Consensus
  import opened Protocol
  import opened Cluster
  import opened Scripts
  import opened Counterexamples
  import Application
  import Reads

  const FIRST_STORE: Map := map[[97] := [49]]

  /** The leader once it has applied what it has committed. */
  ghost predicate CaughtUp(node: Node) {
    && Is(node, 1, 2, 2, Leader, LongLog(), 1) && node.raft.nextIndex[0] == 4 && |node.rounds| == 2
    && node.raft.commitsReady == [] && node.raft.lastApplied == 1 && node.store == FIRST_STORE
  }

  /** As far as the run has come: at moment `m` a success was reported for the second write, at index 3. */
  ghost predicate Reported(states: seq<Cluster>, events: seq<Event>, m: nat) {
    && Calm(states, events) && m < |events| && events[m] == CommitProposal(1, 1) && |states[m].nodes| == 2
    && |states[m].nodes[1].rounds| == 2 && states[m].nodes[1].rounds[1].index == 3
    && states[m].nodes[1].raft.log == LongLog()
  }

  lemma StillReported(states: seq<Cluster>, events: seq<Event>, m: nat, e: Event, z: Cluster)
    requires Reported(states, events, m) && FairAt(states[|events|], e) && !e.Crash? && !e.CrashInApply?
    ensures Reported(states + [z], events + [e], m)
  {
    CalmOne(states, events, states[|events|], e, z);
  }

  /** Both writes have been accepted by both nodes, and a success has been reported for the second. */
  lemma WriteReported() returns (ss: seq<Cluster>, es: seq<Event>, z: Cluster, m: nat)
    ensures Ends(Truncate, 2, ss, es, z) && |z.nodes| == 2 && Reported(ss, es, m)
    ensures Is(z.nodes[1], 1, 2, 2, Leader, LongLog(), 1) && z.nodes[1].raft.nextIndex[0] == 4
    ensures NoOpDone(z.nodes[1], [1]) && |z.nodes[1].rounds| == 2
    ensures Is(z.nodes[0], 0, 2, 2, Follower, LongLog(), 0)
  {
    ss, es, z := SecondReign();
    ss, es, z := TwoSuccesses(ss, es, z);
    m := |es| - 1;
  }

  /** The leader applies the next commit, the first write. */
  lemma WritesApplied() returns (ss: seq<Cluster>, es: seq<Event>, z: Cluster, m: nat)
    ensures Ends(Truncate, 2, ss, es, z) && |z.nodes| == 2 && Reported(ss, es, m)
    ensures CaughtUp(z.nodes[1]) && Is(z.nodes[0], 0, 2, 2, Follower, LongLog(), 0)
  {
    var ss1, es1, s1;
    ss1, es1, s1, m := WriteReported();
    ss, es, z := ApplyBatch(Truncate, 2, ss1, es1, s1, 1, 1);
    StillReported(ss1, es1, m, Apply(1, 1), z);
    assert LongLog()[1..2] == [FirstWrite()];
    OneApplied(map[], FirstWrite());
  }

  lemma ReportedFurther(states: seq<Cluster>, events: seq<Event>, ss: seq<Cluster>, es: seq<Event>, m: nat)
    requires Reported(states, events, m) && Further(states, events, ss, es)
    ensures Reported(ss, es, m)
  {
    CalmFurther(states, events, ss, es);
    assert ss[..|states|][m] == states[m] && es[..|events|][m] == events[m];
  }

  /** The heartbeats for a read. */
  lemma Confirmed(states: seq<Cluster>, events: seq<Event>, s: Cluster, m: nat)
    returns (ss: seq<Cluster>, es: seq<Event>, z: Cluster)
    requires Ends(Truncate, 2, states, events, s) && |s.nodes| == 2 && Reported(states, events, m)
    requires CaughtUp(s.nodes[1]) && Is(s.nodes[0], 0, 2, 2, Follower, LongLog(), 0)
    ensures Ends(Truncate, 2, ss, es, z) && |z.nodes| == 2 && Reported(ss, es, m)
    ensures |es| > |events| && es[|events|] == StartRound(1, ReadCheck) && ss[|events|] == s
    ensures var x := z.nodes[1];
      && Is(x, 1, 2, 2, Leader, LongLog(), 1) && x.raft.lastApplied == 1 && x.store == FIRST_STORE
      && |x.rounds| == 3 && x.rounds[2].kind == ReadCheck && x.rounds[2].term == 2 && x.rounds[2].ok == {0, 1}
  {
    var ss1, es1, s1 := Beat(Truncate, 2, states, events, s, 1, ReadCheck);
    ss, es, z := Replicate(Truncate, 2, ss1, es1, s1, 1, 2, 0);
    ReportedFurther(states, events, ss1, es1, m);
    ReportedFurther(ss1, es1, ss, es, m);
    assert {1} + {0} == {0, 1};
    assert ss[..|ss1|][|events|] == ss1[|events|] && es[..|es1|][|events|] == es1[|events|];
  }

  lemma FirstStoreExact(node: Node)
    requires node.raft.log == LongLog() && node.raft.lastApplied == 1 && node.store == FIRST_STORE
    ensures Application.StoreExact(node)
  {
    assert LongLog()[..2] == [Noop(1), FirstWrite()];
    TwoApplied(map[], Noop(1), FirstWrite());
  }

  /** No node crashes, and every write has waited. A success is reported for the write at index 3 and a read begins
      after that, when the leader has applied all it has committed. A majority confirms the leader, the read is served,
      and the store does not have the key of the write: two entries of the old term were not committed at the election,
      and the leader's commit index stays two behind. */
  lemma ReadMissesWrite() returns (states: seq<Cluster>, events: seq<Event>, s: Cluster, m: nat, a: nat, b: nat)
    ensures Ends(Truncate, 2, states, events, s) && |s.nodes| == 2 && Reported(states, events, m)
    ensures m < a && Reads.ReadServed(states, events, a, b, 1) && |states[b].nodes| == 2
    ensures SecondWrite().operation.key !in states[b].nodes[1].store
    ensures Application.StoreExact(states[b].nodes[1])
  {
    var ss1, es1, s1;
    ss1, es1, s1, m := WritesApplied();
    var ss2, es2, s2 := Confirmed(ss1, es1, s1, m);
    FirstStoreExact(s2.nodes[1]);
    assert |{0, 1}| == 2;
    a, b, s := |es1|, |es2|, s2;
    states, events := ss2 + [s], es2 + [ServeRead(1, 2)];
    Go(Truncate, 2, ss2, es2, s2, ServeRead(1, 2), s);
    StillReported(ss2, es2, m, ServeRead(1, 2), s);
  }
}
