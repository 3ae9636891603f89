/** Which PUTs find their key when they are applied, and what a leader has to check before it appends one. */
module Guard {
  import opened Entries
  import opened Protocol
  import opened Replay
  import opened Cluster
  import opened Elections
  import opened Tokens
  import opened Application
  import opened Presence
  import Chronicle
  import Effects
  import Theorems

  // ----- All logs are made of what leaders append -----

  /** A leader that leads after its own step has its old log, with a no-op or the client's entry behind it or not. */
  ghost predicate Appends(e: Event, f: Fields, g: Fields) {
    || g.log == f.log
    || (exists t :: g.log == f.log + [NoOpEntry(t)])
    || (e.ClientWrite? && g.log == f.log + [LogEntry(f.currentTerm, e.operation, e.client)])
  }

  lemma LeaderAppends(s: Cluster, h: History, e: Event, z: Cluster)
    requires Told(s, h) && Step(Truncate, s, e, z) && Site(e) < |s.nodes| && Leads(z, Site(e))
    ensures Appends(e, s.nodes[Site(e)].raft, z.nodes[Site(e)].raft)
  {
    if e.DeliverAppend? {
      RequestFromAnother(s, h, e.p);
      assert NodeFits(s, h, e.p.dest);
      AnswerFollows(Truncate, s.nodes[e.p.dest].raft, e.p.append);
    } else {
      OwnAppends(s, e, z);
    }
  }

  lemma OwnAppends(s: Cluster, e: Event, z: Cluster)
    requires Step(Truncate, s, e, z) && Site(e) < |s.nodes| && Leads(z, Site(e)) && !e.DeliverAppend?
    ensures Appends(e, s.nodes[Site(e)].raft, z.nodes[Site(e)].raft)
  {
    if e.DeliverVoteReply? {
      var f := s.nodes[e.p.dest].raft;
      assert z.nodes[e.p.dest].raft.log == f.log || z.nodes[e.p.dest].raft.log == f.log + [NoOpEntry(f.currentTerm)];
    }
  }

  /** A property of logs that passes to beginnings, and that no-ops and the clients' entries keep. */
  ghost predicate Kept(P: Log -> bool, states: seq<Cluster>, events: seq<Event>, k: nat)
    requires k <= |events| && |states| == |events| + 1
  {
    && P([])
    && (forall x, y {:trigger P(x), P(y)} :: x <= y && P(y) ==> P(x))
    && (forall x, t {:trigger P(x + [NoOpEntry(t)])} :: P(x) ==> P(x + [NoOpEntry(t)]))
    && (forall m {:trigger KeptBy(P, states, events, m)} :: 0 <= m < k ==> KeptBy(P, states, events, m))
  }

  ghost predicate KeptBy(P: Log -> bool, states: seq<Cluster>, events: seq<Event>, m: nat)
    requires m < |events| && |states| == |events| + 1
  {
    events[m].ClientWrite? && Leads(states[m], events[m].i) ==>
      var f := states[m].nodes[events[m].i].raft;
      P(f.log) ==> P(f.log + [LogEntry(f.currentTerm, events[m].operation, events[m].client)])
  }

  /** Then every log has it, at every moment. */
  lemma {:induction false} LogsInduction(
    P: Log -> bool, replicas: nat, states: seq<Cluster>, events: seq<Event>, k: nat, i: nat)
    requires Run(Truncate, replicas, states, events) && k < |states| && i < |states[k].nodes|
    requires Kept(P, states, events, k)
    ensures P(states[k].nodes[i].raft.log)
    decreases k
  {
    var log := states[k].nodes[i].raft.log;
    if log != [] {
      Chronicle.GroupSize(Truncate, replicas, states, events, k);
      var a, j := Theorems.LogOrigin(replicas, states, events, k, i);
      Chronicle.GroupSize(Truncate, replicas, states, events, a);
      if a < k {
        LogsInduction(P, replicas, states, events, a, j);
      } else {
        LeadersLog(P, replicas, states, events, k, j);
      }
    }
  }

  lemma {:induction false} LeadersLog(
    P: Log -> bool, replicas: nat, states: seq<Cluster>, events: seq<Event>, k: nat, j: nat)
    requires Run(Truncate, replicas, states, events) && k < |states| && Leads(states[k], j)
    requires Kept(P, states, events, k)
    ensures P(states[k].nodes[j].raft.log)
    decreases k, 0
  {
    Chronicle.GroupSize(Truncate, replicas, states, events, k);
    if k > 0 {
      Chronicle.GroupSize(Truncate, replicas, states, events, k - 1);
      LogsInduction(P, replicas, states, events, k - 1, j);
      LogsStep(P, replicas, states, events, k - 1, j);
    }
  }

  lemma LogsStep(P: Log -> bool, replicas: nat, states: seq<Cluster>, events: seq<Event>, k: nat, j: nat)
    requires Run(Truncate, replicas, states, events) && k < |events| && Leads(states[k + 1], j)
    requires Kept(P, states, events, k + 1)
    requires j < |states[k].nodes| && P(states[k].nodes[j].raft.log)
    ensures P(states[k + 1].nodes[j].raft.log)
  {
    var hs := Chronicle.Record(Truncate, replicas, states, events);
    assert Stepped(Truncate, states, events, k);
    assert Told(states[k], hs[k]) && KeptBy(P, states, events, k);
    if j == Site(events[k]) {
      LeaderAppends(states[k], hs[k], events[k], states[k + 1]);
    } else {
      Effects.OthersRest(Truncate, states[k], events[k], states[k + 1]);
    }
  }

  // ----- PUTs that find their key -----

  /** When the leader appends a PUT, its whole log, applied in order, would have created the key. */
  ghost predicate InLog(states: seq<Cluster>, events: seq<Event>, m: nat)
    requires m < |events| && |states| == |events| + 1
  {
    events[m].ClientWrite? && events[m].operation.Put? && Leads(states[m], events[m].i) ==>
      events[m].operation.key in ApplyAll(map[], states[m].nodes[events[m].i].raft.log)
  }

  ghost predicate AllInLog(states: seq<Cluster>, events: seq<Event>, k: nat)
    requires k <= |events| && |states| == |events| + 1
  {
    forall m {:trigger InLog(states, events, m)} :: 0 <= m < k ==> InLog(states, events, m)
  }

  /** Every PUT of every log finds its key when the log is applied in order: the PUT at index `x` finds it
      in the result of the entries before `x`. */
  ghost predicate AllHit(states: seq<Cluster>) {
    forall k, i {:trigger states[k].nodes[i]} :: 0 <= k < |states| && 0 <= i < |states[k].nodes| ==>
      PutsHit(map[], states[k].nodes[i].raft.log)
  }

  lemma HitsAlways(replicas: nat, states: seq<Cluster>, events: seq<Event>, k: nat, i: nat)
    requires Run(Truncate, replicas, states, events) && k < |states| && i < |states[k].nodes|
    requires AllInLog(states, events, k)
    ensures PutsHit(map[], states[k].nodes[i].raft.log)
  {
    var P := log => PutsHit(map[], log);
    forall x: Log, y: Log | x <= y && P(y)
      ensures P(x)
    {
      PutsHitPrefix(map[], y, |x|);
      assert y[..|x|] == x;
    }
    forall x: Log, t: nat | P(x)
      ensures P(x + [NoOpEntry(t)])
    {
      PutsHitSnoc(map[], x, NoOpEntry(t));
    }
    forall m | 0 <= m < k
      ensures KeptBy(P, states, events, m)
    {
      assert InLog(states, events, m);
      if events[m].ClientWrite? && Leads(states[m], events[m].i) {
        var f := states[m].nodes[events[m].i].raft;
        PutsHitSnoc(map[], f.log, LogEntry(f.currentTerm, events[m].operation, events[m].client));
      }
    }
    LogsInduction(P, replicas, states, events, k, i);
  }

  /** Every PUT of every log finds its key, at every moment of a run, if and only if every PUT finds its key in the
      leader's whole log when it is appended. */
  lemma AllHitIff(replicas: nat, states: seq<Cluster>, events: seq<Event>)
    requires Run(Truncate, replicas, states, events)
    ensures AllHit(states) <==> AllInLog(states, events, |events|)
  {
    if AllInLog(states, events, |events|) {
      forall k, i | 0 <= k < |states| && 0 <= i < |states[k].nodes|
        ensures PutsHit(map[], states[k].nodes[i].raft.log)
      {
        HitsAlways(replicas, states, events, k, i);
      }
    }
    if AllHit(states) {
      forall m | 0 <= m < |events|
        ensures InLog(states, events, m)
      {
        assert Stepped(Truncate, states, events, m);
        if events[m].ClientWrite? {
          var i := events[m].i;
          var f := states[m].nodes[i].raft;
          assert PutsHit(map[], states[m + 1].nodes[i].raft.log);
          PutsHitSnoc(map[], f.log, LogEntry(f.currentTerm, events[m].operation, events[m].client));
        }
      }
    }
  }

  // ----- What a leader can check -----

  /** The test on what a leader has: the key is in its store once the entries it has not applied yet are. */
  ghost predicate Found(node: Node, key: Bytes) {
    -1 <= node.raft.lastApplied < |node.raft.log|
    && key in ApplyAll(node.store, node.raft.log[node.raft.lastApplied + 1..])
  }

  ghost predicate InResult(node: Node, key: Bytes) {
    key in ApplyAll(map[], node.raft.log)
  }

  /** The same entries applied to two stores: what one has more of keys it keeps, and they may come out even. */
  lemma KeysOfTail(x: Map, y: Map, tail: Log, exact: bool, key: Bytes)
    requires Presence.Follows(x.Keys, y.Keys, exact)
    ensures key in ApplyAll(x, tail) ==> key in ApplyAll(y, tail)
    ensures exact && key in ApplyAll(y, tail) ==> key in ApplyAll(x, tail)
  {
    KeysRise(x, y, tail);
    if exact {
      KeysRise(y, x, tail);
    }
  }

  lemma LogParts(f: Fields) returns (tail: Log)
    requires Regular(f)
    ensures f.log[f.lastApplied + 1..] == Pending(f) + tail && f.log == CommittedPart(f) + tail
  {
    tail := f.log[f.commitIndex + 1..];
  }

  /** What is not committed yet has the same effect on the keys of the store and on those of the log. */
  lemma KeysOfLog(node: Node, exact: bool, key: Bytes)
    requires Regular(node.raft) && KeysFollow(node, exact)
    ensures Found(node, key) ==> InResult(node, key)
    ensures exact && InResult(node, key) ==> Found(node, key)
  {
    var f := node.raft;
    var tail := LogParts(f);
    ApplyAllSplit(node.store, Pending(f), tail);
    ApplyAllSplit(map[], CommittedPart(f), tail);
    KeysOfTail(ApplyAll(node.store, Pending(f)), ApplyAll(map[], CommittedPart(f)), tail, exact, key);
  }

  /** In every state of every run: a key that the test finds is in the result of the node's whole log, whatever crashes,
      halts and values there were. The test is exact if no recovery of the node met an empty value. */
  lemma FoundIff(replicas: nat, states: seq<Cluster>, events: seq<Event>, k: nat, i: nat, key: Bytes)
    requires Run(Truncate, replicas, states, events) && k < |states| && i < |states[k].nodes|
    ensures Found(states[k].nodes[i], key) ==> InResult(states[k].nodes[i], key)
    ensures NoneLost(states, events, k, i) ==> (Found(states[k].nodes[i], key) <==> InResult(states[k].nodes[i], key))
  {
    Chronicle.GroupSize(Truncate, replicas, states, events, k);
    RegularAlways(replicas, states, events, k, i);
    KeysFollowLog(replicas, states, events, k, i);
    KeysOfLog(states[k].nodes[i], NoneLost(states, events, k, i), key);
  }

  /** So it is if nothing the node has committed has an empty value. */
  lemma FoundIffFilled(replicas: nat, states: seq<Cluster>, events: seq<Event>, k: nat, i: nat, key: Bytes)
    requires Run(Truncate, replicas, states, events) && k < |states| && i < |states[k].nodes|
    requires Filled(states[k].nodes[i].raft)
    ensures Found(states[k].nodes[i], key) <==> InResult(states[k].nodes[i], key)
  {
    Chronicle.GroupSize(Truncate, replicas, states, events, k);
    FilledNoneLost(replicas, states, events, k, i);
    FoundIff(replicas, states, events, k, i, key);
  }

  /** Event `m` is a leader's append of a PUT. */
  ghost predicate AppendsPut(states: seq<Cluster>, events: seq<Event>, m: nat)
    requires m < |events| && |states| == |events| + 1
  {
    events[m].ClientWrite? && events[m].operation.Put? && Leads(states[m], events[m].i)
  }

  ghost predicate FoundPut(states: seq<Cluster>, events: seq<Event>, m: nat)
    requires m < |events| && |states| == |events| + 1
  {
    AppendsPut(states, events, m) ==> Found(states[m].nodes[events[m].i], events[m].operation.key)
  }

  /** Every PUT passed that test when it was appended. */
  ghost predicate FoundPuts(states: seq<Cluster>, events: seq<Event>, k: nat)
    requires k <= |events| && |states| == |events| + 1
  {
    forall m {:trigger FoundPut(states, events, m)} :: 0 <= m < k ==> FoundPut(states, events, m)
  }

  /** One PUT that passed the test is in the result of the leader's log, whatever the other writes were. */
  lemma FoundInLog(replicas: nat, states: seq<Cluster>, events: seq<Event>, m: nat)
    requires Run(Truncate, replicas, states, events) && m < |events| && FoundPut(states, events, m)
    ensures InLog(states, events, m)
  {
    if AppendsPut(states, events, m) {
      FoundIff(replicas, states, events, m, events[m].i, events[m].operation.key);
    }
  }

  lemma FoundAllInLog(replicas: nat, states: seq<Cluster>, events: seq<Event>, k: nat)
    requires Run(Truncate, replicas, states, events) && k <= |events| && FoundPuts(states, events, k)
    ensures AllInLog(states, events, k)
  {
    forall m | 0 <= m < k
      ensures InLog(states, events, m)
    {
      assert FoundPut(states, events, m);
      FoundInLog(replicas, states, events, m);
    }
  }

  /** If every PUT passed the test, every PUT of every log finds its key. */
  lemma FoundPutsHit(replicas: nat, states: seq<Cluster>, events: seq<Event>, k: nat, i: nat)
    requires Run(Truncate, replicas, states, events) && k < |states| && i < |states[k].nodes|
    requires FoundPuts(states, events, k)
    ensures PutsHit(map[], states[k].nodes[i].raft.log) && PutsHit(map[], CommittedPart(states[k].nodes[i].raft))
  {
    FoundAllInLog(replicas, states, events, k);
    HitsAlways(replicas, states, events, k, i);
    var f := states[k].nodes[i].raft;
    if -1 <= f.commitIndex < |f.log| {
      PutsHitPrefix(map[], f.log, f.commitIndex + 1);
    }
  }

  /** No leader that appended a PUT had lost a value before. */
  ghost predicate LeadersKeep(states: seq<Cluster>, events: seq<Event>)
    requires |states| == |events| + 1
  {
    forall m {:trigger AppendsPut(states, events, m)} ::
      0 <= m < |events| && AppendsPut(states, events, m) ==> NoneLost(states, events, m, events[m].i)
  }

  /** Over such runs the test is as sharp as a test can be: every PUT of every log finds its key, at every moment, if
      and only if every PUT passed the test. */
  lemma AllHitIffFound(replicas: nat, states: seq<Cluster>, events: seq<Event>)
    requires Run(Truncate, replicas, states, events) && LeadersKeep(states, events)
    ensures AllHit(states) <==> FoundPuts(states, events, |events|)
  {
    AllHitIff(replicas, states, events);
    if FoundPuts(states, events, |events|) {
      FoundAllInLog(replicas, states, events, |events|);
    }
    if AllInLog(states, events, |events|) {
      forall m | 0 <= m < |events|
        ensures FoundPut(states, events, m)
      {
        assert InLog(states, events, m);
        if AppendsPut(states, events, m) {
          FoundIff(replicas, states, events, m, events[m].i, events[m].operation.key);
        }
      }
    }
  }

  // ----- The check of the code, and what it leaves out -----

  /** The check of the code before a PUT or DELETE: everything committed is applied, and a read of the store finds the
      key, which is there with another value than the text for a missing one. */
  predicate Checked(node: Node, op: Operation) {
    op.Put? || op.Delete? ==>
      && node.raft.commitIndex == node.raft.lastApplied
      && op.key in node.store && node.store[op.key] != INVALID
  }

  /** What it leaves out: an appended entry that is not applied yet may delete the key. */
  ghost predicate Safe(node: Node, op: Operation) {
    Checked(node, op)
    && (op.Put? ==>
          && -1 <= node.raft.lastApplied < |node.raft.log|
          && NoDelete(node.raft.log[node.raft.lastApplied + 1..], op.key))
  }

  ghost predicate SafePut(states: seq<Cluster>, events: seq<Event>, m: nat)
    requires m < |events| && |states| == |events| + 1
  {
    AppendsPut(states, events, m) ==> Safe(states[m].nodes[events[m].i], events[m].operation)
  }

  /** Every PUT was safe when it was appended. */
  ghost predicate SafePuts(states: seq<Cluster>, events: seq<Event>, k: nat)
    requires k <= |events| && |states| == |events| + 1
  {
    forall m {:trigger SafePut(states, events, m)} :: 0 <= m < k ==> SafePut(states, events, m)
  }

  /** One safe PUT is in the result of the leader's log, with nothing asked of other writes, halts or values. */
  lemma SafeInLog(replicas: nat, states: seq<Cluster>, events: seq<Event>, m: nat)
    requires Run(Truncate, replicas, states, events) && m < |events| && SafePut(states, events, m)
    ensures FoundPut(states, events, m) && InLog(states, events, m)
  {
    if AppendsPut(states, events, m) {
      var node := states[m].nodes[events[m].i];
      KeyStays(node.store, node.raft.log[node.raft.lastApplied + 1..], events[m].operation.key);
    }
    FoundInLog(replicas, states, events, m);
  }

  lemma SafePutsFound(replicas: nat, states: seq<Cluster>, events: seq<Event>, k: nat)
    requires Run(Truncate, replicas, states, events) && k <= |events| && SafePuts(states, events, k)
    ensures FoundPuts(states, events, k)
  {
    forall m | 0 <= m < k
      ensures FoundPut(states, events, m)
    {
      assert SafePut(states, events, m);
      SafeInLog(replicas, states, events, m);
    }
  }

  /** If every PUT was safe, every PUT of every log finds its key. */
  lemma SafeWritesHit(replicas: nat, states: seq<Cluster>, events: seq<Event>, k: nat, i: nat)
    requires Run(Truncate, replicas, states, events) && k < |states| && i < |states[k].nodes|
    requires SafePuts(states, events, k)
    ensures PutsHit(map[], states[k].nodes[i].raft.log) && PutsHit(map[], CommittedPart(states[k].nodes[i].raft))
  {
    SafePutsFound(replicas, states, events, k);
    FoundPutsHit(replicas, states, events, k, i);
  }

  // ----- Crash replay is then harmless -----

  lemma HitsHarmless(f: Fields, done: nat)
    requires PutsHit(map[], f.log)
    ensures Harmless(f, done)
  {
    if CanApply(f, done) {
      PutsHitStretch(f.log, f.lastApplied + 1, f.lastApplied + done + 1);
      PutsHitNoHazard(ApplyAll(map[], AppliedPart(f)), Batch(f, done));
    }
  }

  /** If all logs hit so far, no batch of a node held a hazard. */
  lemma HitsNoHazards(replicas: nat, states: seq<Cluster>, events: seq<Event>, k: nat, i: nat)
    requires Run(Truncate, replicas, states, events) && k <= |events| && i < replicas && AllInLog(states, events, k)
    ensures NoHazards(states, events, k, i)
  {
    forall j | 0 <= j < k && events[j].Apply? && events[j].i == i && i < |states[j].nodes|
      ensures Harmless(states[j].nodes[i].raft, events[j].done)
    {
      InLogUpTo(states, events, k, j);
      HitsAlways(replicas, states, events, j, i);
      HitsHarmless(states[j].nodes[i].raft, events[j].done);
    }
  }

  lemma InLogUpTo(states: seq<Cluster>, events: seq<Event>, n: nat, k: nat)
    requires k <= n <= |events| && |states| == |events| + 1 && AllInLog(states, events, n)
    ensures AllInLog(states, events, k)
  {
  }

  /** Every batch that a node ends leaves its store exact, whatever crashes it has had, if none of its own batches
      stopped early and nothing it has committed is empty. Other nodes, and other writes, do not matter. */
  lemma FoundPutsHeal(replicas: nat, states: seq<Cluster>, events: seq<Event>, k: nat, i: nat)
    requires Run(Truncate, replicas, states, events) && k < |events| && i < replicas && FoundPuts(states, events, k)
    requires events[k].Apply? && events[k].i == i && NoHalts(states, events, k + 1, i)
    requires i < |states[k].nodes| && Filled(states[k].nodes[i].raft)
    ensures i < |states[k + 1].nodes| && StoreExact(states[k + 1].nodes[i])
  {
    var n := k + 1;
    forall m | 0 <= m < n
      ensures FoundPut(states, events, m)
    {
      assert m < k ==> FoundPut(states, events, m);
    }
    FoundAllInLog(replicas, states, events, n);
    HitsNoHazards(replicas, states, events, n, i);
    ReplayHeals(replicas, states, events, k, i);
  }

  lemma SafeWritesHeal(replicas: nat, states: seq<Cluster>, events: seq<Event>, k: nat, i: nat)
    requires Run(Truncate, replicas, states, events) && k < |events| && i < replicas && SafePuts(states, events, k)
    requires events[k].Apply? && events[k].i == i && NoHalts(states, events, k + 1, i)
    requires i < |states[k].nodes| && Filled(states[k].nodes[i].raft)
    ensures i < |states[k + 1].nodes| && StoreExact(states[k + 1].nodes[i])
  {
    SafePutsFound(replicas, states, events, k);
    FoundPutsHeal(replicas, states, events, k, i);
  }
}
