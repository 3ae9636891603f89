/** What reaches the key-value store of each node, over runs with crashes. */
module Application {
  import opened Entries
  import opened Protocol
  import opened Replay
  import opened Cluster
  import Effects
  import opened Tokens
  import Theorems
  import Counting

  // ----- What has been applied, and what comes next -----

  /** The part of the log that has been applied. */
  function AppliedPart(f: Fields): Log {
    if -1 <= f.lastApplied < |f.log| then f.log[..f.lastApplied + 1] else []
  }

  function CommittedPart(f: Fields): Log {
    if -1 <= f.commitIndex < |f.log| then f.log[..f.commitIndex + 1] else []
  }

  /** Committed and not yet known to be applied. */
  function Pending(f: Fields): Log {
    if -1 <= f.lastApplied <= f.commitIndex < |f.log| then f.log[f.lastApplied + 1..f.commitIndex + 1] else []
  }

  /** How far into the pending entries an interrupted batch can have got. */
  function Reach(f: Fields): int {
    if f.commitsReady == [] then 0 else f.commitsReady[0]
  }

  ghost predicate Regular(f: Fields) {
    TokensOk(f) && -1 <= f.lastApplied <= f.commitIndex < |f.log| && 0 <= Reach(f) <= |Pending(f)|
  }

  lemma RegularAlways(replicas: nat, states: seq<Cluster>, events: seq<Event>, k: nat, i: nat)
    requires Run(Truncate, replicas, states, events) && k < |states| && i < replicas
    ensures |states[k].nodes| == replicas && Regular(states[k].nodes[i].raft)
  {
    TokensInBounds(Truncate, replicas, states, events, k, i);
    var f := states[k].nodes[i].raft;
    SumNonNegative(f.commitsReady);
    if f.commitsReady != [] {
      SumNonNegative(f.commitsReady[1..]);
    }
  }

  /** The next state's log agrees with this one's as far as this one had committed. */
  ghost predicate KeepsCommitted(f: Fields, g: Fields)
    requires Regular(f) && Regular(g)
  {
    f.commitIndex <= g.commitIndex && f.log[..f.commitIndex + 1] == g.log[..f.commitIndex + 1]
  }

  lemma PartsKept(f: Fields, g: Fields)
    requires Regular(f) && Regular(g) && KeepsCommitted(f, g) && f.lastApplied == g.lastApplied
    ensures AppliedPart(g) == AppliedPart(f) && Pending(f) <= Pending(g)
  {
    ShorterPrefix(f.log, g.log, f.lastApplied + 1, f.commitIndex + 1);
    assert Pending(f) == f.log[..f.commitIndex + 1][f.lastApplied + 1..];
    assert Pending(g)[..|Pending(f)|] == g.log[..f.commitIndex + 1][f.lastApplied + 1..];
  }

  /** Committed entries stay in place from one state of a run to the next. */
  lemma Stays(replicas: nat, states: seq<Cluster>, events: seq<Event>, k: nat, i: nat)
    requires Run(Truncate, replicas, states, events) && k < |events| && i < replicas
    ensures |states[k].nodes| == |states[k + 1].nodes| == replicas
    ensures Regular(states[k].nodes[i].raft) && Regular(states[k + 1].nodes[i].raft)
    ensures KeepsCommitted(states[k].nodes[i].raft, states[k + 1].nodes[i].raft)
  {
    RegularAlways(replicas, states, events, k, i);
    RegularAlways(replicas, states, events, k + 1, i);
    Counting.SeenStep(Truncate, replicas, states, events, k, i);
    var c := states[k].nodes[i].raft.commitIndex;
    if c >= 0 {
      Theorems.StateMachineSafety(replicas, states, events, k, k + 1, i, i, c);
    }
  }

  /** One step of node `i` as far as its store is concerned. */
  ghost predicate Proceeds(x: Node, e: Event, y: Node) {
    && Regular(x.raft) && Regular(y.raft) && KeepsCommitted(x.raft, y.raft) && Effects.Acts(x, e, y)
  }

  /** A node either rests or proceeds. */
  lemma StoreContext(replicas: nat, states: seq<Cluster>, events: seq<Event>, k: nat, i: nat)
    requires Run(Truncate, replicas, states, events) && k < |events| && i < replicas
    ensures |states[k].nodes| == |states[k + 1].nodes| == replicas
    ensures Regular(states[k].nodes[i].raft) && Regular(states[k + 1].nodes[i].raft)
    ensures KeepsCommitted(states[k].nodes[i].raft, states[k + 1].nodes[i].raft)
    ensures if i == Site(events[k]) then Proceeds(states[k].nodes[i], events[k], states[k + 1].nodes[i])
            else states[k + 1].nodes[i] == states[k].nodes[i]
  {
    Stays(replicas, states, events, k, i);
    Counting.SeenStep(Truncate, replicas, states, events, k, i);
  }

  /** After a batch the applied part is longer by the batch. */
  lemma BatchApplied(x: Node, y: Node, done: nat)
    requires Regular(x.raft) && Regular(y.raft) && KeepsCommitted(x.raft, y.raft) && Effects.AppliedBatch(x, y, done)
    ensures AppliedPart(y.raft) == AppliedPart(x.raft) + Batch(x.raft, done)
    ensures Batch(x.raft, done) == Pending(x.raft)[..done]
  {
    var f, g := x.raft, y.raft;
    SumNonNegative(f.commitsReady[1..]);
    ShorterPrefix(f.log, g.log, g.lastApplied + 1, f.commitIndex + 1);
    assert f.log[..g.lastApplied + 1] == f.log[..f.lastApplied + 1] + Batch(f, done);
  }

  // ----- The store -----

  /** The store is the in-order result of the entries applied so far. */
  ghost predicate StoreExact(node: Node) {
    node.store == ApplyAll(map[], AppliedPart(node.raft))
  }

  /** Every step but a crash inside a batch keeps the store exact, a restart exactly if no value is empty. */
  lemma ExactStep(x: Node, e: Event, y: Node)
    requires Proceeds(x, e, y) && !e.CrashInApply? && StoreExact(x)
    ensures StoreExact(y) <==> (e.Crash? ==> [] !in x.store.Values)
  {
    match e {
      case Apply(_, done) =>
        BatchApplied(x, y, done);
        ApplyAllSplit(map[], AppliedPart(x.raft), Batch(x.raft, done));
      case Crash(_) =>
        PartsKept(x.raft, y.raft);
        LiveIs(x.store);
      case _ => PartsKept(x.raft, y.raft);
    }
  }

  /** No crash of node `i` before moment `k` fell into the middle of a batch. */
  ghost predicate WholeBatches(events: seq<Event>, k: nat, i: nat)
    requires k <= |events|
  {
    forall j :: 0 <= j < k ==> !(events[j].CrashInApply? && events[j].i == i)
  }

  /** No restart of node `i` before moment `k` met an empty value. */
  ghost predicate NothingLost(states: seq<Cluster>, events: seq<Event>, k: nat, i: nat)
    requires k <= |events| && |states| == |events| + 1
  {
    forall j :: 0 <= j < k && events[j] == Crash(i) && i < |states[j].nodes| ==> [] !in states[j].nodes[i].store.Values
  }

  ghost predicate ExactUpTo(states: seq<Cluster>, k: nat, i: nat)
    requires k < |states|
  {
    forall j :: 0 <= j <= k && i < |states[j].nodes| ==> StoreExact(states[j].nodes[i])
  }

  /** The store of a node is exact in every state up to `k` if and only if no restart met an empty value. */
  lemma {:induction false} StoreFollowsLogIff(replicas: nat, states: seq<Cluster>, events: seq<Event>, k: nat, i: nat)
    requires Run(Truncate, replicas, states, events) && k < |states| && i < replicas && WholeBatches(events, k, i)
    ensures ExactUpTo(states, k, i) <==> NothingLost(states, events, k, i)
    decreases k
  {
    if k > 0 {
      StoreFollowsLogIff(replicas, states, events, k - 1, i);
      if ExactUpTo(states, k - 1, i) {
        ExactOneMore(replicas, states, events, k - 1, i);
      }
    }
  }

  lemma ExactOneMore(replicas: nat, states: seq<Cluster>, events: seq<Event>, k: nat, i: nat)
    requires Run(Truncate, replicas, states, events) && k < |events| && i < replicas && WholeBatches(events, k + 1, i)
    requires ExactUpTo(states, k, i)
    ensures i < |states[k].nodes| && i < |states[k + 1].nodes|
    ensures StoreExact(states[k + 1].nodes[i]) <==> (events[k] == Crash(i) ==> [] !in states[k].nodes[i].store.Values)
  {
    StoreContext(replicas, states, events, k, i);
    if i == Site(events[k]) {
      ExactStep(states[k].nodes[i], events[k], states[k + 1].nodes[i]);
    }
  }

  /** A store that has only been given values that are not empty is exact, whatever restarts there were. */
  lemma {:induction false} StoreFollowsLog(replicas: nat, states: seq<Cluster>, events: seq<Event>, k: nat, i: nat)
    requires Run(Truncate, replicas, states, events) && k < |states| && i < replicas && WholeBatches(events, k, i)
    requires i < |states[k].nodes| && NeverWritten(AppliedPart(states[k].nodes[i].raft), [])
    ensures StoreExact(states[k].nodes[i]) && [] !in states[k].nodes[i].store.Values
    decreases k
  {
    if k > 0 {
      StoreContext(replicas, states, events, k - 1, i);
      if i == Site(events[k - 1]) {
        AppliedGrows(states[k - 1].nodes[i], events[k - 1], states[k].nodes[i]);
        PrefixUnwritten(AppliedPart(states[k - 1].nodes[i].raft), AppliedPart(states[k].nodes[i].raft));
      }
      StoreFollowsLog(replicas, states, events, k - 1, i);
      if i == Site(events[k - 1]) {
        ExactStep(states[k - 1].nodes[i], events[k - 1], states[k].nodes[i]);
      }
    }
    UnwrittenAbsent(map[], AppliedPart(states[k].nodes[i].raft), []);
  }

  lemma AppliedGrows(x: Node, e: Event, y: Node)
    requires Proceeds(x, e, y)
    ensures AppliedPart(x.raft) <= AppliedPart(y.raft)
  {
    if e.Apply? {
      BatchApplied(x, y, e.done);
    } else {
      PartsKept(x.raft, y.raft);
    }
  }

  lemma PrefixUnwritten(a: Log, b: Log)
    requires a <= b && NeverWritten(b, [])
    ensures NeverWritten(a, [])
  {
    forall j | 0 <= j < |a|
      ensures !Writes(a[j].operation, [])
    {
      assert a[j] == b[j];
    }
  }

  // ----- Crashes in the middle of a batch -----

  /** The store is the result of the applied part and of some interrupted passes over the oldest batch. */
  ghost predicate MidBatch(node: Node) {
    var f := node.raft;
    exists cuts :: Interrupted(AppliedPart(f), Pending(f), Reach(f), node.store, cuts)
  }

  ghost predicate Interrupted(applied: Log, pending: Log, reach: int, store: Map, cuts: seq<nat>) {
    && Cuts(pending, cuts)
    && (forall c :: 0 <= c < |cuts| ==> cuts[c] <= reach)
    && store == Replays(ApplyAll(map[], applied), pending, cuts)
  }

  /** The passes stay what they were when more becomes pending. */
  lemma InterruptedLonger(applied: Log, short: Log, long: Log, reach: int, reach2: int, store: Map, cuts: seq<nat>)
    requires Interrupted(applied, short, reach, store, cuts) && short <= long && reach <= reach2
    ensures Interrupted(applied, long, reach2, store, cuts)
  {
    ReplaysLonger(ApplyAll(map[], applied), short, long, cuts);
  }

  /** If nothing was announced, no pass has changed anything. */
  lemma InterruptedNowhere(applied: Log, short: Log, long: Log, reach: int, reach2: int, store: Map, cuts: seq<nat>)
    requires Interrupted(applied, short, reach, store, cuts) && (reach == 0 || short == [])
    ensures Interrupted(applied, long, reach2, store, [])
  {
    NoReplay(ApplyAll(map[], applied), short, cuts);
  }

  lemma InterruptedAgain(applied: Log, pending: Log, reach: int, store: Map, cuts: seq<nat>, done: nat)
    requires Interrupted(applied, pending, reach, store, cuts) && done <= reach && done <= |pending|
    ensures Interrupted(applied, pending, reach, ApplyAll(store, pending[..done]), cuts + [done])
  {
    var more := cuts + [done];
    assert more[..|more| - 1] == cuts;
  }

  /** Nothing that can be applied writes an empty value, so a recovery loses nothing. */
  lemma InterruptedLive(applied: Log, pending: Log, reach: int, store: Map, cuts: seq<nat>)
    requires Interrupted(applied, pending, reach, store, cuts)
    requires NeverWritten(applied, []) && NeverWritten(pending, [])
    ensures Live(store) == store
  {
    UnwrittenAbsent(map[], applied, []);
    ReplaysUnwritten(ApplyAll(map[], applied), pending, cuts, []);
    LiveIs(store);
  }

  /** No committed entry writes an empty value. */
  ghost predicate Filled(f: Fields) {
    NeverWritten(CommittedPart(f), [])
  }

  lemma FilledParts(f: Fields)
    requires Regular(f) && Filled(f)
    ensures NeverWritten(AppliedPart(f), []) && NeverWritten(Pending(f), [])
  {
    var log := CommittedPart(f);
    assert AppliedPart(f) == log[..f.lastApplied + 1] && Pending(f) == log[f.lastApplied + 1..];
  }

  /** The next `done` entries hold no hazard for a replay. */
  ghost predicate Harmless(f: Fields, done: nat) {
    CanApply(f, done) ==> !Hazardous(ApplyAll(map[], AppliedPart(f)), Batch(f, done))
  }

  /** Steps that apply nothing keep what the interrupted passes left. */
  lemma MidBatchRests(x: Node, e: Event, y: Node)
    requires Proceeds(x, e, y) && !e.Apply? && !e.CrashInApply? && Filled(x.raft)
    requires MidBatch(x)
    ensures MidBatch(y)
  {
    var f, g := x.raft, y.raft;
    var cuts :| Interrupted(AppliedPart(f), Pending(f), Reach(f), x.store, cuts);
    PartsKept(f, g);
    if e.Crash? {
      FilledParts(f);
      InterruptedLive(AppliedPart(f), Pending(f), Reach(f), x.store, cuts);
    }
    if f.commitsReady == [] {
      InterruptedNowhere(AppliedPart(f), Pending(f), Pending(g), Reach(f), Reach(g), x.store, cuts);
    } else {
      ReachKept(x, e, y);
      InterruptedLonger(AppliedPart(f), Pending(f), Pending(g), Reach(f), Reach(g), x.store, cuts);
    }
  }

  lemma ReachKept(x: Node, e: Event, y: Node)
    requires Proceeds(x, e, y) && !e.Apply? && x.raft.commitsReady != []
    ensures Reach(x.raft) <= Reach(y.raft)
  {
    PartsKept(x.raft, y.raft);
  }

  /** One more interrupted pass, and a recovery. */
  lemma InterruptedCrash(
    applied: Log, short: Log, long: Log, reach: int, reach2: int, store: Map, cuts: seq<nat>, done: nat)
    requires Interrupted(applied, short, reach, store, cuts) && done <= reach <= reach2 && done <= |short|
    requires short <= long
    requires NeverWritten(applied, []) && NeverWritten(short, [])
    ensures Interrupted(applied, long, reach2, Live(ApplyAll(store, short[..done])), cuts + [done])
  {
    var after := ApplyAll(store, short[..done]);
    InterruptedAgain(applied, short, reach, store, cuts, done);
    InterruptedLive(applied, short, reach, after, cuts + [done]);
    InterruptedLonger(applied, short, long, reach, reach2, after, cuts + [done]);
  }

  lemma MidBatchCrash(x: Node, e: Event, y: Node)
    requires Proceeds(x, e, y) && e.CrashInApply? && Filled(x.raft)
    requires MidBatch(x)
    ensures MidBatch(y)
  {
    var f, g := x.raft, y.raft;
    var cuts :| Interrupted(AppliedPart(f), Pending(f), Reach(f), x.store, cuts);
    PartsKept(f, g);
    FilledParts(f);
    ReachKept(x, e, y);
    assert Batch(f, e.done) == Pending(f)[..e.done];
    InterruptedCrash(AppliedPart(f), Pending(f), Pending(g), Reach(f), Reach(g), x.store, cuts, e.done);
  }

  /** A batch that runs to its end leaves the store exact, whatever the interrupted passes did. */
  lemma MidBatchEnds(x: Node, e: Event, y: Node)
    requires Proceeds(x, e, y) && e.Apply? && e.done == Reach(x.raft) && Harmless(x.raft, e.done)
    requires MidBatch(x)
    ensures StoreExact(y)
  {
    var f := x.raft;
    var cuts :| Interrupted(AppliedPart(f), Pending(f), Reach(f), x.store, cuts);
    var m, batch := ApplyAll(map[], AppliedPart(f)), Batch(f, e.done);
    BatchApplied(x, y, e.done);
    ReplaysLonger(m, batch, Pending(f), cuts);
    ReplaysHarmless(m, batch, cuts);
    ApplyAllSplit(map[], AppliedPart(f), batch);
  }

  lemma ExactMidBatch(node: Node)
    requires StoreExact(node)
    ensures MidBatch(node)
  {
    var f := node.raft;
    assert Interrupted(AppliedPart(f), Pending(f), Reach(f), node.store, []);
  }

  /** No batch that node `i` finished before moment `k` held a hazard. */
  ghost predicate NoHazards(states: seq<Cluster>, events: seq<Event>, k: nat, i: nat)
    requires k <= |events| && |states| == |events| + 1
  {
    forall j :: 0 <= j < k && events[j].Apply? && events[j].i == i && i < |states[j].nodes| ==>
      Harmless(states[j].nodes[i].raft, events[j].done)
  }

  lemma FewerHazards(states: seq<Cluster>, events: seq<Event>, k: nat, i: nat)
    requires 0 < k <= |events| && |states| == |events| + 1 && NoHazards(states, events, k, i)
    ensures NoHazards(states, events, k - 1, i)
    ensures events[k - 1].Apply? && events[k - 1].i == i && i < |states[k - 1].nodes| ==>
      Harmless(states[k - 1].nodes[i].raft, events[k - 1].done)
  {
  }

  /** Over every run, crashes in the middle of batches included. */
  lemma {:induction false} MidBatchAlways(replicas: nat, states: seq<Cluster>, events: seq<Event>, k: nat, i: nat)
    requires Run(Truncate, replicas, states, events) && k < |states| && i < replicas
    requires NoHalts(states, events, k, i) && NoHazards(states, events, k, i)
    requires i < |states[k].nodes| && Filled(states[k].nodes[i].raft)
    ensures MidBatch(states[k].nodes[i])
    decreases k
  {
    if k == 0 {
      ExactMidBatch(states[0].nodes[i]);
    } else {
      FilledBefore(replicas, states, events, k - 1, i);
      FewerHalts(states, events, k, i);
      FewerHazards(states, events, k, i);
      MidBatchAlways(replicas, states, events, k - 1, i);
      MidBatchKept(replicas, states, events, k - 1, i);
    }
  }

  lemma FilledBefore(replicas: nat, states: seq<Cluster>, events: seq<Event>, k: nat, i: nat)
    requires Run(Truncate, replicas, states, events) && k < |events| && i < replicas
    requires i < |states[k + 1].nodes| && Filled(states[k + 1].nodes[i].raft)
    ensures i < |states[k].nodes| && Filled(states[k].nodes[i].raft)
  {
    Stays(replicas, states, events, k, i);
    var x, y := CommittedPart(states[k].nodes[i].raft), CommittedPart(states[k + 1].nodes[i].raft);
    assert x == y[..|x|];
    PrefixUnwritten(x, y);
  }

  lemma MidBatchKept(replicas: nat, states: seq<Cluster>, events: seq<Event>, k: nat, i: nat)
    requires Run(Truncate, replicas, states, events) && k < |events| && i < replicas
    requires i < |states[k].nodes| && Filled(states[k].nodes[i].raft) && MidBatch(states[k].nodes[i])
    requires Site(events[k]) == i ==> !Halts(states[k].nodes[i], events[k])
    requires events[k].Apply? && events[k].i == i ==> Harmless(states[k].nodes[i].raft, events[k].done)
    ensures i < |states[k + 1].nodes| && MidBatch(states[k + 1].nodes[i])
    ensures events[k].Apply? && events[k].i == i ==> StoreExact(states[k + 1].nodes[i])
  {
    StoreContext(replicas, states, events, k, i);
    if i == Site(events[k]) {
      MidBatchStep(states[k].nodes[i], events[k], states[k + 1].nodes[i]);
    }
  }

  lemma MidBatchStep(x: Node, e: Event, y: Node)
    requires Proceeds(x, e, y) && !Halts(x, e) && Filled(x.raft) && MidBatch(x)
    requires e.Apply? ==> Harmless(x.raft, e.done)
    ensures MidBatch(y)
    ensures e.Apply? ==> StoreExact(y)
  {
    if e.Apply? {
      MidBatchEnds(x, e, y);
      ExactMidBatch(y);
    } else if e.CrashInApply? {
      MidBatchCrash(x, e, y);
    } else {
      MidBatchRests(x, e, y);
    }
  }

  /** Crash replay is harmless: after any crashes, the next batch that runs to its end leaves the store exact,
      provided no batch holds a hazard and no value is empty. */
  lemma ReplayHeals(replicas: nat, states: seq<Cluster>, events: seq<Event>, k: nat, i: nat)
    requires Run(Truncate, replicas, states, events) && k < |events| && i < replicas
    requires NoHalts(states, events, k + 1, i) && NoHazards(states, events, k + 1, i)
    requires events[k].Apply? && events[k].i == i
    requires i < |states[k].nodes| && Filled(states[k].nodes[i].raft)
    ensures i < |states[k + 1].nodes| && StoreExact(states[k + 1].nodes[i])
  {
    FewerHalts(states, events, k + 1, i);
    FewerHazards(states, events, k + 1, i);
    MidBatchAlways(replicas, states, events, k, i);
    MidBatchKept(replicas, states, events, k, i);
  }

  /** Exact stores of any two nodes, at any two moments, agree when they have applied equally far. */
  lemma StoresAgree(replicas: nat, states: seq<Cluster>, events: seq<Event>, a: nat, b: nat, i: nat, j: nat)
    requires Run(Truncate, replicas, states, events)
    requires a < |states| && b < |states| && i < replicas && j < replicas
    requires i < |states[a].nodes| && j < |states[b].nodes|
    requires StoreExact(states[a].nodes[i]) && StoreExact(states[b].nodes[j])
    requires states[a].nodes[i].raft.lastApplied == states[b].nodes[j].raft.lastApplied
    ensures states[a].nodes[i].store == states[b].nodes[j].store
  {
    RegularAlways(replicas, states, events, a, i);
    RegularAlways(replicas, states, events, b, j);
    var last := states[a].nodes[i].raft.lastApplied;
    if last >= 0 {
      Theorems.StateMachineSafety(replicas, states, events, a, b, i, j, last);
    }
  }
}
