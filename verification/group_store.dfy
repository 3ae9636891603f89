/** From the replicated log to the buckets: what a client of any node can read, through any number of restarts. */
module GroupStore {
  import opened Entries
  import opened Protocol
  import opened Buckets
  import opened StoreLaws
  import opened Cluster
  import opened Application
  import Guard
  import Tokens
  import Effects
  import Replay

  // ----- The buckets of one node along a run -----

  /** A restart: the file is read, and its map walked in some order. */
  ghost predicate Recovers(x: Kv, y: Kv) {
    exists order :: RecoversBy(x, y, order)
  }

  ghost predicate RecoversBy(x: Kv, y: Kv, order: seq<Bytes>) {
    && NoRepeats(order) && (forall k :: k in order <==> k in x.shadow)
    && y == Kv(Rebuilt(x.shadow, order), x.shadow)
  }

  /** What an event at its node does to the buckets there. */
  ghost predicate BucketsStep(node: Node, e: Event, x: Kv, y: Kv)
    requires |x.buckets| == BUCKETS
  {
    match e
    case Apply(_, done) => CanApply(node.raft, done) && y == ExecuteAll(x, Batch(node.raft, done))
    case CrashInApply(_, done) => CanApply(node.raft, done) && Recovers(ExecuteAll(x, Batch(node.raft, done)), y)
    case Crash(_) => Recovers(x, y)
    case _ => y == x
  }

  /** `kvs` are the buckets and shadow maps of node `i` in the states of the run. */
  ghost predicate BucketsRun(states: seq<Cluster>, events: seq<Event>, i: nat, kvs: seq<Kv>) {
    && |kvs| == |states| == |events| + 1
    && kvs[0] == Empty()
    && (forall k {:trigger BucketsMove(states, events, i, kvs, k)} :: 0 <= k < |events| ==>
          BucketsMove(states, events, i, kvs, k))
  }

  ghost predicate BucketsMove(states: seq<Cluster>, events: seq<Event>, i: nat, kvs: seq<Kv>, k: nat)
    requires |kvs| == |states| == |events| + 1 && k < |events|
  {
    && |kvs[k].buckets| == BUCKETS && i < |states[k].nodes|
    && if i == Site(events[k]) then BucketsStep(states[k].nodes[i], events[k], kvs[k], kvs[k + 1])
       else kvs[k + 1] == kvs[k]
  }

  // ----- Against the map -----

  lemma RecoveredIsLive(x: Kv, y: Kv, m: Map)
    requires Means(x, m) && Recovers(x, y)
    ensures Means(y, Live(m))
  {
    var order :| RecoversBy(x, y, order);
    RecoveredMeans(x.shadow, order);
    assert Live(x.shadow) == Live(m);
  }

  lemma ExecutedMeans(x: Kv, m: Map, entries: Log)
    requires Means(x, m) && INVALID !in m.Values && Replay.NeverWritten(entries, INVALID)
    ensures Means(ExecuteAll(x, entries), ApplyAll(m, entries)) && INVALID !in ApplyAll(m, entries).Values
  {
    PlainHistory(x, m, entries);
    Replay.UnwrittenAbsent(m, entries, INVALID);
  }

  lemma BucketsFollow(x: Kv, node: Node, e: Event, y: Kv, next: Node)
    requires Means(x, node.store) && INVALID !in node.store.Values && BucketsStep(node, e, x, y)
    requires Effects.Acts(node, e, next)
    requires e.Apply? || e.CrashInApply? ==>
      CanApply(node.raft, e.done) && Replay.NeverWritten(Batch(node.raft, e.done), INVALID)
    ensures Means(y, next.store) && INVALID !in next.store.Values
  {
    match e {
      case Apply(_, done) => ExecutedMeans(x, node.store, Batch(node.raft, done));
      case CrashInApply(_, done) =>
        ExecutedMeans(x, node.store, Batch(node.raft, done));
        var batch := Batch(node.raft, done);
        RecoveredIsLive(ExecuteAll(x, batch), y, ApplyAll(node.store, batch));
      case Crash(_) => RecoveredIsLive(x, y, node.store);
      case _ =>
    }
  }

  /** In every state of every run, with crashes inside batches and any number of restarts, the buckets of a node stand
      for its map, as long as nothing it has committed writes the sentinel. */
  lemma {:induction false} NodeStoreIsMap(
    replicas: nat, states: seq<Cluster>, events: seq<Event>, kvs: seq<Kv>, k: nat, i: nat)
    requires Run(Truncate, replicas, states, events) && k < |states| && i < replicas
    requires BucketsRun(states, events, i, kvs)
    requires i < |states[k].nodes| && Replay.NeverWritten(CommittedPart(states[k].nodes[i].raft), INVALID)
    ensures Means(kvs[k], states[k].nodes[i].store) && INVALID !in states[k].nodes[i].store.Values
    decreases k
  {
    if k > 0 {
      UnwrittenBefore(replicas, states, events, k - 1, i);
      NodeStoreIsMap(replicas, states, events, kvs, k - 1, i);
      BucketsOneMore(replicas, states, events, kvs, k - 1, i);
    }
  }

  lemma UnwrittenBefore(replicas: nat, states: seq<Cluster>, events: seq<Event>, k: nat, i: nat)
    requires Run(Truncate, replicas, states, events) && k < |events| && i < replicas
    requires i < |states[k + 1].nodes| && Replay.NeverWritten(CommittedPart(states[k + 1].nodes[i].raft), INVALID)
    ensures i < |states[k].nodes| && Replay.NeverWritten(CommittedPart(states[k].nodes[i].raft), INVALID)
  {
    Stays(replicas, states, events, k, i);
    var x, y := CommittedPart(states[k].nodes[i].raft), CommittedPart(states[k + 1].nodes[i].raft);
    assert x == y[..|x|];
  }

  lemma BucketsOneMore(replicas: nat, states: seq<Cluster>, events: seq<Event>, kvs: seq<Kv>, k: nat, i: nat)
    requires Run(Truncate, replicas, states, events) && k < |events| && i < replicas
    requires BucketsRun(states, events, i, kvs)
    requires i < |states[k].nodes| && Replay.NeverWritten(CommittedPart(states[k].nodes[i].raft), INVALID)
    requires Means(kvs[k], states[k].nodes[i].store) && INVALID !in states[k].nodes[i].store.Values
    ensures i < |states[k + 1].nodes|
    ensures Means(kvs[k + 1], states[k + 1].nodes[i].store) && INVALID !in states[k + 1].nodes[i].store.Values
  {
    var e := events[k];
    StoreContext(replicas, states, events, k, i);
    assert BucketsMove(states, events, i, kvs, k);
    if i == Site(e) {
      if e.Apply? || e.CrashInApply? {
        BatchCommitted(states[k].nodes[i].raft, e.done);
      }
      BucketsFollow(kvs[k], states[k].nodes[i], e, kvs[k + 1], states[k + 1].nodes[i]);
    }
  }

  lemma BatchCommitted(f: Fields, done: nat)
    requires Regular(f) && CanApply(f, done) && Replay.NeverWritten(CommittedPart(f), INVALID)
    ensures Replay.NeverWritten(Batch(f, done), INVALID)
  {
    forall j | 0 <= j < done
      ensures Batch(f, done)[j] == CommittedPart(f)[f.lastApplied + 1 + j]
    {
    }
  }

  /** Such buckets exist along every run. */
  lemma {:induction false} BucketsExist(replicas: nat, states: seq<Cluster>, events: seq<Event>, k: nat, i: nat)
    returns (kvs: seq<Kv>)
    requires Run(Truncate, replicas, states, events) && k <= |events| && i < replicas
    ensures BucketsRun(states[..k + 1], events[..k], i, kvs) && |kvs[k].buckets| == BUCKETS
    decreases k
  {
    if k == 0 {
      kvs := [Empty()];
    } else {
      var front := BucketsExist(replicas, states, events, k - 1, i);
      StoreContext(replicas, states, events, k - 1, i);
      var y := BucketsNext(states[k - 1], events[k - 1], front[k - 1], i, states[k]);
      kvs := front + [y];
      BucketsLonger(states, events, i, front, y, k);
    }
  }

  lemma BucketsLonger(states: seq<Cluster>, events: seq<Event>, i: nat, front: seq<Kv>, y: Kv, k: nat)
    requires |states| == |events| + 1 && 0 < k <= |events| && i < |states[k - 1].nodes|
    requires BucketsRun(states[..k], events[..k - 1], i, front) && |front[k - 1].buckets| == BUCKETS
    requires if i == Site(events[k - 1]) then BucketsStep(states[k - 1].nodes[i], events[k - 1], front[k - 1], y)
             else y == front[k - 1]
    ensures BucketsRun(states[..k + 1], events[..k], i, front + [y])
  {
    var ss, es, kvs := states[..k + 1], events[..k], front + [y];
    forall j | 0 <= j < k
      ensures BucketsMove(ss, es, i, kvs, j)
    {
      if j < k - 1 {
        assert BucketsMove(states[..k], events[..k - 1], i, front, j);
      }
    }
  }

  lemma BucketsNext(s: Cluster, e: Event, x: Kv, i: nat, z: Cluster) returns (y: Kv)
    requires i < |s.nodes| && i < |z.nodes| && |x.buckets| == BUCKETS
    requires i == Site(e) ==> Effects.Acts(s.nodes[i], e, z.nodes[i])
    ensures |y.buckets| == BUCKETS
    ensures if i == Site(e) then BucketsStep(s.nodes[i], e, x, y) else y == x
  {
    y := x;
    if i == Site(e) {
      match e {
        case Apply(_, done) => y := ExecuteAll(x, Batch(s.nodes[i].raft, done));
        case CrashInApply(_, done) => y := SomeRecovery(ExecuteAll(x, Batch(s.nodes[i].raft, done)));
        case Crash(_) => y := SomeRecovery(x);
        case _ =>
      }
    }
  }

  lemma SomeRecovery(x: Kv) returns (y: Kv)
    ensures Recovers(x, y) && |y.buckets| == BUCKETS
  {
    var order := SomeOrder(x.shadow.Keys);
    y := Kv(Rebuilt(x.shadow, order), x.shadow);
    assert RecoversBy(x, y, order);
  }

  lemma {:induction false} SomeOrder(keys: set<Bytes>) returns (order: seq<Bytes>)
    ensures NoRepeats(order) && forall k :: k in order <==> k in keys
  {
    order := [];
    if keys != {} {
      var k :| k in keys;
      var rest := SomeOrder(keys - {k});
      order := rest + [k];
    }
  }

  // ----- What clients see -----

  /** Two nodes with exact stores that have applied equally far answer every GET alike, at whatever moments and after
      whatever restarts they are asked, if the sentinel was never written. */
  lemma NodesAnswerAlike(
    replicas: nat, states: seq<Cluster>, events: seq<Event>, ks: seq<Kv>, ls: seq<Kv>,
    a: nat, b: nat, i: nat, j: nat, key: Bytes)
    requires Run(Truncate, replicas, states, events) && a < |states| && b < |states| && i < replicas && j < replicas
    requires BucketsRun(states, events, i, ks) && BucketsRun(states, events, j, ls)
    requires i < |states[a].nodes| && j < |states[b].nodes|
    requires StoreExact(states[a].nodes[i]) && StoreExact(states[b].nodes[j])
    requires var f, g := states[a].nodes[i].raft, states[b].nodes[j].raft;
      && f.lastApplied == g.lastApplied
      && Replay.NeverWritten(CommittedPart(f), INVALID) && Replay.NeverWritten(CommittedPart(g), INVALID)
    ensures |ks[a].buckets| == |ls[b].buckets| == BUCKETS
    ensures Get(ks[a].buckets, key) == Get(ls[b].buckets, key)
    ensures Get(ks[a].buckets, key) == INVALID <==> key !in states[a].nodes[i].store
  {
    StoresAgree(replicas, states, events, a, b, i, j);
    NodeStoreIsMap(replicas, states, events, ks, a, i);
    NodeStoreIsMap(replicas, states, events, ls, b, j);
    GetTells(ks[a], states[a].nodes[i].store, key);
    GetTells(ls[b], states[b].nodes[j].store, key);
  }

  /** So they do whenever both have just finished a batch, however often either has crashed inside one, if every PUT of
      the run passed the test when it was appended, and neither node has had a batch stop early or an empty value. */
  lemma FoundPutsAnswerAlike(
    replicas: nat, states: seq<Cluster>, events: seq<Event>, ks: seq<Kv>, ls: seq<Kv>,
    a: nat, b: nat, i: nat, j: nat, key: Bytes)
    requires Run(Truncate, replicas, states, events) && a < |events| && b < |events| && i < replicas && j < replicas
    requires BucketsRun(states, events, i, ks) && BucketsRun(states, events, j, ls)
    requires Guard.FoundPuts(states, events, a) && Guard.FoundPuts(states, events, b)
    requires EndsBatch(states, events, a, i) && EndsBatch(states, events, b, j)
    requires i < |states[a + 1].nodes| && j < |states[b + 1].nodes|
    requires var f, g := states[a + 1].nodes[i].raft, states[b + 1].nodes[j].raft;
      && f.lastApplied == g.lastApplied
      && Replay.NeverWritten(CommittedPart(f), INVALID) && Replay.NeverWritten(CommittedPart(g), INVALID)
    ensures |ks[a + 1].buckets| == |ls[b + 1].buckets| == BUCKETS
    ensures Get(ks[a + 1].buckets, key) == Get(ls[b + 1].buckets, key)
  {
    Guard.FoundPutsHeal(replicas, states, events, a, i);
    Guard.FoundPutsHeal(replicas, states, events, b, j);
    NodesAnswerAlike(replicas, states, events, ks, ls, a + 1, b + 1, i, j, key);
  }

  /** Event `a` ends a batch of node `i`, which so far has stopped none early and committed no empty value. */
  ghost predicate EndsBatch(states: seq<Cluster>, events: seq<Event>, a: nat, i: nat)
    requires a < |events| && |states| == |events| + 1
  {
    && events[a].Apply? && events[a].i == i && Tokens.NoHalts(states, events, a + 1, i)
    && i < |states[a].nodes| && Filled(states[a].nodes[i].raft)
  }

  /** At a restart: the node goes on answering every GET as before if and only if no value in its store is empty. */
  lemma RestartAnswersAlike(x: Kv, node: Node, y: Kv, next: Node)
    requires Means(x, node.store) && INVALID !in node.store.Values && Recovers(x, y) && next == Restarted(node)
    ensures Means(y, next.store)
    ensures (forall key :: Get(x.buckets, key) == Get(y.buckets, key)) <==> [] !in node.store.Values
    ensures next.store == node.store <==> [] !in node.store.Values
  {
    RecoveredIsLive(x, y, node.store);
    Replay.LiveIs(node.store);
    if [] in node.store.Values {
      var key :| key in node.store && node.store[key] == [];
      AnswerLost(x, y, node.store, key);
    } else {
      forall key
        ensures Get(x.buckets, key) == Get(y.buckets, key)
      {
        GetTells(x, node.store, key);
        GetTells(y, node.store, key);
      }
    }
  }

  lemma AnswerLost(x: Kv, y: Kv, m: Map, key: Bytes)
    requires Means(x, m) && Means(y, Live(m)) && key in m && m[key] == []
    ensures Get(x.buckets, key) == [] && Get(y.buckets, key) == INVALID
  {
    GetTells(x, m, key);
    GetTells(y, Live(m), key);
  }

  /** With an empty value, a later PUT succeeds on a node that was not restarted and misses on one that was. */
  lemma EmptyValueDiverges(x: Kv, m: Map, y: Kv, key: Bytes, value: Bytes)
    requires Means(x, m) && Recovers(x, y) && key in m && m[key] == [] && value != INVALID
    ensures |x.buckets| == |y.buckets| == BUCKETS
    ensures Get(OnPut(x, key, value).buckets, key) == value && Get(OnPut(y, key, value).buckets, key) == INVALID
  {
    RecoveredIsLive(x, y, m);
    ExecuteMeansApply(x, m, Put(key, value));
    ExecuteMeansApply(y, Live(m), Put(key, value));
    GetTells(Execute(x, Put(key, value)), m[key := value], key);
    GetTells(Execute(y, Put(key, value)), Live(m), key);
  }
}
