/** Which keys a store has. Values depend on replays, on batches that stop early and on what a recovery drops; the keys
    do not, but for those that a recovery drops. */
module Presence {
  import opened Entries
  import opened Protocol
  import opened Replay
  import opened Cluster
  import opened Application

  // ----- One key -----

  /** Whether the key is there after the entries: the last POST or DELETE decides, and a PUT never does. */
  function ThereAfter(there: bool, entries: Log, key: Bytes): bool {
    if entries == [] then there
    else
      var e := entries[|entries| - 1];
      if Posts(e, key) then true
      else if Deletes(e, key) then false
      else ThereAfter(there, entries[..|entries| - 1], key)
  }

  lemma {:induction false} ApplyIsThere(m: Map, entries: Log, key: Bytes)
    ensures key in ApplyAll(m, entries) <==> ThereAfter(key in m, entries, key)
  {
    if entries != [] {
      ApplyIsThere(m, entries[..|entries| - 1], key);
    }
  }

  /** Either the entries decide or they leave the key as it was. */
  lemma {:induction false} Decided(entries: Log, key: Bytes)
    ensures NoPost(entries, key) && NoDelete(entries, key) ==> forall there :: ThereAfter(there, entries, key) == there
    ensures !(NoPost(entries, key) && NoDelete(entries, key)) ==>
      ThereAfter(true, entries, key) == ThereAfter(false, entries, key)
  {
    if entries != [] {
      var n := |entries| - 1;
      Decided(entries[..n], key);
      if !Posts(entries[n], key) && !Deletes(entries[n], key) && !(NoPost(entries, key) && NoDelete(entries, key)) {
        var i :| 0 <= i < |entries| && (Posts(entries[i], key) || Deletes(entries[i], key));
        assert entries[..n][i] == entries[i];
      }
    }
  }

  /** A pass over a beginning, and then one over everything, is one pass as far as the keys go. */
  lemma PassAgain(m: Map, entries: Log, done: nat, key: Bytes)
    requires done <= |entries|
    ensures key in ApplyAll(ApplyAll(m, entries[..done]), entries) <==> key in ApplyAll(m, entries)
  {
    var x := ApplyAll(m, entries[..done]);
    ApplyIsThere(m, entries[..done], key);
    ApplyIsThere(x, entries, key);
    ApplyIsThere(m, entries, key);
    Decided(entries, key);
    Decided(entries[..done], key);
  }

  /** With more keys at the start there are no fewer at the end. */
  lemma KeysRise(x: Map, y: Map, entries: Log)
    requires x.Keys <= y.Keys
    ensures ApplyAll(x, entries).Keys <= ApplyAll(y, entries).Keys
  {
    forall key | key in ApplyAll(x, entries)
      ensures key in ApplyAll(y, entries)
    {
      ApplyIsThere(x, entries, key);
      ApplyIsThere(y, entries, key);
      Decided(entries, key);
    }
  }

  lemma SameKeys(m: Map, entries: Log, done: nat)
    requires done <= |entries|
    ensures ApplyAll(ApplyAll(m, entries[..done]), entries).Keys == ApplyAll(m, entries).Keys
  {
    forall key
      ensures key in ApplyAll(ApplyAll(m, entries[..done]), entries) <==> key in ApplyAll(m, entries)
    {
      PassAgain(m, entries, done, key);
    }
  }

  // ----- One node -----

  /** The keys of the store once everything pending is applied. */
  ghost function KeysToCome(node: Node): set<Bytes> {
    ApplyAll(node.store, Pending(node.raft)).Keys
  }

  /** The keys of the result of everything committed, in order. */
  ghost function KeysCommitted(node: Node): set<Bytes> {
    ApplyAll(map[], CommittedPart(node.raft)).Keys
  }

  /** What a step does to the store of a node before a recovery. */
  function StoreBefore(x: Node, e: Event): Map
    requires e.CrashInApply? ==> CanApply(x.raft, e.done)
  {
    if e.CrashInApply? then ApplyAll(x.store, Batch(x.raft, e.done)) else x.store
  }

  /** The step is no recovery that meets an empty value. */
  ghost predicate Lossless(x: Node, e: Event) {
    && (e.Crash? ==> [] !in x.store.Values)
    && (e.CrashInApply? && CanApply(x.raft, e.done) ==> [] !in StoreBefore(x, e).Values)
  }

  /** The store is not ahead of the log by any key; `exact`, it is not behind by any, either. */
  ghost predicate KeysFollow(node: Node, exact: bool) {
    Follows(KeysToCome(node), KeysCommitted(node), exact)
  }

  ghost predicate Follows(come: set<Bytes>, committed: set<Bytes>, exact: bool) {
    come <= committed && (exact ==> come == committed)
  }

  lemma StretchOf(log: Log, c: nat, a: nat, b: nat)
    requires a <= b <= c <= |log|
    ensures log[a..b] == log[..c][a..b]
  {
  }

  /** What the next batch applies is the beginning of what is pending. */
  lemma BatchIsPending(f: Fields, done: nat)
    requires Regular(f) && CanApply(f, done)
    ensures done <= |Pending(f)| && Batch(f, done) == Pending(f)[..done]
  {
    var a, c := f.lastApplied + 1, f.commitIndex + 1;
    StretchOf(f.log[a..], c - a, 0, done);
    assert f.log[a..][..done] == f.log[a..a + done] && f.log[a..][..c - a] == f.log[a..c];
  }

  /** A recovery never adds a key, and without an empty value it takes none away; the pass before it does not matter. */
  lemma KeysAtCrash(x: Node, e: Event, y: Node)
    requires Proceeds(x, e, y) && (e.Crash? || e.CrashInApply?)
    ensures Follows(KeysToCome(y), KeysToCome(x), Lossless(x, e)) && KeysCommitted(y) == KeysCommitted(x)
  {
    var f, g := x.raft, y.raft;
    PartsKept(f, g);
    assert Pending(g) == Pending(f) && CommittedPart(g) == CommittedPart(f);
    var before := StoreBefore(x, e);
    LiveIs(before);
    KeysRise(Live(before), before, Pending(f));
    if e.CrashInApply? {
      BatchIsPending(f, e.done);
      SameKeys(x.store, Pending(f), e.done);
    }
  }

  /** The rest of the batch is still pending. */
  lemma PartsAtApply(f: Fields, g: Fields, done: nat)
    requires Regular(f) && Regular(g) && KeepsCommitted(f, g) && CanApply(f, done)
    requires g.commitIndex == f.commitIndex && g.lastApplied == f.lastApplied + done
    ensures CommittedPart(g) == CommittedPart(f) && Pending(f) == Batch(f, done) + Pending(g)
  {
    var a, b, c := f.lastApplied + 1, g.lastApplied + 1, f.commitIndex + 1;
    StretchOf(f.log, c, a, b);
    StretchOf(f.log, c, b, c);
    StretchOf(g.log, c, b, c);
    assert f.log[a..c] == f.log[a..b] + f.log[b..c];
  }

  lemma KeysAtApply(x: Node, e: Event, y: Node)
    requires Proceeds(x, e, y) && e.Apply?
    ensures KeysToCome(y) == KeysToCome(x) && KeysCommitted(y) == KeysCommitted(x)
  {
    PartsAtApply(x.raft, y.raft, e.done);
    ApplyAllSplit(x.store, Batch(x.raft, e.done), Pending(y.raft));
  }

  lemma FollowsLonger(store: Map, pending: Log, committed: Log, more: Log, exact: bool)
    requires Follows(ApplyAll(store, pending).Keys, ApplyAll(map[], committed).Keys, exact)
    ensures Follows(ApplyAll(store, pending + more).Keys, ApplyAll(map[], committed + more).Keys, exact)
  {
    ApplyAllSplit(store, pending, more);
    ApplyAllSplit(map[], committed, more);
    KeysRise(ApplyAll(store, pending), ApplyAll(map[], committed), more);
    if exact {
      KeysRise(ApplyAll(map[], committed), ApplyAll(store, pending), more);
    }
  }

  /** What becomes committed becomes pending. */
  lemma PartsAtRest(f: Fields, g: Fields) returns (more: Log)
    requires Regular(f) && Regular(g) && KeepsCommitted(f, g) && g.lastApplied == f.lastApplied
    ensures Pending(g) == Pending(f) + more && CommittedPart(g) == CommittedPart(f) + more
  {
    PartsKept(f, g);
    more := Pending(g)[|Pending(f)|..];
    var all, c := CommittedPart(g), f.commitIndex + 1;
    assert all == all[..c] + all[c..] && more == all[c..];
  }

  /** More becomes committed, for the store as for the log. */
  lemma KeysAtRest(x: Node, e: Event, y: Node, exact: bool)
    requires Proceeds(x, e, y) && !e.Apply? && !e.Crash? && !e.CrashInApply?
    requires KeysFollow(x, exact)
    ensures KeysFollow(y, exact)
  {
    var more := PartsAtRest(x.raft, y.raft);
    FollowsLonger(x.store, Pending(x.raft), CommittedPart(x.raft), more, exact);
  }

  lemma KeysKept(x: Node, e: Event, y: Node, exact: bool)
    requires Proceeds(x, e, y) && KeysFollow(x, exact)
    ensures KeysFollow(y, exact && Lossless(x, e))
  {
    if e.Apply? {
      KeysAtApply(x, e, y);
    } else if e.Crash? || e.CrashInApply? {
      KeysAtCrash(x, e, y);
      FollowsThrough(KeysToCome(y), KeysToCome(x), KeysCommitted(x), Lossless(x, e), exact);
    } else {
      KeysAtRest(x, e, y, exact);
      FollowsThrough(KeysToCome(y), KeysToCome(y), KeysCommitted(y), true, exact);
    }
  }

  lemma FollowsThrough(a: set<Bytes>, b: set<Bytes>, c: set<Bytes>, first: bool, second: bool)
    requires Follows(a, b, first) && Follows(b, c, second)
    ensures Follows(a, c, first && second)
  {
  }

  // ----- Runs -----

  /** No recovery of node `i` before moment `k` met an empty value. */
  ghost predicate NoneLost(states: seq<Cluster>, events: seq<Event>, k: nat, i: nat)
    requires k <= |events| && |states| == |events| + 1
  {
    forall j :: 0 <= j < k && Site(events[j]) == i && i < |states[j].nodes| ==> Lossless(states[j].nodes[i], events[j])
  }

  /** In every state of every run, whatever crashes, halts and values there were: once all that is committed is applied,
      a node's store is ahead of its log by no key, and behind by none if no recovery met an empty value. */
  lemma {:induction false} KeysFollowLog(replicas: nat, states: seq<Cluster>, events: seq<Event>, k: nat, i: nat)
    requires Run(Truncate, replicas, states, events) && k < |states| && i < replicas
    ensures |states[k].nodes| == replicas && KeysFollow(states[k].nodes[i], NoneLost(states, events, k, i))
    decreases k
  {
    if k > 0 {
      var j := k - 1;
      KeysFollowLog(replicas, states, events, j, i);
      StoreContext(replicas, states, events, j, i);
      if NoneLost(states, events, k, i) {
        FewerLost(states, events, k, i);
      }
      if i == Site(events[j]) {
        KeysKept(states[j].nodes[i], events[j], states[k].nodes[i], NoneLost(states, events, j, i));
      }
    }
  }

  lemma FewerLost(states: seq<Cluster>, events: seq<Event>, k: nat, i: nat)
    requires 0 < k <= |events| && |states| == |events| + 1 && NoneLost(states, events, k, i)
    ensures NoneLost(states, events, k - 1, i)
    ensures Site(events[k - 1]) == i && i < |states[k - 1].nodes| ==> Lossless(states[k - 1].nodes[i], events[k - 1])
  {
  }

  /** If nothing committed has an empty value, no recovery has met one. */
  lemma {:induction false} FilledNoneLost(replicas: nat, states: seq<Cluster>, events: seq<Event>, k: nat, i: nat)
    requires Run(Truncate, replicas, states, events) && k < |states| && i < replicas
    requires i < |states[k].nodes| && Filled(states[k].nodes[i].raft)
    ensures NoneLost(states, events, k, i) && [] !in states[k].nodes[i].store.Values
    decreases k
  {
    if k > 0 {
      FilledBefore(replicas, states, events, k - 1, i);
      FilledNoneLost(replicas, states, events, k - 1, i);
      StoreContext(replicas, states, events, k - 1, i);
      if i == Site(events[k - 1]) {
        FilledStep(states[k - 1].nodes[i], events[k - 1], states[k].nodes[i]);
      }
      OneMoreLost(states, events, k, i);
    }
  }

  lemma OneMoreLost(states: seq<Cluster>, events: seq<Event>, k: nat, i: nat)
    requires 0 < k <= |events| && |states| == |events| + 1 && NoneLost(states, events, k - 1, i)
    requires Site(events[k - 1]) == i && i < |states[k - 1].nodes| ==> Lossless(states[k - 1].nodes[i], events[k - 1])
    ensures NoneLost(states, events, k, i)
  {
  }

  lemma FilledStep(x: Node, e: Event, y: Node)
    requires Proceeds(x, e, y) && Filled(x.raft) && [] !in x.store.Values
    ensures Lossless(x, e) && [] !in y.store.Values
  {
    var f := x.raft;
    if e.Apply? || e.CrashInApply? {
      FilledParts(f);
      BatchIsPending(f, e.done);
      UnwrittenAbsent(x.store, Batch(f, e.done), []);
    }
  }
}
