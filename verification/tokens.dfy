/** The tokens that announce committed entries to the goroutine that applies them, over runs under either merge. */
module Tokens {
  import Protocol
  import opened Cluster
  import Effects
  import Counting

  function Sum(tokens: seq<int>): int {
    if tokens == [] then 0 else tokens[0] + Sum(tokens[1..])
  }

  lemma {:induction false} SumAppend(tokens: seq<int>, t: int)
    ensures Sum(tokens + [t]) == Sum(tokens) + t
    decreases |tokens|
  {
    if tokens == [] {
      assert tokens + [t] == [t];
    } else {
      assert (tokens + [t])[1..] == tokens[1..] + [t];
      SumAppend(tokens[1..], t);
    }
  }

  ghost predicate TokensOk(f: Protocol.Fields) {
    && -1 <= f.lastApplied
    && (forall k :: 0 <= k < |f.commitsReady| ==> f.commitsReady[k] >= 0)
    && f.lastApplied + Sum(f.commitsReady) <= f.commitIndex
  }

  /** Every committed entry is either applied or announced. */
  ghost predicate Balanced(f: Protocol.Fields) {
    f.lastApplied + Sum(f.commitsReady) == f.commitIndex
  }

  /** The batch stopped before its end. */
  ghost predicate Halts(x: Node, e: Event) {
    e.Apply? && x.raft.commitsReady != [] && e.done != x.raft.commitsReady[0]
  }

  lemma TokensKept(x: Node, e: Event, y: Node)
    requires TokensOk(x.raft) && Effects.Acts(x, e, y)
    ensures TokensOk(y.raft) && x.raft.commitIndex <= y.raft.commitIndex
    ensures Balanced(x.raft) && !Halts(x, e) ==> Balanced(y.raft)
    ensures e.Crash? || e.CrashInApply? ==> Balanced(y.raft)
  {
    var f := x.raft;
    SumNonNegative(f.commitsReady);
    if !e.Apply? && !e.Crash? && !e.CrashInApply? {
      SumAppend(f.commitsReady, y.raft.commitIndex - f.commitIndex);
    }
  }

  lemma {:induction false} SumNonNegative(tokens: seq<int>)
    requires forall k :: 0 <= k < |tokens| ==> tokens[k] >= 0
    ensures Sum(tokens) >= 0
    decreases |tokens|
  {
    if tokens != [] {
      SumNonNegative(tokens[1..]);
    }
  }

  // ----- Over runs -----

  /** Over every run: what is applied plus what is announced never exceeds what is committed, so the
      slice of entries to apply always lies inside the log. */
  lemma {:induction false} TokensInBounds(
    rule: Protocol.Rule, replicas: nat, states: seq<Cluster>, events: seq<Event>, k: nat, i: nat)
    requires Run(rule, replicas, states, events) && k < |states| && i < replicas
    ensures |states[k].nodes| == replicas
    ensures var f := states[k].nodes[i].raft;
      && TokensOk(f) && f.commitIndex < |f.log|
      && (f.commitsReady != [] ==> CanApply(f, f.commitsReady[0]))
    decreases k
  {
    if k > 0 {
      TokensInBounds(rule, replicas, states, events, k - 1, i);
      Counting.SeenStep(rule, replicas, states, events, k - 1, i);
      if i == Site(events[k - 1]) {
        TokensKept(states[k - 1].nodes[i], events[k - 1], states[k].nodes[i]);
      }
    }
    Counting.CommitInLog(rule, replicas, states, events, k, i);
    var f := states[k].nodes[i].raft;
    if f.commitsReady != [] {
      SumNonNegative(f.commitsReady[1..]);
    }
  }

  /** No batch of node `i` stopped early before moment `k`. */
  ghost predicate NoHalts(states: seq<Cluster>, events: seq<Event>, k: nat, i: nat)
    requires k <= |events| && |states| == |events| + 1
  {
    forall j :: 0 <= j < k && Site(events[j]) == i && i < |states[j].nodes| ==> !Halts(states[j].nodes[i], events[j])
  }

  lemma FewerHalts(states: seq<Cluster>, events: seq<Event>, k: nat, i: nat)
    requires 0 < k <= |events| && |states| == |events| + 1 && NoHalts(states, events, k, i)
    ensures NoHalts(states, events, k - 1, i)
    ensures Site(events[k - 1]) == i && i < |states[k - 1].nodes| ==> !Halts(states[k - 1].nodes[i], events[k - 1])
  {
  }

  /** While no batch of the node halts, exactly the committed entries are applied or announced, crashes included. */
  lemma {:induction false} TokensConserved(
    rule: Protocol.Rule, replicas: nat, states: seq<Cluster>, events: seq<Event>, k: nat, i: nat)
    requires Run(rule, replicas, states, events) && k < |states| && i < replicas && NoHalts(states, events, k, i)
    ensures |states[k].nodes| == replicas && Balanced(states[k].nodes[i].raft)
    decreases k
  {
    if k > 0 {
      FewerHalts(states, events, k, i);
      TokensConserved(rule, replicas, states, events, k - 1, i);
      TokensInBounds(rule, replicas, states, events, k - 1, i);
      Counting.SeenStep(rule, replicas, states, events, k - 1, i);
      if i == Site(events[k - 1]) {
        TokensKept(states[k - 1].nodes[i], events[k - 1], states[k].nodes[i]);
      }
    }
  }
}
