/** Runs of the code as written, whose merge keeps an old tail behind a conflict. */
module AsWritten {
  import opened Entries
  import opened Merging
  import opened MergeLaws
  import opened Consensus
  import Acceptance
  import opened Protocol
  import opened Cluster
  import Simulation
  import Refinement
  import Theorems
  import Chronicle

  /** The request gets past the term check and the check of the entry before the sent ones. */
  predicate Accepted(f: Fields, m: AppendEntriesMessage)
    requires m.prevLogIndex >= -1
  {
    f.currentTerm <= m.term && Matches(f.log, m.prevLogIndex, m.prevLogTerm)
  }

  /** Delivering `p` now leaves no old tail behind a conflict. */
  predicate SafeDelivery(s: Cluster, p: Packet) {
    p.AppendRequest? && p.dest < |s.nodes| && p.append.prevLogIndex >= -1
    && Accepted(s.nodes[p.dest].raft, p.append) ==>
      TailSafe(s.nodes[p.dest].raft.log, p.append.prevLogIndex, p.append.entries)
  }

  ghost predicate AllSafe(states: seq<Cluster>, events: seq<Event>)
    requires |states| == |events| + 1
  {
    forall k {:trigger events[k]} :: 0 <= k < |events| && events[k].DeliverAppend? ==>
      SafeDelivery(states[k], events[k].p)
  }

  /** A run of the code in which every delivery is safe is a run under the rule of Section 5.3,
      so every theorem about those runs holds for it. */
  lemma SafeRun(replicas: nat, states: seq<Cluster>, events: seq<Event>)
    requires Run(Overwrite, replicas, states, events)
    requires AllSafe(states, events)
    ensures Run(Truncate, replicas, states, events)
  {
    forall k | 0 <= k < |events|
      ensures Stepped(Truncate, states, events, k)
    {
      assert Stepped(Overwrite, states, events, k);
      if events[k].DeliverAppend? {
        SafeDeliveryIsTruncating(states[k], events[k].p);
      }
    }
  }

  lemma SafeDeliveryIsTruncating(s: Cluster, p: Packet)
    requires p.AppendRequest? && p.dest < |s.nodes| && p.append.prevLogIndex >= -1
    requires s.nodes[p.dest].raft.commitIndex >= -1
    requires SafeDelivery(s, p)
    ensures OnAppendEntries(Overwrite, s.nodes[p.dest].raft, p.append)
      == OnAppendEntries(Truncate, s.nodes[p.dest].raft, p.append)
  {
    var f, m := s.nodes[p.dest].raft, p.append;
    if Accepted(f, m) {
      MergesCoincide(f.log, m.prevLogIndex, m.entries);
    }
  }

  ghost predicate AllSorted(states: seq<Cluster>) {
    forall k, i {:trigger states[k].nodes[i]} :: 0 <= k < |states| && 0 <= i < |states[k].nodes| ==>
      Sorted(states[k].nodes[i].raft.log)
  }

  /** In a run of the code the terms stay in order in every log, at every moment, if and only if every
      delivery is safe. */
  lemma SortedIffSafe(replicas: nat, states: seq<Cluster>, events: seq<Event>)
    requires Run(Overwrite, replicas, states, events)
    ensures AllSorted(states) <==> AllSafe(states, events)
  {
    if AllSafe(states, events) {
      SafeRun(replicas, states, events);
      forall k, i | 0 <= k < |states| && 0 <= i < |states[k].nodes|
        ensures Sorted(states[k].nodes[i].raft.log)
      {
        Theorems.LogsSorted(replicas, states, events, k, i);
      }
    } else {
      var k := FirstUnsafe(states, events, |events|);
      var p := events[k].p;
      Chronicle.RunPrefix(Overwrite, replicas, states, events, k);
      SafeRun(replicas, states[..k + 1], events[..k]);
      assert Stepped(Overwrite, states, events, k);
      NextDelivery(replicas, states[..k + 1], events[..k], p, states[k + 1]);
      assert !Sorted(states[k + 1].nodes[p.dest].raft.log);
    }
  }

  lemma {:induction false} FirstUnsafe(states: seq<Cluster>, events: seq<Event>, n: nat) returns (k: nat)
    requires |states| == |events| + 1 && n <= |events|
    requires exists j :: 0 <= j < n && events[j].DeliverAppend? && !SafeDelivery(states[j], events[j].p)
    ensures k < n && events[k].DeliverAppend? && !SafeDelivery(states[k], events[k].p)
    ensures AllSafe(states[..k + 1], events[..k])
  {
    var j :| 0 <= j < n && events[j].DeliverAppend? && !SafeDelivery(states[j], events[j].p);
    if AllSafe(states[..j + 1], events[..j]) {
      k := j;
    } else {
      var i :| 0 <= i < j && events[..j][i].DeliverAppend? && !SafeDelivery(states[..j + 1][i], events[..j][i].p);
      assert events[..j][i] == events[i] && states[..j + 1][i] == states[i];
      k := FirstUnsafe(states, events, j);
    }
  }

  /** An unsafe delivery breaks Log Matching, between the log before it and the log after it: behind the sent entries
      both have the same entry, and below it they differ. */
  lemma TailMismatches(log: Log, prev: int, entries: Log) returns (c: nat)
    requires -1 <= prev < |log| && !TailSafe(log, prev, entries)
    ensures var z, end := Overwriting(log, prev, entries), prev + 1 + |entries|;
      c < end < |log| == |z| && z[end] == log[end] && z[c].term != log[c].term
    ensures !Matching(log, Overwriting(log, prev, entries))
  {
    var z, end := Overwriting(log, prev, entries), prev + 1 + |entries|;
    c := prev + 1 + Agreed(log, prev + 1, entries);
    AgreedStops(log, prev + 1, entries);
    OverwritingAt(log, prev, entries, c);
    OverwritingAt(log, prev, entries, end);
    DifferBelow(log, z, c, end);
  }

  /** Any two logs of the run, of whatever nodes and moments, agree up to every entry on whose term they agree. */
  ghost predicate AllMatch(states: seq<Cluster>) {
    forall a, b, i, j {:trigger states[a].nodes[i], states[b].nodes[j]} ::
      0 <= a < |states| && 0 <= b < |states| && 0 <= i < |states[a].nodes| && 0 <= j < |states[b].nodes| ==>
        Matching(states[a].nodes[i].raft.log, states[b].nodes[j].raft.log)
  }

  /** In a run of the code Log Matching holds between all moments if and only if every delivery is safe. */
  lemma MatchingIffSafe(replicas: nat, states: seq<Cluster>, events: seq<Event>)
    requires Run(Overwrite, replicas, states, events)
    ensures AllMatch(states) <==> AllSafe(states, events)
  {
    if AllSafe(states, events) {
      SafeRun(replicas, states, events);
      forall a, b, i, j
        | 0 <= a < |states| && 0 <= b < |states| && 0 <= i < |states[a].nodes| && 0 <= j < |states[b].nodes|
        ensures Matching(states[a].nodes[i].raft.log, states[b].nodes[j].raft.log)
      {
        LogsMatch(replicas, states, events, a, b, i, j);
      }
    } else {
      var k :| 0 <= k < |events| && events[k].DeliverAppend? && !SafeDelivery(states[k], events[k].p);
      assert Stepped(Overwrite, states, events, k);
      BreaksMatching(states[k], events[k].p, states[k + 1]);
    }
  }

  lemma LogsMatch(replicas: nat, states: seq<Cluster>, events: seq<Event>, a: nat, b: nat, i: nat, j: nat)
    requires Run(Truncate, replicas, states, events)
    requires a < |states| && b < |states| && i < |states[a].nodes| && j < |states[b].nodes|
    ensures Matching(states[a].nodes[i].raft.log, states[b].nodes[j].raft.log)
  {
    var x, y := states[a].nodes[i].raft.log, states[b].nodes[j].raft.log;
    forall c | 0 <= c < |x| && c < |y| && x[c].term == y[c].term
      ensures SameUpTo(x, y, c)
    {
      Theorems.RunLogMatching(replicas, states, events, a, b, i, j, c);
    }
  }

  lemma BreaksMatching(s: Cluster, p: Packet, z: Cluster)
    requires Step(Overwrite, s, DeliverAppend(p), z) && !SafeDelivery(s, p)
    ensures p.dest < |s.nodes| == |z.nodes| && !Matching(s.nodes[p.dest].raft.log, z.nodes[p.dest].raft.log)
  {
    WrittenLog(s, p, z);
    var c := TailMismatches(s.nodes[p.dest].raft.log, p.append.prevLogIndex, p.append.entries);
  }

  lemma DifferBelow(x: Log, y: Log, c: nat, i: nat)
    requires c <= i < |x| && i < |y| && x[c] != y[c]
    ensures !SameUpTo(x, y, i)
  {
    if SameUpTo(x, y, i) {
      SamePrefixAt(x, y, c, i + 1);
      assert false;
    }
  }

  /** What is left behind a conflict is older than the request. */
  lemma TailIsOlder(w: World, log: Log, m: Append)
    requires LeadersOk(w) && AppendOk(w, m)
    requires Known(w.leaders, log) && Sorted(log) && TermsUpTo(log, m.term)
    requires m.prev < |log| && Matches(log, m.prev, m.prevTerm)
    requires !TailSafe(log, m.prev, m.entries)
    ensures log[m.prev + 1 + |m.entries|].term < m.entries[|m.entries| - 1].term
  {
    var end := m.prev + 1 + |m.entries|;
    LastSent(w, m);
    Acceptance.AcceptedPrefix(w, log, m);
    if log[end].term == m.term {
      Acceptance.ReachesTerm(w, log, m.term, end);
      assert false;
    }
  }

  /** The last entry sent is of the leader's own term. */
  lemma LastSent(w: World, m: Append)
    requires LeadersOk(w) && AppendOk(w, m) && m.entries != []
    ensures m.entries[|m.entries| - 1].term == m.term
  {
    var end := m.prev + 1 + |m.entries|;
    Acceptance.LeaderTerm(w, m.term, end - 1);
    assert m.entries[|m.entries| - 1] == w.leaders[m.term].log[end - 1];
  }

  /** An old tail that is older than the last entry sent breaks the order of terms. */
  lemma TailStays(log: Log, prev: int, entries: Log, z: Log)
    requires -1 <= prev < |log| && !TailSafe(log, prev, entries) && z == Overwriting(log, prev, entries)
    requires log[prev + 1 + |entries|].term < entries[|entries| - 1].term
    ensures !Sorted(z)
  {
    var end := prev + 1 + |entries|;
    AgreedFits(log, prev + 1, entries);
    OverwritingAt(log, prev, entries, end - 1);
    OverwritingAt(log, prev, entries, end);
    assert z[end - 1].term > z[end].term;
  }

  /** After any run under Section 5.3, one more delivery by the code as written keeps the log in term
      order exactly when it is safe. The first unsafe delivery of a run therefore always breaks it. */
  lemma NextDelivery(replicas: nat, states: seq<Cluster>, events: seq<Event>, p: Packet, n: Cluster)
    requires Run(Truncate, replicas, states, events)
    requires var s := states[|events|];
      && Step(Overwrite, s, DeliverAppend(p), n)
      && Accepted(s.nodes[p.dest].raft, p.append)
    ensures Sorted(n.nodes[p.dest].raft.log) <==> SafeDelivery(states[|events|], p)
  {
    var k := |events|;
    var ws := Theorems.Explain(replicas, states, events);
    Theorems.At(states, events, ws, k, k, p.dest);
    assert Simulation.Sim(states[k], ws[k]);
    Refinement.PacketOf(states[k], ws[k], p);
    var f, m := states[k].nodes[p.dest].raft, p.append;
    WrittenLog(states[k], p, n);
    OverwrittenSorted(ws[k], f.log, Append(m.term, m.prevLogIndex, m.prevLogTerm, m.entries, m.leaderCommit));
  }

  lemma WrittenLog(s: Cluster, p: Packet, n: Cluster)
    requires Step(Overwrite, s, DeliverAppend(p), n) && Accepted(s.nodes[p.dest].raft, p.append)
    ensures p.dest < |n.nodes|
    ensures n.nodes[p.dest].raft.log == Overwriting(s.nodes[p.dest].raft.log, p.append.prevLogIndex, p.append.entries)
  {
  }

  lemma OverwrittenSorted(w: World, log: Log, m: Append)
    requires LeadersOk(w) && AppendOk(w, m)
    requires Known(w.leaders, log) && Sorted(log) && TermsUpTo(log, m.term)
    requires m.prev < |log| && Matches(log, m.prev, m.prevTerm)
    ensures Sorted(Overwriting(log, m.prev, m.entries)) <==> TailSafe(log, m.prev, m.entries)
  {
    if TailSafe(log, m.prev, m.entries) {
      SafeSorted(w, log, m, Overwriting(log, m.prev, m.entries));
    } else {
      UnsafeUnsorted(w, log, m, Overwriting(log, m.prev, m.entries));
    }
  }

  lemma UnsafeUnsorted(w: World, log: Log, m: Append, z: Log)
    requires LeadersOk(w) && AppendOk(w, m)
    requires Known(w.leaders, log) && Sorted(log) && TermsUpTo(log, m.term)
    requires m.prev < |log| && Matches(log, m.prev, m.prevTerm)
    requires !TailSafe(log, m.prev, m.entries) && z == Overwriting(log, m.prev, m.entries)
    ensures !Sorted(z)
  {
    TailIsOlder(w, log, m);
    TailStays(log, m.prev, m.entries, z);
  }

  lemma SafeSorted(w: World, log: Log, m: Append, z: Log)
    requires LeadersOk(w) && AppendOk(w, m)
    requires Known(w.leaders, log) && Sorted(log) && TermsUpTo(log, m.term)
    requires m.prev < |log| && Matches(log, m.prev, m.prevTerm)
    requires TailSafe(log, m.prev, m.entries) && z == Overwriting(log, m.prev, m.entries)
    ensures Sorted(z)
  {
    MergesCoincide(log, m.prev, m.entries);
    Acceptance.AcceptedPrefix(w, log, m);
    Acceptance.LeaderSorted(w, m.term, z);
  }
}
