/** The small steps of the protocol. */
module Steps {
  import opened Entries
  import Merging
  import opened Consensus

  ghost function SetReplica(w: World, v: nat, r: Replica): World
    requires v < |w.replicas|
  {
    w.(replicas := w.replicas[v := r])
  }

  // Step down: to a higher term, or as a candidate inside its own term. The vote is cleared either way.
  ghost predicate CanObserve(w: World, v: nat, term: nat) {
    && v < |w.replicas|
    && (term > w.replicas[v].term || (term == w.replicas[v].term && w.replicas[v].role == Candidate))
  }

  ghost function Observe(w: World, v: nat, term: nat): World
    requires CanObserve(w, v, term)
  {
    var r := w.replicas[v];
    SetReplica(w, v, r.(term := term, votedFor := -1, role := Follower, disk := r.log))
  }

  ghost predicate CanStand(w: World, v: nat) {
    v < |w.replicas| && w.replicas[v].role != Leader
  }

  /** Time-out: a new term, a vote for itself, and requests for the others' votes. */
  ghost function Stand(w: World, v: nat): World
    requires CanStand(w, v)
  {
    var r := w.replicas[v];
    SetReplica(w, v, r.(term := r.term + 1, votedFor := v, role := Candidate, disk := r.log)).(
      requests := w.requests + {Request(v, r.term + 1, LastIndex(r.log), LastTerm(r.log))})
  }

  ghost predicate CanGrant(w: World, v: nat, q: Request) {
    && v < |w.replicas| && q in w.requests && v != q.candidate
    && w.replicas[v].term == q.term && w.replicas[v].votedFor == -1
    && UpToDate(q.lastIndex, q.lastTerm, w.replicas[v].log)
  }

  ghost function Grant(w: World, v: nat, q: Request): World
    requires CanGrant(w, v, q)
  {
    var r := w.replicas[v];
    SetReplica(w, v, r.(votedFor := q.candidate, disk := r.log)).(
      votes := w.votes + {Vote(v, q.candidate, q.term, r.log)})
  }

  ghost predicate CanLead(w: World, c: nat, q: set<nat>) {
    && c < |w.replicas| && w.replicas[c].role == Candidate
    && c in q && Majority(q, |w.replicas|)
    && forall v :: v in q && v != c ==> HasVote(w, v, c, w.replicas[c].term)
  }

  ghost function VoteLog(w: World, v: nat, c: nat, t: nat): Log
    requires HasVote(w, v, c, t)
  {
    var x :| x in w.votes && x.voter == v && x.candidate == c && x.term == t;
    x.log
  }

  ghost function Elected(w: World, c: nat, q: set<nat>, noop: LogEntry): Leadership
    requires CanLead(w, c, q)
  {
    var r := w.replicas[c];
    Leadership(c, |r.log|, r.log + [noop],
      map v | v in q :: if v == c then r.log else VoteLog(w, v, c, r.term), {})
  }

  ghost function Lead(w: World, c: nat, q: set<nat>, noop: LogEntry): World
    requires CanLead(w, c, q)
  {
    var r := w.replicas[c];
    SetReplica(w, c, r.(role := Leader, log := r.log + [noop], disk := r.log + [noop])).(
      leaders := w.leaders[r.term := Elected(w, c, q, noop)])
  }

  ghost predicate CanExtend(w: World, n: nat, e: LogEntry) {
    && n < |w.replicas| && w.replicas[n].role == Leader
    && w.replicas[n].term in w.leaders
    && e.term == w.replicas[n].term
  }

  /** A leader appends a proposal; nothing is written to disk yet. */
  ghost function Extend(w: World, n: nat, e: LogEntry): World
    requires CanExtend(w, n, e)
  {
    var r := w.replicas[n];
    var l := w.leaders[r.term];
    SetReplica(w, n, r.(log := r.log + [e])).(
      leaders := w.leaders[r.term := l.(log := l.log + [e])])
  }

  ghost predicate CanAccept(w: World, v: nat, m: Append) {
    && v < |w.replicas| && m in w.appends && m.prev >= -1
    && w.replicas[v].term == m.term && w.replicas[v].role == Follower
    && m.prev < |w.replicas[v].log|
    && Merging.Matches(w.replicas[v].log, m.prev, m.prevTerm)
    && m.prev + |m.entries| >= 0
  }

  /** The commit index is clamped to the length of the follower's own log. */
  function Clamp(commit: int, leaderCommit: int, length: nat): int {
    if leaderCommit <= commit then commit
    else if leaderCommit < length then leaderCommit
    else length - 1
  }

  ghost function Accept(w: World, v: nat, m: Append): World
    requires CanAccept(w, v, m)
  {
    var r := w.replicas[v];
    var log := Merging.Truncating(r.log, m.prev, m.entries);
    SetReplica(w, v, r.(log := log, disk := log, commit := Clamp(r.commit, m.commit, |log|))).(
      acks := w.acks + {Ack(v, m.term, m.prev + |m.entries|)})
  }

  ghost function Flush(w: World, v: nat): World
    requires v < |w.replicas|
  {
    SetReplica(w, v, w.replicas[v].(disk := w.replicas[v].log))
  }

  ghost predicate CanSelfAck(w: World, n: nat) {
    && n < |w.replicas| && w.replicas[n].role == Leader
    && w.replicas[n].disk == w.replicas[n].log && |w.replicas[n].log| > 0
  }

  ghost function SelfAck(w: World, n: nat): World
    requires CanSelfAck(w, n)
  {
    w.(acks := w.acks + {Ack(n, w.replicas[n].term, |w.replicas[n].log| - 1)})
  }

  ghost predicate CanCommit(w: World, n: nat, i: nat) {
    && n < |w.replicas| && w.replicas[n].role == Leader
    && w.replicas[n].term in w.leaders
    && i !in w.leaders[w.replicas[n].term].done
    && Committed(w, w.replicas[n].term, i)
    && w.replicas[n].disk == w.replicas[n].log
  }

  /** The proposal at index `i` succeeded: the commit index moves by one, whatever `i` is. */
  ghost function Commit(w: World, n: nat, i: nat): World
    requires CanCommit(w, n, i)
  {
    var r := w.replicas[n];
    var l := w.leaders[r.term];
    SetReplica(w, n, r.(commit := r.commit + 1)).(
      leaders := w.leaders[r.term := l.(done := l.done + {i})])
  }

  ghost predicate CanSend(w: World, m: Append) {
    AppendOk(w, m)
  }

  ghost function Send(w: World, m: Append): World {
    w.(appends := w.appends + {m})
  }

  /** Only what is on disk survives. */
  ghost function Restart(w: World, v: nat): World
    requires v < |w.replicas|
  {
    SetReplica(w, v, w.replicas[v].(role := Follower, log := w.replicas[v].disk))
  }

  // ----- History only grows -----

  ghost predicate Grows(w: World, z: World) {
    && |w.replicas| == |z.replicas|
    && (forall v :: 0 <= v < |w.replicas| ==> w.replicas[v].term <= z.replicas[v].term)
    && (forall t :: t in w.leaders ==> t in z.leaders && LeaderGrows(w.leaders[t], z.leaders[t]))
    && w.votes <= z.votes && w.acks <= z.acks && w.requests <= z.requests && w.appends <= z.appends
  }

  ghost predicate LeaderGrows(l: Leadership, k: Leadership) {
    l.id == k.id && l.base == k.base && l.votes == k.votes && l.done <= k.done && l.log <= k.log
  }

  lemma GrowsTransitive(u: World, w: World, z: World)
    requires Grows(u, w) && Grows(w, z)
    ensures Grows(u, z)
  {
  }

  lemma LaterGrows(w: World, z: World, t2: nat, t: nat, k: nat)
    requires Grows(w, z) && t in w.leaders && t2 in w.leaders
    requires k < |w.leaders[t].log| && w.leaders[t2].base <= |w.leaders[t2].log|
    ensures Later(w, t2, t, k) <==> Later(z, t2, t, k)
  {
    assert w.leaders[t].log[..k + 1] == z.leaders[t].log[..k + 1];
    if k < |w.leaders[t2].log| {
      assert w.leaders[t2].log[..k + 1] == z.leaders[t2].log[..k + 1];
    }
  }

  lemma AllLaterGrows(w: World, z: World, t: nat, k: nat, hi: nat)
    requires Grows(w, z) && t in w.leaders && k < |w.leaders[t].log|
    requires forall t2 :: t2 in w.leaders ==> w.leaders[t2].base <= |w.leaders[t2].log|
    requires AllLater(z, t, k, hi)
    ensures AllLater(w, t, k, hi)
  {
    forall t2 | t2 in w.leaders && t < t2 < hi
      ensures Later(w, t2, t, k)
    {
      LaterGrows(w, z, t2, t, k);
    }
  }

  lemma HoldsGrows(w: World, z: World, log: Log, t: nat, k: nat)
    requires Grows(w, z) && Holds(w, log, t, k)
    ensures Holds(z, log, t, k)
  {
    assert w.leaders[t].log[..k + 1] == z.leaders[t].log[..k + 1];
  }

  lemma CommittedGrows(w: World, z: World, t: nat, k: nat)
    requires Grows(w, z) && Committed(w, t, k)
    ensures Committed(z, t, k)
  {
    var q :| QuorumAcked(w, t, k, q);
    forall v | v in q
      ensures AckedUpTo(z, v, t, k)
    {
      var a :| a in w.acks && a.replica == v && a.term == t && a.upto >= k;
      assert a in z.acks;
    }
    assert QuorumAcked(z, t, k, q);
  }

  lemma BackedGrows(w: World, z: World, b: nat, log: Log, b2: nat, log2: Log, c: int)
    requires Grows(w, z) && Backed(w, b, log, c) && b <= b2
    requires -1 <= c < |log| && c < |log2| && log[..c + 1] == log2[..c + 1]
    ensures Backed(z, b2, log2, c)
  {
    if c >= 0 {
      var t: nat, k: nat :| BackedBy(w, b, log, c, t, k);
      CommittedGrows(w, z, t, k);
      HoldsGrows(w, z, log, t, c);
      assert BackedBy(z, b2, log2, c, t, k);
    }
  }

  lemma KnownGrows(w: World, z: World, log: Log)
    requires Grows(w, z) && Known(w.leaders, log)
    ensures Known(z.leaders, log)
  {
    forall i | 0 <= i < |log|
      ensures Stamped(z.leaders, log, i, log[i].term)
    {
      var t := log[i].term;
      assert Stamped(w.leaders, log, i, t);
      assert w.leaders[t].log[..i + 1] == z.leaders[t].log[..i + 1];
    }
  }

  lemma HasVoteGrows(w: World, z: World, v: nat, c: nat, t: nat)
    requires Grows(w, z) && HasVote(w, v, c, t)
    ensures HasVote(z, v, c, t)
  {
    var x :| x in w.votes && x.voter == v && x.candidate == c && x.term == t;
    assert x in z.votes;
  }

  lemma AckedGrows(w: World, z: World, v: nat, t: nat, k: nat)
    requires Grows(w, z) && AckedUpTo(w, v, t, k)
    ensures AckedUpTo(z, v, t, k)
  {
    var a :| a in w.acks && a.replica == v && a.term == t && a.upto >= k;
    assert a in z.acks;
  }
}
