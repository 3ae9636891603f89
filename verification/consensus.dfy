/** The part of the protocol that safety rests on, with the history needed to state
    why it is safe. `cluster.dfy` models the code in full; `simulation.dfy` shows that
    every step of the code is a few of the steps below. */
module Consensus {
  import opened Entries

  datatype Role = Follower | Candidate | Leader

  /** What safety needs of one node: `disk` is the log that would survive a crash. */
  datatype Replica = Replica(term: nat, votedFor: int, role: Role, log: Log, disk: Log, commit: int)

  /** The history of one term's leader: where its no-op went, everything it ever had in
      its log while leading, the logs of those who elected it, and the proposals it counted. */
  datatype Leadership = Leadership(id: nat, base: nat, log: Log, votes: map<nat, Log>, done: set<nat>)

  /** A vote cast for another node, with the voter's log at that moment. */
  datatype Vote = Vote(voter: nat, candidate: nat, term: nat, log: Log)

  /** `replica` stored the log of `term`'s leader up to `upto` while in that term. */
  datatype Ack = Ack(replica: nat, term: nat, upto: nat)

  datatype Request = Request(candidate: nat, term: nat, lastIndex: int, lastTerm: int)

  datatype Append = Append(term: nat, prev: int, prevTerm: int, entries: Log, commit: int)

  datatype World = World(
    replicas: seq<Replica>,
    leaders: map<nat, Leadership>,
    votes: set<Vote>,
    acks: set<Ack>,
    requests: set<Request>,
    appends: set<Append>)

  // ----- Quorums -----

  predicate Majority(q: set<nat>, n: nat) {
    && (forall v :: v in q ==> v < n)
    && 2 * |q| > n
  }

  function Below(n: nat): (r: set<nat>)
    ensures |r| == n && forall v: nat :: v in r <==> v < n
  {
    if n == 0 then {}
    else
      var r := Below(n - 1);
      var s := r + {n - 1};
      assert forall v: nat :: v in s <==> v < n;
      s
  }

  /** Any two majorities share a member. */
  lemma MajoritiesMeet(p: set<nat>, q: set<nat>, n: nat) returns (v: nat)
    requires Majority(p, n) && Majority(q, n)
    ensures v in p && v in q
  {
    if p * q == {} {
      assert |p + q| == |p| + |q|;
      SubsetSize(p + q, Below(n));
      assert false;
    }
    v :| v in p * q;
  }

  lemma SubsetSize(p: set<nat>, q: set<nat>)
    requires p <= q
    ensures |p| <= |q|
  {
    assert q == p + (q - p);
    assert |q| == |p| + |q - p|;
  }

  // ----- What the history says -----

  ghost predicate Known(leaders: map<nat, Leadership>, log: Log) {
    forall i {:trigger Stamped(leaders, log, i, log[i].term)} ::
      0 <= i < |log| ==> Stamped(leaders, log, i, log[i].term)
  }

  /** The log up to `i` is what the leader of `term` had there. */
  ghost predicate Stamped(leaders: map<nat, Leadership>, log: Log, i: nat, term: nat)
  {
    && term in leaders
    && i < |log| && i < |leaders[term].log|
    && log[..i + 1] == leaders[term].log[..i + 1]
  }

  /** `log` holds what the leader of `t` had up to and including `k`. */
  ghost predicate Holds(w: World, log: Log, t: nat, k: nat) {
    && t in w.leaders
    && k < |log| && k < |w.leaders[t].log|
    && log[..k + 1] == w.leaders[t].log[..k + 1]
  }

  /** The leader of `t2` started out with the log of `t`'s leader up to `k`. */
  ghost predicate Later(w: World, t2: nat, t: nat, k: nat)
  {
    && t2 in w.leaders
    && k < w.leaders[t2].base
    && Holds(w, w.leaders[t2].log, t, k)
  }

  ghost predicate AllLater(w: World, t: nat, k: nat, hi: nat) {
    forall t2 {:trigger Later(w, t2, t, k)} :: t2 in w.leaders && t < t2 < hi ==> Later(w, t2, t, k)
  }

  ghost predicate AckedUpTo(w: World, v: nat, t: nat, k: nat) {
    exists a :: a in w.acks && a.replica == v && a.term == t && a.upto >= k
  }

  ghost predicate QuorumAcked(w: World, t: nat, k: nat, q: set<nat>) {
    && t in w.leaders
    && w.leaders[t].base <= k < |w.leaders[t].log|
    && Majority(q, |w.replicas|)
    && forall v :: v in q ==> AckedUpTo(w, v, t, k)
  }

  ghost predicate Committed(w: World, t: nat, k: nat) {
    exists q :: QuorumAcked(w, t, k, q)
  }

  /** The first `c + 1` entries of `log` lie below something a quorum stored, in a term up to `bound`. */
  ghost predicate Backed(w: World, bound: nat, log: Log, c: int) {
    c >= 0 ==> exists t, k :: BackedBy(w, bound, log, c, t, k)
  }

  ghost predicate BackedBy(w: World, bound: nat, log: Log, c: nat, t: nat, k: nat) {
    && t <= bound && c <= k && Committed(w, t, k) && Holds(w, log, t, c)
  }

  ghost predicate HasVote(w: World, v: nat, c: nat, t: nat) {
    exists x :: x in w.votes && x.voter == v && x.candidate == c && x.term == t
  }

  // ----- The invariant -----

  ghost predicate LocalOk(w: World) {
    forall i {:trigger ReplicaOk(w, i, w.replicas[i])} ::
      0 <= i < |w.replicas| ==> ReplicaOk(w, i, w.replicas[i])
  }

  ghost predicate ReplicaOk(w: World, i: nat, r: Replica) {
    && (r.role != Follower ==> r.votedFor == i)
    && -1 <= r.votedFor < |w.replicas|
    && r.disk <= r.log
    && (r.role != Leader ==> r.disk == r.log)
    && -1 <= r.commit < |r.disk|
    && Sorted(r.log) && TermsUpTo(r.log, r.term)
    && Known(w.leaders, r.log)
    && (r.votedFor >= 0 ==> w.replicas[r.votedFor].term >= r.term)
    && (r.votedFor >= 0 && r.votedFor != i ==> HasVote(w, i, r.votedFor, r.term))
    && (r.role == Leader ==>
          r.term in w.leaders && w.leaders[r.term].id == i && w.leaders[r.term].log == r.log)
  }

  ghost predicate LeadersOk(w: World) {
    forall t {:trigger LeaderOk(w, t, w.leaders[t])} :: t in w.leaders ==> LeaderOk(w, t, w.leaders[t])
  }

  ghost predicate LeaderOk(w: World, t: nat, l: Leadership) {
    && l.id < |w.replicas|
    && l.base < |l.log|
    && Sorted(l.log) && Known(w.leaders, l.log)
    && (forall i :: 0 <= i < |l.log| ==> if i < l.base then l.log[i].term < t else l.log[i].term == t)
    && Majority(l.votes.Keys, |w.replicas|) && l.id in l.votes
    && (forall v {:trigger VoterOk(w, t, l, v)} :: v in l.votes ==> VoterOk(w, t, l, v))
    && (w.replicas[l.id].term == t ==> w.replicas[l.id].role != Candidate)
  }

  ghost predicate VoterOk(w: World, t: nat, l: Leadership, v: nat)
    requires v in l.votes
  {
    && v < |w.replicas|
    && w.replicas[v].term >= t
    && (w.replicas[v].term == t ==> w.replicas[v].votedFor == l.id)
    && Sorted(l.votes[v])
    && l.base <= |l.log|
    && UpToDate(LastIndex(l.log[..l.base]), LastTerm(l.log[..l.base]), l.votes[v])
    && (v != l.id ==> Vote(v, l.id, t, l.votes[v]) in w.votes)
  }

  ghost predicate VotesOk(w: World) {
    && (forall x {:trigger VoteOk(w, x)} :: x in w.votes ==> VoteOk(w, x))
    && (forall x, y :: x in w.votes && y in w.votes && x.voter == y.voter && x.term == y.term ==> x == y)
  }

  ghost predicate VoteOk(w: World, x: Vote) {
    && x.voter < |w.replicas| && x.candidate < |w.replicas| && x.voter != x.candidate
    && w.replicas[x.voter].term >= x.term
    && (w.replicas[x.voter].term == x.term ==> w.replicas[x.voter].votedFor == x.candidate)
    && w.replicas[x.candidate].term >= x.term
    && Sorted(x.log)
    && (x.term in w.leaders ==> w.leaders[x.term].id != x.voter)
    && (w.replicas[x.candidate].term == x.term && w.replicas[x.candidate].role == Candidate ==>
          UpToDate(LastIndex(w.replicas[x.candidate].log), LastTerm(w.replicas[x.candidate].log), x.log))
  }

  ghost predicate RequestsOk(w: World) {
    forall q {:trigger RequestOk(w, q)} :: q in w.requests ==> RequestOk(w, q)
  }

  ghost predicate RequestOk(w: World, q: Request) {
    && q.candidate < |w.replicas|
    && w.replicas[q.candidate].term >= q.term
    && (w.replicas[q.candidate].term == q.term && w.replicas[q.candidate].role == Candidate ==>
          q.lastIndex == LastIndex(w.replicas[q.candidate].log) && q.lastTerm == LastTerm(w.replicas[q.candidate].log))
  }

  ghost predicate AppendsOk(w: World) {
    forall m {:trigger AppendOk(w, m)} :: m in w.appends ==> AppendOk(w, m)
  }

  /** A request carries a slice of its leader's log that reaches past the no-op. */
  ghost predicate AppendOk(w: World, m: Append) {
    && m.term in w.leaders
    && var l := w.leaders[m.term];
    && -1 <= m.prev && m.prev + 1 + |m.entries| <= |l.log|
    && m.entries == l.log[m.prev + 1..m.prev + 1 + |m.entries|]
    && m.prevTerm == TermAt(l.log, m.prev)
    && l.base <= m.prev + |m.entries|
    && -1 <= m.commit
    && Backed(w, m.term, l.log, m.commit)
  }

  ghost predicate AcksOk(w: World) {
    && (forall a {:trigger AckOk(w, a)} :: a in w.acks ==> AckOk(w, a))
    && (forall x, a {:trigger OpenVoteOk(w, x, a)} :: x in w.votes && a in w.acks ==> OpenVoteOk(w, x, a))
    && (forall t, a {:trigger ElectedOk(w, t, w.leaders[t], a)} ::
          t in w.leaders && a in w.acks ==> ElectedOk(w, t, w.leaders[t], a))
  }

  /** Unless a later leader lost it, the replica still has what it acknowledged. */
  ghost predicate AckOk(w: World, a: Ack) {
    && a.replica < |w.replicas|
    && a.term in w.leaders
    && w.leaders[a.term].base <= a.upto < |w.leaders[a.term].log|
    && w.replicas[a.replica].term >= a.term
    && forall k: nat :: k <= a.upto && AllLater(w, a.term, k, w.replicas[a.replica].term + 1) ==>
         Holds(w, w.replicas[a.replica].disk, a.term, k)
  }

  ghost predicate OpenVoteOk(w: World, x: Vote, a: Ack) {
    a.replica == x.voter && a.term < x.term && x.term !in w.leaders ==>
      forall k: nat :: k <= a.upto && AllLater(w, a.term, k, x.term) ==> Holds(w, x.log, a.term, k)
  }

  ghost predicate ElectedOk(w: World, t: nat, l: Leadership, a: Ack) {
    a.replica in l.votes && a.term < t ==>
      forall k: nat :: k <= a.upto && AllLater(w, a.term, k, t) ==> Holds(w, l.votes[a.replica], a.term, k)
  }

  ghost predicate CommitsOk(w: World) {
    && (forall i {:trigger CommitOk(w, w.replicas[i])} :: 0 <= i < |w.replicas| ==> CommitOk(w, w.replicas[i]))
    && (forall t {:trigger DoneOk(w, t, w.leaders[t])} :: t in w.leaders ==> DoneOk(w, t, w.leaders[t]))
  }

  ghost predicate DoneOk(w: World, t: nat, l: Leadership) {
    forall i :: i in l.done ==> Committed(w, t, i)
  }

  /** The commit index is backed by a quorum; a leader's counts its successful proposals. */
  ghost predicate CommitOk(w: World, r: Replica) {
    && Backed(w, r.term, r.disk, r.commit)
    && (r.role == Leader && r.term in w.leaders ==>
          r.commit < w.leaders[r.term].base + |w.leaders[r.term].done|)
  }

  ghost predicate Inv(w: World) {
    LocalOk(w) && LeadersOk(w) && VotesOk(w) && RequestsOk(w) && AppendsOk(w) && AcksOk(w) && CommitsOk(w)
  }
}
