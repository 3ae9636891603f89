/** The shared counters of one round: the goroutines of the peers finish in some order, and the one
    whose increment reaches the limit reports the verdict. */
module Rounds {
  import opened Consensus

  /** How the exchange with one peer ended. */
  datatype Reply = Reply(peer: nat, success: bool)

  /** The peers whose exchange ended that way, among the first `i` replies. */
  function PeersOf(replies: seq<Reply>, i: nat, success: bool): set<nat>
    requires i <= |replies|
  {
    set k | 0 <= k < i && replies[k].success == success :: replies[k].peer
  }

  function Peers(replies: seq<Reply>, success: bool): set<nat> {
    PeersOf(replies, |replies|, success)
  }

  /** Every peer is asked once, and the sender does not ask itself. */
  ghost predicate OncePerPeer(n: nat, self: nat, replies: seq<Reply>) {
    && self < n
    && (forall a :: 0 <= a < |replies| ==> replies[a].peer < n && replies[a].peer != self)
    && (forall a, b :: 0 <= a < b < |replies| ==> replies[a].peer != replies[b].peer)
  }

  /** How many of the first `i` replies ended that way. */
  function Tally(replies: seq<Reply>, i: nat, success: bool): nat
    requires i <= |replies|
  {
    if i == 0 then 0 else Tally(replies, i - 1, success) + if replies[i - 1].success == success then 1 else 0
  }

  /** One more reply adds its peer to the peers of its kind, because each is asked once. */
  lemma PeersSnoc(n: nat, self: nat, replies: seq<Reply>, i: nat, success: bool)
    requires OncePerPeer(n, self, replies) && i < |replies|
    ensures |PeersOf(replies, i + 1, success)| ==
      |PeersOf(replies, i, success)| + if replies[i].success == success then 1 else 0
  {
    var p, q, r := PeersOf(replies, i, success), PeersOf(replies, i + 1, success), replies[i];
    assert r.peer !in p;
    assert q == p + if r.success == success then {r.peer} else {};
  }

  lemma {:induction false} TallyIs(n: nat, self: nat, replies: seq<Reply>, i: nat, success: bool)
    requires OncePerPeer(n, self, replies) && i <= |replies|
    ensures Tally(replies, i, success) == |PeersOf(replies, i, success)|
  {
    if i > 0 {
      TallyIs(n, self, replies, i - 1, success);
      PeersSnoc(n, self, replies, i - 1, success);
    }
  }

  lemma {:induction false} SplitUpTo(replies: seq<Reply>, i: nat)
    requires i <= |replies|
    ensures Tally(replies, i, true) + Tally(replies, i, false) == i
  {
    if i > 0 {
      SplitUpTo(replies, i - 1);
    }
  }

  /** The sender and those that answered with success. */
  function Accepting(self: nat, replies: seq<Reply>): set<nat> {
    {self} + Peers(replies, true)
  }

  /** All replies together: no peer is on both sides. */
  lemma Split(n: nat, self: nat, replies: seq<Reply>)
    requires OncePerPeer(n, self, replies)
    ensures |Accepting(self, replies)| == 1 + Tally(replies, |replies|, true)
    ensures |Peers(replies, false)| == Tally(replies, |replies|, false)
    ensures Tally(replies, |replies|, true) + Tally(replies, |replies|, false) == |replies| <= n - 1
    ensures forall v :: v in Accepting(self, replies) ==> v < n
  {
    var s, f := Peers(replies, true), Peers(replies, false);
    TallyIs(n, self, replies, |replies|, true);
    TallyIs(n, self, replies, |replies|, false);
    SplitUpTo(replies, |replies|);
    assert self !in s && self !in f && s !! f;
    var all := ({self} + s) + f;
    assert |all| == |{self} + s| + |f| == 1 + |s| + |f|;
    SubsetSize(all, Below(n));
  }

  /** What has been sent once the counters have these values. */
  function Verdicts(n: nat, successes: nat, failures: nat): seq<bool> {
    (if n >= 2 && successes >= n / 2 + 1 then [true] else []) + (if failures >= (n + 1) / 2 then [false] else [])
  }

  /** The two limits exclude each other, and once all have answered one is reached. */
  lemma OneVerdict(n: nat, successes: nat, failures: nat)
    requires 1 <= successes && successes + failures <= n
    ensures |Verdicts(n, successes, failures)| <= 1
    ensures n >= 2 && successes + failures == n ==> |Verdicts(n, successes, failures)| == 1
  {
  }

  /** The two counters: each verdict is sent by the reply that brings its counter to the limit. */
  method RunCounters(n: nat, replies: seq<Reply>) returns (sent: seq<bool>)
    requires |replies| < n
    ensures sent == Verdicts(n, 1 + Tally(replies, |replies|, true), Tally(replies, |replies|, false))
  {
    var successes: nat, failures: nat := 1, 0;
    sent := [];
    for i := 0 to |replies|
      invariant successes == 1 + Tally(replies, i, true) && failures == Tally(replies, i, false)
      invariant successes + failures == i + 1
      invariant sent == Verdicts(n, successes, failures)
    {
      if replies[i].success {
        successes := successes + 1;
        if successes == n / 2 + 1 {
          sent := sent + [true];
        }
      } else {
        failures := failures + 1;
        if failures == (n + 1) / 2 {
          sent := sent + [false];
        }
      }
    }
  }

  /** One round of LeaderSendAEs. `replies` is the order in which the exchanges end; peers without a
      connection, and exchanges still under way, are missing from it. At most one verdict is ever sent, and
      which one does not depend on the order. Once every peer has finished there is exactly one. */
  method CountReplies(n: nat, self: nat, replies: seq<Reply>) returns (sent: seq<bool>)
    requires OncePerPeer(n, self, replies)
    ensures |sent| <= 1
    ensures true in sent <==> n >= 2 && |Accepting(self, replies)| >= n / 2 + 1
    ensures false in sent <==> |Peers(replies, false)| >= (n + 1) / 2
    ensures true in sent ==> Majority(Accepting(self, replies), n)
    ensures |replies| == n - 1 && n >= 2 ==> |sent| == 1
  {
    Split(n, self, replies);
    sent := RunCounters(n, replies);
    OneVerdict(n, 1 + Tally(replies, |replies|, true), Tally(replies, |replies|, false));
  }

  /** Two successful rounds, of whatever leaders, share a replica. */
  lemma SuccessfulRoundsMeet(
    n: nat, self1: nat, replies1: seq<Reply>, self2: nat, replies2: seq<Reply>) returns (v: nat)
    requires OncePerPeer(n, self1, replies1) && |Accepting(self1, replies1)| >= n / 2 + 1
    requires OncePerPeer(n, self2, replies2) && |Accepting(self2, replies2)| >= n / 2 + 1
    ensures v in Accepting(self1, replies1) && v in Accepting(self2, replies2)
  {
    Split(n, self1, replies1);
    Split(n, self2, replies2);
    v := MajoritiesMeet(Accepting(self1, replies1), Accepting(self2, replies2), n);
  }

  /** The vote counter of StartElection. The winner's first majority makes it leader, and later replies are
      ignored. The check is only made when a vote arrives, so a candidate without peers never wins. */
  method CountVotes(n: nat, self: nat, replies: seq<Reply>) returns (elections: nat, votes: nat)
    requires OncePerPeer(n, self, replies)
    ensures elections == if n >= 2 && Majority(Accepting(self, replies), n) then 1 else 0
    ensures votes <= |Accepting(self, replies)|
    ensures elections == 0 ==> votes == |Accepting(self, replies)|
  {
    elections, votes := 0, 1;
    var state := Candidate;
    Split(n, self, replies);
    for i := 0 to |replies|
      invariant 1 <= votes <= 1 + Tally(replies, i, true)
      invariant state == Candidate ==> votes == 1 + Tally(replies, i, true) && (n >= 2 ==> votes * 2 <= n)
      invariant state != Candidate ==> n >= 2 && votes * 2 > n
      invariant elections == if state == Candidate then 0 else 1
    {
      if state == Candidate && replies[i].success {
        votes := votes + 1;
        if votes * 2 > n {
          state := Leader;
          elections := elections + 1;
        }
      }
    }
  }
}
