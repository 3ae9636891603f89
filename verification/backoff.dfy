/** Where the back-off of a sender ends, and what the follower's log is then. */
module Backoff {
  import opened Entries
  import opened Merging
  import opened MergeLaws
  import Consensus
  import opened Protocol

  /** The last index up to `prev` at which the follower holds an entry of the leader's term there, or -1. */
  function BackTo(held: Log, log: Log, prev: int): (p: int)
    requires -1 <= prev < |log|
    ensures -1 <= p <= prev && Matches(held, p, TermAt(log, p))
    ensures forall q {:trigger TermAt(log, q)} :: p < q <= prev ==> !Matches(held, q, TermAt(log, q))
    decreases prev + 1
  {
    if Matches(held, prev, TermAt(log, prev)) then prev else BackTo(held, log, prev - 1)
  }

  /** The request that is accepted: the first one, or one rebuilt by the last retry. */
  function Settled(f: Fields, held: Log, m: AppendEntriesMessage, upper: int): AppendEntriesMessage
    requires -1 <= m.prevLogIndex < |f.log| && upper < |f.log|
  {
    var p := BackTo(held, f.log, m.prevLogIndex);
    if p == m.prevLogIndex then m
    else AppendEntriesMessage(f.currentTerm, f.replicaId, p, TermAt(f.log, p), f.commitIndex,
                              Slice(f.log, p + 1, upper), f.latestClient)
  }

  /** A request of the leader up to its entry `upper`; it carries nothing if a newer round has raised
      `nextIndex` past it. */
  predicate Carries(f: Fields, m: AppendEntriesMessage, upper: int) {
    && -1 <= m.prevLogIndex < |f.log| && -1 <= upper < |f.log|
    && m.term == f.currentTerm
    && m.prevLogTerm == TermAt(f.log, m.prevLogIndex)
    && m.entries == Slice(f.log, m.prevLogIndex + 1, upper)
  }

  /** Even without truncation, an accepted request leaves the leader's log up to its end. */
  lemma OverwrittenIsLeaders(held: Log, log: Log, prev: int, upper: int)
    requires Matching(held, log) && -1 <= prev < |log| && -1 <= upper < |log|
    requires prev < |held| && Matches(held, prev, TermAt(log, prev))
    ensures var z := Overwriting(held, prev, Slice(log, prev + 1, upper));
      upper < |z| && z[..upper + 1] == log[..upper + 1]
  {
    var entries := Slice(log, prev + 1, upper);
    var z := Overwriting(held, prev, entries);
    OverwritingAt(held, prev, entries, 0);
    forall i | 0 <= i <= upper
      ensures i < |z| && z[i] == log[i]
    {
      OverwritingAt(held, prev, entries, i);
      if i <= prev {
        assert SameUpTo(held, log, prev);
        SamePrefixAt(held, log, i, prev + 1);
      } else if i < prev + 1 + Agreed(held, prev + 1, entries) {
        AgreedAt(held, prev + 1, entries, i - (prev + 1));
        assert SameUpTo(held, log, i);
        SamePrefixAt(held, log, i, i + 1);
      }
    }
  }

  /** Truncating as well, and then nothing else unless the follower already held all of it. */
  lemma TruncatedIsLeaders(held: Log, log: Log, prev: int, upper: int)
    requires Matching(held, log) && -1 <= prev < |log| && -1 <= upper < |log|
    requires prev < |held| && Matches(held, prev, TermAt(log, prev))
    ensures var z := Truncating(held, prev, Slice(log, prev + 1, upper));
      upper < |z| && z[..upper + 1] == log[..upper + 1] && (z == held || |z| == upper + 1)
  {
    var entries := Slice(log, prev + 1, upper);
    OverwrittenIsLeaders(held, log, prev, upper);
    var m := Agreed(held, prev + 1, entries);
    AgreedFits(held, prev + 1, entries);
    var o, z := Overwriting(held, prev, entries), Truncating(held, prev, entries);
    assert z[..upper + 1] == o[..upper + 1];
  }

  /** What a sender must be sure of before each request. */
  ghost predicate Ready(f: Fields, g: Fields, peer: nat, m: AppendEntriesMessage, upper: int) {
    && f.state == Consensus.Leader && peer < |f.nextIndex| && f.nextIndex[peer] == m.prevLogIndex + 1
    && Carries(f, m, upper)
    && g.currentTerm <= f.currentTerm && g.commitIndex >= -1 && Matching(g.log, f.log)
  }

  /** One accepted exchange ends the back-off. */
  lemma Accepted(f: Fields, g: Fields, peer: nat, m: AppendEntriesMessage, upper: int)
    requires Ready(f, g, peer, m, upper) && Matches(g.log, m.prevLogIndex, m.prevLogTerm)
    ensures var (g2, reply) := OnAppendEntries(Rule.Overwrite, g, m);
      && Settled(f, g.log, m, upper) == m
      && OnAppendReply(f, peer, upper, reply) == (f.(nextIndex := f.nextIndex[peer := upper + 1]), Succeeded)
      && upper < |g2.log| && g2.log[..upper + 1] == f.log[..upper + 1]
  {
    OverwrittenIsLeaders(g.log, f.log, m.prevLogIndex, upper);
  }

  /** A refusal changes no more of the follower than its term, so the next request finds its log the same. */
  lemma Refused(f: Fields, g: Fields, peer: nat, m: AppendEntriesMessage, upper: int)
    requires Ready(f, g, peer, m, upper) && !Matches(g.log, m.prevLogIndex, m.prevLogTerm)
    ensures m.prevLogIndex >= 0
    ensures var (g2, reply) := OnAppendEntries(Rule.Overwrite, g, m);
      var f2 := f.(nextIndex := f.nextIndex[peer := m.prevLogIndex]);
      var again := RetryRequest(f, m, upper);
      && OnAppendReply(f, peer, upper, reply) == (f2, Retry)
      && g2.log == g.log && g2.commitIndex == g.commitIndex
      && again.prevLogIndex == m.prevLogIndex - 1 && Ready(f2, g2, peer, again, upper)
      && Settled(f2, g.log, again, upper) == Settled(f, g.log, m, upper)
  {
  }

  lemma RefusalThenAccept(g: Fields, first: AppendEntriesMessage, next: AppendEntriesMessage)
    requires first.prevLogIndex >= -1 && next.prevLogIndex >= -1 && g.commitIndex >= -1
    requires g.currentTerm <= first.term == next.term
    requires !Matches(g.log, first.prevLogIndex, first.prevLogTerm)
    ensures var g2 := OnAppendEntries(Rule.Overwrite, g, first).0;
      g2.commitIndex >= -1 && OnAppendEntries(Rule.Overwrite, g2, next) == OnAppendEntries(Rule.Overwrite, g, next)
  {
  }
}
