/** What one step does to the commit index, the tokens and the store of one node, under either merge. */
module Effects {
  import opened Protocol
  import opened Cluster

  /** Nothing was applied; the commit index may have moved, with one token for it. */
  ghost predicate OnlyLearned(x: Node, y: Node) {
    && y.raft.lastApplied == x.raft.lastApplied && y.store == x.store
    && x.raft.commitIndex <= y.raft.commitIndex
    && ((y.raft.commitsReady == x.raft.commitsReady && y.raft.commitIndex == x.raft.commitIndex)
        || y.raft.commitsReady == x.raft.commitsReady + [y.raft.commitIndex - x.raft.commitIndex])
  }

  lemma OthersRest(rule: Rule, s: Cluster, e: Event, n: Cluster)
    requires Step(rule, s, e, n)
    ensures |n.nodes| == |s.nodes|
    ensures forall i :: 0 <= i < |s.nodes| && i != Site(e) ==> n.nodes[i] == s.nodes[i]
  {
  }

  lemma ElectionStep(rule: Rule, s: Cluster, e: Event, n: Cluster)
    requires Step(rule, s, e, n) && (e.Timeout? || e.DeliverVoteRequest? || e.DeliverVoteReply?)
    ensures |n.nodes| == |s.nodes| && Site(e) < |s.nodes| && OnlyLearned(s.nodes[Site(e)], n.nodes[Site(e)])
  {
  }

  lemma LeaderStep(rule: Rule, s: Cluster, e: Event, n: Cluster)
    requires Step(rule, s, e, n)
    requires || e.ClientWrite? || e.StartRound? || e.RetryNoOp? || e.SendAppend?
             || e.CommitProposal? || e.GiveUp? || e.ServeRead?
    ensures |n.nodes| == |s.nodes| && Site(e) < |s.nodes| && OnlyLearned(s.nodes[Site(e)], n.nodes[Site(e)])
  {
  }

  lemma ReplyStep(rule: Rule, s: Cluster, e: Event, n: Cluster)
    requires Step(rule, s, e, n) && e.DeliverAppendReply?
    ensures |n.nodes| == |s.nodes| && Site(e) < |s.nodes| && OnlyLearned(s.nodes[Site(e)], n.nodes[Site(e)])
  {
  }

  /** A request is learned from if the clamp to the follower's own log takes no commit back. */
  lemma LearnStep(rule: Rule, s: Cluster, e: Event, n: Cluster)
    requires Step(rule, s, e, n) && e.DeliverAppend?
    requires s.nodes[e.p.dest].raft.commitIndex <= n.nodes[e.p.dest].raft.commitIndex
    ensures |n.nodes| == |s.nodes| && Site(e) < |s.nodes| && OnlyLearned(s.nodes[Site(e)], n.nodes[Site(e)])
  {
  }

  /** The first `done` entries of the oldest announced batch were applied, and the token is gone. */
  ghost predicate AppliedBatch(x: Node, y: Node, done: nat) {
    && CanApply(x.raft, done)
    && y.raft.commitIndex == x.raft.commitIndex
    && y.raft.lastApplied == x.raft.lastApplied + done
    && y.raft.commitsReady == x.raft.commitsReady[1..]
    && y.store == ApplyAll(x.store, Batch(x.raft, done))
  }

  /** After a restart one token announces everything committed and not yet applied. */
  ghost predicate CameBack(x: Node, y: Node) {
    && y.raft.commitIndex == x.raft.commitIndex
    && y.raft.lastApplied == x.raft.lastApplied
    && y.raft.commitsReady ==
       if x.raft.commitIndex > x.raft.lastApplied then [x.raft.commitIndex - x.raft.lastApplied] else []
  }

  ghost predicate Acts(x: Node, e: Event, y: Node) {
    match e
    case Apply(_, done) => AppliedBatch(x, y, done)
    case CrashInApply(_, done) => CameBack(x, y) && CanApply(x.raft, done)
      && y.store == Live(ApplyAll(x.store, Batch(x.raft, done)))
    case Crash(_) => CameBack(x, y) && y.store == Live(x.store)
    case _ => OnlyLearned(x, y)
  }

  lemma ApplyStep(rule: Rule, s: Cluster, e: Event, n: Cluster)
    requires Step(rule, s, e, n) && (e.Apply? || e.CrashInApply? || e.Crash?)
    requires e.i < |s.nodes| ==> StorageOk(s.nodes[e.i].raft)
    ensures |n.nodes| == |s.nodes| && Site(e) < |s.nodes| && Acts(s.nodes[Site(e)], e, n.nodes[Site(e)])
  {
  }

  /** Every step, seen from one node. */
  lemma NodeStep(rule: Rule, s: Cluster, e: Event, n: Cluster, i: nat)
    requires Step(rule, s, e, n) && i < |s.nodes| == |n.nodes| && StorageOk(s.nodes[i].raft)
    requires s.nodes[i].raft.commitIndex <= n.nodes[i].raft.commitIndex
    ensures if i == Site(e) then Acts(s.nodes[i], e, n.nodes[i]) else n.nodes[i] == s.nodes[i]
  {
    OthersRest(rule, s, e, n);
    if i == Site(e) {
      match e {
        case DeliverAppend(_) => LearnStep(rule, s, e, n);
        case DeliverAppendReply(_) => ReplyStep(rule, s, e, n);
        case Timeout(_) => ElectionStep(rule, s, e, n);
        case DeliverVoteRequest(_) => ElectionStep(rule, s, e, n);
        case DeliverVoteReply(_) => ElectionStep(rule, s, e, n);
        case Apply(_, _) => ApplyStep(rule, s, e, n);
        case CrashInApply(_, _) => ApplyStep(rule, s, e, n);
        case Crash(_) => ApplyStep(rule, s, e, n);
        case _ => LeaderStep(rule, s, e, n);
      }
    }
  }
}
