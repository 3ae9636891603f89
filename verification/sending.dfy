/** Which entries of its own log a leader reads when it builds a request, and when `nextIndex` lets it. */
module Sending {
  import opened Consensus
  import opened Protocol
  import opened Cluster
  import opened Elections
  import Chronicle
  import Effects
  import MergeLaws
  import Merging

  // ----- What one request reads -----

  /** Every index that building the first request of a round reads lies inside a log of this length. */
  ghost predicate ReadsInside(next: int, upper: int, length: nat) {
    && (next - 1 >= 0 ==> next - 1 < length)
    && forall j {:trigger Read(j)} :: Read(j) && next <= j <= upper ==> 0 <= j < length
  }

  ghost predicate Read(j: int) {
    true
  }

  /** For a round of the leader, whose tail lies in the log: exactly if `nextIndex` lies in the log or right
      behind it. */
  lemma ReadsInsideIff(next: int, upper: int, length: nat)
    requires 0 <= upper < length
    ensures ReadsInside(next, upper, length) <==> 0 <= next <= length
  {
    assert Read(next);
  }

  // ----- One exchange at a time -----

  /** The request to a peer that has not been answered yet. */
  datatype Exchange = Idle | Waits(upper: int, append: AppendEntriesMessage)

  /** The newest request of node `i` to `peer` after `k` events, if its reply has not arrived. */
  function Outstanding(states: seq<Cluster>, events: seq<Event>, k: nat, i: nat, peer: nat): Exchange
    requires k <= |events| && |states| == |events| + 1
  {
    if k == 0 then Idle
    else After(states[k - 1], events[k - 1], i, peer, Outstanding(states, events, k - 1, i, peer))
  }

  function After(s: Cluster, e: Event, i: nat, peer: nat, x: Exchange): Exchange {
    if e.SendAppend? && e.i == i && e.peer == peer && i < |s.nodes| && e.round < |s.nodes[i].rounds|
       && CanAddress(s.nodes[i].raft, peer, s.nodes[i].rounds[e.round].upper) then
      var r := s.nodes[i].rounds[e.round];
      Waits(r.upper, FirstRequest(s.nodes[i].raft, peer, r.upper, r.leaderCommit, r.client))
    else if e.DeliverAppendReply? && e.p.AppendReply? && e.p.dest == i && e.p.from == peer then
      if Retries(s, e.p) then Waits(e.p.upper, RetryRequest(s.nodes[i].raft, e.p.append, e.p.upper)) else Idle
    else x
  }

  predicate Retries(s: Cluster, p: Packet)
    requires p.AppendReply?
  {
    && p.dest < |s.nodes| && p.from < |s.nodes[p.dest].raft.nextIndex|
    && OnAppendReply(s.nodes[p.dest].raft, p.from, p.upper, p.reply).1 == Retry
    && 0 <= p.append.prevLogIndex < |s.nodes[p.dest].raft.log| && p.upper < |s.nodes[p.dest].raft.log|
  }

  /** While node `i` leads, a reply from `peer` is of its own term and answers the newest request to that peer. */
  ghost predicate Orderly(states: seq<Cluster>, events: seq<Event>, i: nat, peer: nat)
    requires |states| == |events| + 1
  {
    forall k {:trigger InTurn(states, events, k, i, peer)} :: 0 <= k < |events| ==> InTurn(states, events, k, i, peer)
  }

  ghost predicate InTurn(states: seq<Cluster>, events: seq<Event>, k: nat, i: nat, peer: nat)
    requires k < |events| && |states| == |events| + 1
  {
    var e := events[k];
    e.DeliverAppendReply? && e.p.AppendReply? && e.p.dest == i && e.p.from == peer && Leads(states[k], i) ==>
      && e.p.append.term == states[k].nodes[i].raft.currentTerm
      && Outstanding(states, events, k, i, peer) == Waits(e.p.upper, e.p.append)
  }

  /** `nextIndex` follows the exchange. */
  ghost predicate InStep(f: Fields, peer: nat, x: Exchange) {
    && (x.Waits? ==> x.append.term <= f.currentTerm && (f.state == Candidate ==> x.append.term < f.currentTerm))
    && (f.state == Leader ==>
          && peer < |f.nextIndex| && 0 <= f.nextIndex[peer] <= |f.log|
          && (x.Waits? && x.append.term == f.currentTerm ==> f.nextIndex[peer] == x.append.prevLogIndex + 1))
  }

  /** A step that neither sends to the peer nor hears from it. */
  ghost predicate Elsewhere(e: Event, i: nat, peer: nat) {
    && !(e.SendAppend? && e.i == i && e.peer == peer)
    && !(e.DeliverAppendReply? && e.p.dest == i && e.p.from == peer)
  }

  /** What such a step does to the node. */
  ghost predicate KeepsNext(f: Fields, g: Fields, peer: nat) {
    && f.currentTerm <= g.currentTerm
    && (g.state == Candidate ==>
          g.currentTerm > f.currentTerm || (f.state == Candidate && g.currentTerm == f.currentTerm))
    && (g.state == Leader && f.state == Leader ==>
          && g.currentTerm == f.currentTerm && |f.log| <= |g.log|
          && peer < |g.nextIndex| == |f.nextIndex| && g.nextIndex[peer] == f.nextIndex[peer])
    && (g.state == Leader && f.state != Leader ==>
          && f.state == Candidate && g.currentTerm == f.currentTerm
          && peer < |g.nextIndex| && g.nextIndex[peer] == |f.log| < |g.log|)
  }

  /** The node's own number, the size of the group, and what is on disk. */
  ghost predicate Sized(s: Cluster, i: nat) {
    && i < |s.nodes|
    && var f := s.nodes[i].raft;
    && f.replicaId == i && f.replicas == |f.nextIndex| == |s.nodes| && StorageOk(f)
  }

  lemma ElsewhereKeeps(rule: Rule, s: Cluster, e: Event, z: Cluster, peer: nat)
    requires Step(rule, s, e, z) && Sized(s, Site(e)) && Elsewhere(e, Site(e), peer)
    requires peer < |s.nodes| && peer != Site(e)
    requires e.DeliverAppend? && Leads(s, Site(e)) ==> e.p.append.term != s.nodes[Site(e)].raft.currentTerm
    ensures Site(e) < |z.nodes| && KeepsNext(s.nodes[Site(e)].raft, z.nodes[Site(e)].raft, peer)
  {
    var f := s.nodes[Site(e)].raft;
    match e {
      case DeliverAppend(p) => AnswerFollows(rule, f, p.append);
      case DeliverAppendReply(p) => OtherReplyKeeps(f, p.from, p.upper, p.reply, peer);
      case Timeout(_) => VoteStepKeeps(rule, s, e, z, peer);
      case DeliverVoteRequest(_) => VoteStepKeeps(rule, s, e, z, peer);
      case DeliverVoteReply(_) => VoteStepKeeps(rule, s, e, z, peer);
      case _ => OwnStepKeeps(rule, s, e, z, peer);
    }
  }

  lemma SizedAndAlone(s: Cluster, h: History, e: Event)
    requires Told(s, h) && Site(e) < |s.nodes| && (e.DeliverAppend? ==> e.p in s.net && e.p.AppendRequest?)
    ensures Sized(s, Site(e))
    ensures e.DeliverAppend? && Leads(s, Site(e)) ==> e.p.append.term != s.nodes[Site(e)].raft.currentTerm
  {
    assert NodeFits(s, h, Site(e));
    if e.DeliverAppend? {
      assert PacketFits(s, h, e.p);
    }
  }

  lemma OtherReplyKeeps(f: Fields, from: nat, upper: int, reply: AppendEntriesResponse, peer: nat)
    requires from < |f.nextIndex| && peer < |f.nextIndex| && peer != from
    ensures KeepsNext(f, OnAppendReply(f, from, upper, reply).0, peer)
  {
  }

  lemma VoteStepKeeps(rule: Rule, s: Cluster, e: Event, z: Cluster, peer: nat)
    requires Step(rule, s, e, z) && (e.Timeout? || e.DeliverVoteRequest? || e.DeliverVoteReply?)
    requires Sized(s, Site(e)) && peer < |s.nodes| && peer != Site(e)
    ensures Site(e) < |z.nodes| && KeepsNext(s.nodes[Site(e)].raft, z.nodes[Site(e)].raft, peer)
  {
  }

  lemma OwnStepKeeps(rule: Rule, s: Cluster, e: Event, z: Cluster, peer: nat)
    requires Step(rule, s, e, z) && Sized(s, Site(e)) && peer < |s.nodes|
    requires !e.Timeout? && !e.DeliverVoteRequest? && !e.DeliverVoteReply? && !e.DeliverAppend?
    requires !e.DeliverAppendReply?
    ensures Site(e) < |z.nodes| && KeepsNext(s.nodes[Site(e)].raft, z.nodes[Site(e)].raft, peer)
  {
  }

  lemma InStepElsewhere(f: Fields, g: Fields, peer: nat, exchange: Exchange)
    requires InStep(f, peer, exchange) && KeepsNext(f, g, peer)
    ensures InStep(g, peer, exchange)
  {
  }

  lemma InStepSends(rule: Rule, s: Cluster, i: nat, round: nat, peer: nat, z: Cluster, x: Exchange)
    requires Step(rule, s, SendAppend(i, round, peer), z) && InStep(s.nodes[i].raft, peer, x)
    ensures i < |z.nodes| && InStep(z.nodes[i].raft, peer, After(s, SendAppend(i, round, peer), i, peer, x))
  {
  }

  /** A reply in turn: a refusal lowers `nextIndex` with the request, a success raises it to behind the round's tail. */
  lemma HeardInTurn(f: Fields, p: Packet, x: Exchange)
    requires p.AppendReply? && p.from < |f.nextIndex| && InStep(f, p.from, x)
    requires f.state == Leader ==>
      && p.append.term == f.currentTerm && x == Waits(p.upper, p.append)
      && 0 <= p.upper < |f.log| && -1 <= p.append.prevLogIndex < |f.log|
      && (!p.reply.success && p.reply.term <= p.append.term ==> p.append.prevLogIndex >= 0)
    ensures var (g, outcome) := OnAppendReply(f, p.from, p.upper, p.reply);
      && (outcome == Retry ==>
            && 0 <= p.append.prevLogIndex < |f.log| && p.upper < |f.log|
            && InStep(g, p.from, Waits(p.upper, RetryRequest(f, p.append, p.upper))))
      && (outcome != Retry ==> InStep(g, p.from, Idle))
  {
  }

  lemma InStepHears(rule: Rule, s: Cluster, h: History, p: Packet, z: Cluster, x: Exchange)
    requires Told(s, h) && Step(rule, s, DeliverAppendReply(p), z) && InStep(s.nodes[p.dest].raft, p.from, x)
    requires Leads(s, p.dest) ==> p.append.term == s.nodes[p.dest].raft.currentTerm && x == Waits(p.upper, p.append)
    ensures p.dest < |z.nodes|
    ensures InStep(z.nodes[p.dest].raft, p.from, After(s, DeliverAppendReply(p), p.dest, p.from, x))
  {
    if Leads(s, p.dest) {
      Chronicle.OwnRequest(s, h, p);
    }
    HeardInTurn(s.nodes[p.dest].raft, p, x);
    HearsFields(rule, s, p, z);
  }

  /** Counting a success leaves the fields alone, beyond what the reply did to them. */
  lemma HearsFields(rule: Rule, s: Cluster, p: Packet, z: Cluster)
    requires Step(rule, s, DeliverAppendReply(p), z)
    ensures p.dest < |s.nodes| == |z.nodes| && p.from < |s.nodes[p.dest].raft.nextIndex| && p.AppendReply?
    ensures z.nodes[p.dest].raft == OnAppendReply(s.nodes[p.dest].raft, p.from, p.upper, p.reply).0
  {
  }

  lemma InStepKept(rule: Rule, s: Cluster, h: History, e: Event, z: Cluster, i: nat, peer: nat, x: Exchange)
    requires Told(s, h) && Step(rule, s, e, z) && i < |s.nodes| && peer < |s.nodes| && peer != i
    requires InStep(s.nodes[i].raft, peer, x)
    requires e.DeliverAppendReply? && e.p.dest == i && e.p.from == peer && Leads(s, i) ==>
      e.p.append.term == s.nodes[i].raft.currentTerm && x == Waits(e.p.upper, e.p.append)
    ensures i < |z.nodes| && InStep(z.nodes[i].raft, peer, After(s, e, i, peer, x))
  {
    if i != Site(e) {
      Effects.OthersRest(rule, s, e, z);
    } else if e.SendAppend? && e.peer == peer {
      InStepSends(rule, s, i, e.round, peer, z, x);
    } else if e.DeliverAppendReply? && e.p.from == peer {
      InStepHears(rule, s, h, e.p, z, x);
    } else {
      SizedAndAlone(s, h, e);
      ElsewhereKeeps(rule, s, e, z, peer);
      InStepElsewhere(s.nodes[i].raft, z.nodes[i].raft, peer, x);
    }
  }

  lemma {:induction false} InStepAlways(
    rule: Rule, replicas: nat, states: seq<Cluster>, events: seq<Event>, hs: seq<History>, k: nat, i: nat, peer: nat)
    requires Run(rule, replicas, states, events) && Chronicle.Recorded(states, events, hs) && k < |states|
    requires i < replicas && peer < replicas && peer != i && Orderly(states, events, i, peer)
    ensures |states[k].nodes| == replicas
    ensures InStep(states[k].nodes[i].raft, peer, Outstanding(states, events, k, i, peer))
    decreases k
  {
    Chronicle.GroupSize(rule, replicas, states, events, k);
    if k > 0 {
      InStepAlways(rule, replicas, states, events, hs, k - 1, i, peer);
      assert Stepped(rule, states, events, k - 1);
      assert Told(states[k - 1], hs[k - 1]) && InTurn(states, events, k - 1, i, peer);
      InStepKept(rule, states[k - 1], hs[k - 1], events[k - 1], states[k], i, peer,
                 Outstanding(states, events, k - 1, i, peer));
    }
  }

  /** If no two exchanges with a peer overlap and no reply of an older term arrives, a leader can always build
      the first request of any of its rounds for that peer. */
  lemma FirstRequestInBounds(
    rule: Rule, replicas: nat, states: seq<Cluster>, events: seq<Event>, k: nat, i: nat, round: nat, peer: nat)
    requires Run(rule, replicas, states, events) && k < |states|
    requires i < replicas && peer < replicas && peer != i && Orderly(states, events, i, peer)
    requires Current(states[k], i, round)
    ensures var f, upper := states[k].nodes[i].raft, states[k].nodes[i].rounds[round].upper;
      && CanAddress(f, peer, upper) && ReadsInside(f.nextIndex[peer], upper, |f.log|)
  {
    var hs := Chronicle.Record(rule, replicas, states, events);
    InStepAlways(rule, replicas, states, events, hs, k, i, peer);
    var node := states[k].nodes[i];
    assert Told(states[k], hs[k]) && NodeFits(states[k], hs[k], i);
    assert RoundTold(replicas, hs[k], i, node.raft.currentTerm, round, node.rounds[round]);
    ReadsInsideIff(node.raft.nextIndex[peer], node.rounds[round].upper, |node.raft.log|);
  }

  // ----- The upper end, for the loops as written -----

  predicate OfSender(p: Packet, i: nat) {
    (p.AppendRequest? && p.from == i) || (p.AppendReply? && p.dest == i)
  }

  /** The end of a process. */
  predicate Stops(e: Event, i: nat) {
    (e.Crash? || e.CrashInApply?) && e.i == i
  }

  /** The term of node `i` when its process last ended before moment `k`, or -1. */
  function LastStop(states: seq<Cluster>, events: seq<Event>, k: nat, i: nat): int
    requires k <= |events| && |states| == |events| + 1
  {
    if k == 0 then -1
    else if Stops(events[k - 1], i) && i < |states[k - 1].nodes| then states[k - 1].nodes[i].raft.currentTerm
    else LastStop(states, events, k - 1, i)
  }

  /** A process receives replies only to what it sent itself: to requests of terms after that. */
  ghost predicate OwnReply(states: seq<Cluster>, events: seq<Event>, k: nat, i: nat)
    requires k < |events| && |states| == |events| + 1
  {
    var e := events[k];
    e.DeliverAppendReply? && e.p.AppendReply? && e.p.dest == i ==> e.p.append.term > LastStop(states, events, k, i)
  }

  /** No exchange of node `i` begun after term `c`, and no `nextIndex`, reaches past the end of its log. */
  ghost predicate TailsInside(s: Cluster, i: nat, c: int) {
    && i < |s.nodes|
    && var f := s.nodes[i].raft;
    && (forall peer :: 0 <= peer < |f.nextIndex| ==> f.nextIndex[peer] <= |f.log|)
    && (forall p {:trigger OfSender(p, i)} :: p in s.net && OfSender(p, i) && p.append.term > c ==> p.upper < |f.log|)
  }

  /** The loops as written never make a log shorter, and only its own rounds and their replies touch `nextIndex`. */
  ghost predicate NextGrows(f: Fields, g: Fields, e: Event) {
    && |f.log| <= |g.log|
    && forall peer :: 0 <= peer < |g.nextIndex| ==>
         || g.nextIndex[peer] <= |g.log|
         || (peer < |f.nextIndex| && g.nextIndex[peer] <= f.nextIndex[peer])
         || (e.DeliverAppendReply? && e.p.AppendReply? && g.nextIndex[peer] == e.p.upper + 1)
  }

  lemma AcceptGrows(f: Fields, m: AppendEntriesMessage)
    requires m.prevLogIndex >= -1 && f.commitIndex >= -1
    ensures var g := OnAppendEntries(Rule.Overwrite, f, m).0; |f.log| <= |g.log| && g.nextIndex == f.nextIndex
  {
    if Merging.Matches(f.log, m.prevLogIndex, m.prevLogTerm) {
      MergeLaws.OverwritingAt(f.log, m.prevLogIndex, m.entries, 0);
    }
  }

  lemma NextStep(s: Cluster, e: Event, z: Cluster)
    requires Step(Rule.Overwrite, s, e, z) && Site(e) < |s.nodes| && !e.Crash? && !e.CrashInApply?
    ensures Site(e) < |z.nodes| && NextGrows(s.nodes[Site(e)].raft, z.nodes[Site(e)].raft, e)
  {
    match e {
      case DeliverAppend(q) => AcceptGrows(s.nodes[q.dest].raft, q.append);
      case DeliverAppendReply(q) => ReplyGrows(s.nodes[q.dest].raft, q);
      case DeliverVoteReply(_) => NextByVotes(s, e, z);
      case DeliverVoteRequest(_) => NextByVotes(s, e, z);
      case _ => NextByItself(s, e, z);
    }
  }

  lemma ReplyGrows(f: Fields, p: Packet)
    requires p.AppendReply? && p.from < |f.nextIndex|
    ensures NextGrows(f, OnAppendReply(f, p.from, p.upper, p.reply).0, DeliverAppendReply(p))
  {
  }

  lemma NextByVotes(s: Cluster, e: Event, z: Cluster)
    requires Step(Rule.Overwrite, s, e, z) && Site(e) < |s.nodes| && (e.DeliverVoteReply? || e.DeliverVoteRequest?)
    ensures Site(e) < |z.nodes| && NextGrows(s.nodes[Site(e)].raft, z.nodes[Site(e)].raft, e)
  {
  }

  lemma NextByItself(s: Cluster, e: Event, z: Cluster)
    requires Step(Rule.Overwrite, s, e, z) && Site(e) < |s.nodes| && !e.Crash? && !e.CrashInApply?
    requires !e.DeliverAppend? && !e.DeliverAppendReply? && !e.DeliverVoteReply? && !e.DeliverVoteRequest?
    ensures Site(e) < |z.nodes| && NextGrows(s.nodes[Site(e)].raft, z.nodes[Site(e)].raft, e)
  {
  }

  /** A new packet of the sender carries the tail of one of its rounds, or term and tail of a packet it had before. */
  lemma NewTails(s: Cluster, e: Event, z: Cluster, i: nat, p: Packet)
    requires Step(Rule.Overwrite, s, e, z) && p in z.net && p !in s.net && OfSender(p, i)
    ensures (e.SendAppend? && e.i == i && Current(s, i, e.round) && p.upper == s.nodes[i].rounds[e.round].upper)
      || exists q {:trigger OfSender(q, i)} ::
           q in s.net && OfSender(q, i) && q.upper == p.upper && q.append.term == p.append.term
  {
    match e {
      case DeliverAppend(q) => assert q in s.net && OfSender(q, i) && q.upper == p.upper;
      case DeliverAppendReply(q) => assert q in s.net && OfSender(q, i) && q.upper == p.upper;
      case _ =>
    }
  }

  lemma TailsKept(s: Cluster, h: History, e: Event, z: Cluster, i: nat, c: int)
    requires Told(s, h) && Step(Rule.Overwrite, s, e, z) && TailsInside(s, i, c) && !Stops(e, i)
    requires e.DeliverAppendReply? && e.p.AppendReply? && e.p.dest == i ==> e.p.append.term > c
    ensures TailsInside(z, i, c)
  {
    Effects.OthersRest(Rule.Overwrite, s, e, z);
    if Site(e) == i {
      NextStep(s, e, z);
      if e.DeliverAppendReply? {
        assert OfSender(e.p, i);
      }
    }
    forall p | p in z.net && OfSender(p, i) && p.append.term > c
      ensures p.upper < |z.nodes[i].raft.log|
    {
      if p !in s.net {
        NewTails(s, e, z, i, p);
        if e.SendAppend? && e.i == i {
          assert NodeFits(s, h, i);
          assert RoundTold(|s.nodes|, h, i, s.nodes[i].raft.currentTerm, e.round, s.nodes[i].rounds[e.round]);
        }
      }
    }
  }

  /** A restart forgets `nextIndex`, and nothing sent before is of a later term. */
  lemma TailsRestart(s: Cluster, h: History, e: Event, z: Cluster, i: nat)
    requires Told(s, h) && Step(Rule.Overwrite, s, e, z) && Stops(e, i)
    ensures i < |s.nodes| && TailsInside(z, i, s.nodes[i].raft.currentTerm)
  {
    forall p | p in z.net && OfSender(p, i)
      ensures p.append.term <= s.nodes[i].raft.currentTerm
    {
      assert p in s.net && PacketFits(s, h, p);
      assert ReignFits(s, h, p.append.term) && VoterFits(s, h, p.append.term, i);
    }
  }

  lemma {:induction false} TailsAlways(
    replicas: nat, states: seq<Cluster>, events: seq<Event>, hs: seq<History>, k: nat, i: nat)
    requires Run(Rule.Overwrite, replicas, states, events) && Chronicle.Recorded(states, events, hs) && k < |states|
    requires i < replicas
    requires forall m {:trigger OwnReply(states, events, m, i)} :: 0 <= m < k ==> OwnReply(states, events, m, i)
    ensures TailsInside(states[k], i, LastStop(states, events, k, i))
    decreases k
  {
    if k > 0 {
      TailsAlways(replicas, states, events, hs, k - 1, i);
      assert Stepped(Rule.Overwrite, states, events, k - 1);
      assert Told(states[k - 1], hs[k - 1]) && OwnReply(states, events, k - 1, i);
      if Stops(events[k - 1], i) {
        TailsRestart(states[k - 1], hs[k - 1], events[k - 1], states[k], i);
      } else {
        TailsKept(states[k - 1], hs[k - 1], events[k - 1], states[k], i, LastStop(states, events, k - 1, i));
      }
    }
  }

  /** For the loops as written, with any number of restarts and of overlapping exchanges, and whatever terms have
      passed since a request was sent, `nextIndex` never passes the end of the log. */
  lemma NextNeverPassesTail(replicas: nat, states: seq<Cluster>, events: seq<Event>, k: nat, i: nat, peer: nat)
    requires Run(Rule.Overwrite, replicas, states, events) && k < |states| && i < replicas
    requires forall m {:trigger OwnReply(states, events, m, i)} :: 0 <= m < k ==> OwnReply(states, events, m, i)
    ensures i < |states[k].nodes|
    ensures var f := states[k].nodes[i].raft; peer < |f.nextIndex| ==> f.nextIndex[peer] <= |f.log|
  {
    var hs := Chronicle.Record(Rule.Overwrite, replicas, states, events);
    TailsAlways(replicas, states, events, hs, k, i);
  }

  // ----- The upper end, whatever the merge -----

  /** While node `i` leads, only replies of its own term reach it. */
  ghost predicate OwnTerm(states: seq<Cluster>, events: seq<Event>, k: nat, i: nat)
    requires k < |events| && |states| == |events| + 1
  {
    var e := events[k];
    e.DeliverAppendReply? && e.p.AppendReply? && e.p.dest == i && Leads(states[k], i) ==>
      e.p.append.term == states[k].nodes[i].raft.currentTerm
  }

  ghost predicate NextInside(f: Fields, peer: nat) {
    f.state == Leader ==> peer < |f.nextIndex| && f.nextIndex[peer] <= |f.log|
  }

  lemma InsideElsewhere(f: Fields, g: Fields, peer: nat)
    requires NextInside(f, peer) && KeepsNext(f, g, peer)
    ensures NextInside(g, peer)
  {
  }

  lemma InsideHears(rule: Rule, s: Cluster, h: History, p: Packet, z: Cluster)
    requires Told(s, h) && Step(rule, s, DeliverAppendReply(p), z) && NextInside(s.nodes[p.dest].raft, p.from)
    requires Leads(s, p.dest) ==> p.append.term == s.nodes[p.dest].raft.currentTerm
    ensures p.dest < |z.nodes| && NextInside(z.nodes[p.dest].raft, p.from)
  {
    HearsFields(rule, s, p, z);
    if Leads(s, p.dest) {
      Chronicle.OwnRequest(s, h, p);
    }
  }

  lemma InsideKept(rule: Rule, s: Cluster, h: History, e: Event, z: Cluster, i: nat, peer: nat)
    requires Told(s, h) && Step(rule, s, e, z) && peer < |s.nodes| && peer != i
    requires i < |s.nodes| && NextInside(s.nodes[i].raft, peer)
    requires e.DeliverAppendReply? && e.p.AppendReply? && e.p.dest == i && Leads(s, i) ==>
      e.p.append.term == s.nodes[i].raft.currentTerm
    ensures i < |z.nodes| && NextInside(z.nodes[i].raft, peer)
  {
    if i != Site(e) {
      Effects.OthersRest(rule, s, e, z);
    } else if e.DeliverAppendReply? && e.p.from == peer {
      InsideHears(rule, s, h, e.p, z);
    } else if e.SendAppend? && e.peer == peer {
      assert z.nodes[i] == s.nodes[i];
    } else {
      SizedAndAlone(s, h, e);
      ElsewhereKeeps(rule, s, e, z, peer);
      InsideElsewhere(s.nodes[i].raft, z.nodes[i].raft, peer);
    }
  }

  /** Under either merge, however exchanges overlap and nodes restart: if no reply of an older term reaches the leader,
      its `nextIndex` never passes the end of its log. */
  lemma {:induction false} OwnTermNextInside(
    rule: Rule, replicas: nat, states: seq<Cluster>, events: seq<Event>, k: nat, i: nat, peer: nat)
    requires Run(rule, replicas, states, events) && k < |states| && i < replicas && peer < replicas && peer != i
    requires forall m {:trigger OwnTerm(states, events, m, i)} :: 0 <= m < k ==> OwnTerm(states, events, m, i)
    ensures i < |states[k].nodes| && NextInside(states[k].nodes[i].raft, peer)
    decreases k
  {
    Chronicle.GroupSize(rule, replicas, states, events, k);
    if k > 0 {
      OwnTermNextInside(rule, replicas, states, events, k - 1, i, peer);
      Chronicle.GroupSize(rule, replicas, states, events, k - 1);
      var hs := Chronicle.Record(rule, replicas, states, events);
      assert Stepped(rule, states, events, k - 1);
      assert Told(states[k - 1], hs[k - 1]) && OwnTerm(states, events, k - 1, i);
      InsideKept(rule, states[k - 1], hs[k - 1], events[k - 1], states[k], i, peer);
    }
  }
}
