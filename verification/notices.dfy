/** What a request says of its sender besides the log: a commit index and the client that wrote last. */
module Notices {
  import Entries
  import opened Consensus
  import opened Protocol
  import opened Cluster
  import Chronicle
  import Effects
  import Elections

  /** A leader's term, commit index and latest client at one moment. */
  datatype Notice = Notice(term: nat, commit: int, client: Entries.Bytes)

  function NoticeOf(f: Fields): Notice {
    Notice(f.currentTerm, f.commitIndex, f.latestClient)
  }

  /** What the leaders of this state could say. */
  function Said(s: Cluster): set<Notice> {
    set i | 0 <= i < |s.nodes| && s.nodes[i].raft.state == Leader :: NoticeOf(s.nodes[i].raft)
  }

  function SaidUpTo(states: seq<Cluster>, k: nat): set<Notice>
    requires k < |states|
  {
    if k == 0 then Said(states[0]) else SaidUpTo(states, k - 1) + Said(states[k])
  }

  lemma {:induction false} SaidOnce(states: seq<Cluster>, k: nat, x: Notice) returns (a: nat, i: nat)
    requires k < |states| && x in SaidUpTo(states, k)
    ensures a <= k && Leads(states[a], i) && NoticeOf(states[a].nodes[i].raft) == x
    decreases k
  {
    if x in Said(states[k]) {
      a := k;
      i :| 0 <= i < |states[k].nodes| && states[k].nodes[i].raft.state == Leader
           && NoticeOf(states[k].nodes[i].raft) == x;
    } else {
      a, i := SaidOnce(states, k - 1, x);
    }
  }

  ghost predicate RoundSaid(r: Round, said: set<Notice>) {
    Notice(r.term, r.leaderCommit, r.client) in said
  }

  ghost predicate RoundsSaid(node: Node, said: set<Notice>) {
    forall r {:trigger node.rounds[r]} :: 0 <= r < |node.rounds| ==> RoundSaid(node.rounds[r], said)
  }

  ghost predicate PacketSaid(p: Packet, said: set<Notice>) {
    p.AppendRequest? || p.AppendReply? ==> Notice(p.append.term, p.append.leaderCommit, p.append.latestClient) in said
  }

  /** Rounds and requests repeat what their leader was at some moment. */
  ghost predicate AllSaid(s: Cluster, said: set<Notice>) {
    && (forall i {:trigger s.nodes[i]} :: 0 <= i < |s.nodes| ==> RoundsSaid(s.nodes[i], said))
    && (forall p {:trigger p in s.net} :: p in s.net ==> PacketSaid(p, said))
  }

  lemma RoundsKept(rule: Rule, s: Cluster, e: Event, z: Cluster, said: set<Notice>)
    requires Step(rule, s, e, z) && AllSaid(s, said) && Said(s) <= said
    ensures Site(e) < |z.nodes| && RoundsSaid(z.nodes[Site(e)], said + Said(z))
  {
    var i := Site(e);
    var x, y := s.nodes[i], z.nodes[i];
    assert RoundsSaid(x, said);
    match e {
      case ClientWrite(_, _, _) => assert NoticeOf(y.raft) in Said(z);
      case StartRound(_, _) => assert NoticeOf(x.raft) in Said(s);
      case DeliverVoteReply(p) => VotesSaid(x, p.from, p.vote, said, y, Said(z));
      case DeliverAppendReply(_) => ReplySaid(rule, s, e, z, said);
      case _ =>
    }
  }

  lemma VotesSaid(
    x: Node, from: nat, vote: RequestVoteResponse, said: set<Notice>, y: Node, more: set<Notice>)
    requires RoundsSaid(x, said) && y == CountVote(x, from, vote)
    requires y.raft.state == Leader ==> NoticeOf(y.raft) in more
    ensures RoundsSaid(y, said + more)
  {
  }

  lemma ReplySaid(rule: Rule, s: Cluster, e: Event, z: Cluster, said: set<Notice>)
    requires Step(rule, s, e, z) && e.DeliverAppendReply? && RoundsSaid(s.nodes[Site(e)], said)
    ensures Site(e) < |z.nodes| && RoundsSaid(z.nodes[Site(e)], said)
  {
    var x, y := s.nodes[Site(e)], z.nodes[Site(e)];
    forall r | 0 <= r < |y.rounds|
      ensures RoundSaid(y.rounds[r], said)
    {
      assert RoundSaid(x.rounds[r], said);
    }
  }

  lemma PacketsKept(rule: Rule, s: Cluster, e: Event, z: Cluster, said: set<Notice>, p: Packet)
    requires Step(rule, s, e, z) && AllSaid(s, said) && Said(s) <= said && p in z.net
    ensures PacketSaid(p, said)
  {
    if p !in s.net {
      match e {
        case SendAppend(i, round, _) =>
          assert RoundsSaid(s.nodes[i], said) && RoundSaid(s.nodes[i].rounds[round], said);
        case DeliverAppendReply(q) => RetrySaid(rule, s, q, z, said, p);
        case DeliverAppend(q) => assert q in s.net;
        case _ =>
      }
    }
  }

  lemma RetrySaid(rule: Rule, s: Cluster, q: Packet, z: Cluster, said: set<Notice>, p: Packet)
    requires Step(rule, s, DeliverAppendReply(q), z) && Said(s) <= said && p in z.net && p !in s.net
    ensures PacketSaid(p, said)
  {
    var f := s.nodes[q.dest].raft;
    assert NoticeOf(f) in Said(s);
  }

  lemma SaidKept(rule: Rule, s: Cluster, e: Event, z: Cluster, said: set<Notice>)
    requires Step(rule, s, e, z) && AllSaid(s, said) && Said(s) <= said
    ensures AllSaid(z, said + Said(z))
  {
    Effects.OthersRest(rule, s, e, z);
    RoundsKept(rule, s, e, z, said);
    forall i | 0 <= i < |z.nodes|
      ensures RoundsSaid(z.nodes[i], said + Said(z))
    {
      if i != Site(e) {
        assert RoundsSaid(s.nodes[i], said);
      }
    }
    forall p | p in z.net
      ensures PacketSaid(p, said + Said(z))
    {
      PacketsKept(rule, s, e, z, said, p);
    }
  }

  lemma {:induction false} SaidAlways(rule: Rule, replicas: nat, states: seq<Cluster>, events: seq<Event>, k: nat)
    requires Run(rule, replicas, states, events) && k < |states|
    ensures AllSaid(states[k], SaidUpTo(states, k)) && Said(states[k]) <= SaidUpTo(states, k)
    decreases k
  {
    if k > 0 {
      SaidAlways(rule, replicas, states, events, k - 1);
      assert Stepped(rule, states, events, k - 1);
      SaidKept(rule, states[k - 1], events[k - 1], states[k], SaidUpTo(states, k - 1));
    }
  }

  /** Over every run and under either merge: the commit index and the latest client of a request are those that its
      sender had, both at one moment at which it led the term of the request. */
  lemma RequestSaysWhatWas(rule: Rule, replicas: nat, states: seq<Cluster>, events: seq<Event>, k: nat, p: Packet)
    returns (a: nat)
    requires Run(rule, replicas, states, events) && k < |states| && p in states[k].net && p.AppendRequest?
    ensures a <= k && Leads(states[a], p.from)
    ensures var f, m := states[a].nodes[p.from].raft, p.append;
      m.term == f.currentTerm && m.leaderCommit == f.commitIndex && m.latestClient == f.latestClient
  {
    SaidAlways(rule, replicas, states, events, k);
    var i;
    a, i := SaidOnce(states, k, Notice(p.append.term, p.append.leaderCommit, p.append.latestClient));
    var hs := Chronicle.Record(rule, replicas, states, events);
    Chronicle.LedThen(states, events, hs, a, k, i);
    assert Elections.Told(states[k], hs[k]) && Elections.PacketFits(states[k], hs[k], p);
  }
}
