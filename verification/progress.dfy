/** What a group can do next: from every state that a run can reach, any majority can elect one of its members and have
    a write succeed, while the other nodes do nothing. */
module Progress {
  import opened Entries
  import opened Consensus
  import opened Protocol
  import opened Cluster
  import opened Scripts
  import Answers
  import Chronicle
  import Counting
  import Elections
  import Guard
  import Tokens
  import Reads
  import Votes

  // ----- How a run goes on -----

  /** What the code can do here: a write and a read wait until everything committed is applied, a PUT or DELETE finds
      its key, a batch is applied whole, and no proposal is given up. */
  ghost predicate Allowed(s: Cluster, e: Event) {
    && FairAt(s, e) && !e.GiveUp?
    && (e.StartRound? && e.i < |s.nodes| ==> s.nodes[e.i].raft.commitIndex == s.nodes[e.i].raft.lastApplied)
  }

  /** The run goes on, with such events at these nodes only. */
  ghost predicate Onward(states: seq<Cluster>, events: seq<Event>, ss: seq<Cluster>, es: seq<Event>, who: set<nat>) {
    && |states| == |events| + 1 && |ss| == |es| + 1 && |events| <= |es|
    && ss[..|states|] == states && es[..|events|] == events
    && forall k {:trigger es[k]} :: |events| <= k < |es| ==> Site(es[k]) in who && Allowed(ss[k], es[k])
  }

  lemma OnwardAgain(
    s1: seq<Cluster>, e1: seq<Event>, s2: seq<Cluster>, e2: seq<Event>, s3: seq<Cluster>, e3: seq<Event>, who: set<nat>)
    requires Onward(s1, e1, s2, e2, who) && Onward(s2, e2, s3, e3, who)
    ensures Onward(s1, e1, s3, e3, who)
  {
    assert s3[..|s1|] == s3[..|s2|][..|s1|] && e3[..|e1|] == e3[..|e2|][..|e1|];
    forall k | |e1| <= k < |e3|
      ensures Site(e3[k]) in who && Allowed(s3[k], e3[k])
    {
      if k < |e2| {
        assert e3[k] == e3[..|e2|][k] == e2[k] && s3[k] == s3[..|s2|][k] == s2[k];
      }
    }
  }

  /** A run from `states`, `events` to `z`, with events at these nodes only. */
  ghost predicate Reaches(
    rule: Rule, n: nat, states: seq<Cluster>, events: seq<Event>, ss: seq<Cluster>, es: seq<Event>, z: Cluster,
    who: set<nat>)
  {
    Ends(rule, n, ss, es, z) && Onward(states, events, ss, es, who)
  }

  lemma One(
    rule: Rule, n: nat, states: seq<Cluster>, events: seq<Event>, s: Cluster, e: Event, z: Cluster, who: set<nat>)
    requires Ends(rule, n, states, events, s) && Step(rule, s, e, z) && Site(e) in who && Allowed(s, e)
    ensures Reaches(rule, n, states, events, states + [z], events + [e], z, who)
  {
    Go(rule, n, states, events, s, e, z);
  }

  // ----- One exchange -----

  /** The leader goes on, with successes counted and `nextIndex` moved. */
  ghost predicate Carries(x: Node, y: Node) {
    && |y.raft.nextIndex| == |x.raft.nextIndex| && y.raft == x.raft.(nextIndex := y.raft.nextIndex)
    && y.waiting == x.waiting && y.store == x.store && |y.rounds| == |x.rounds|
    && forall r {:trigger y.rounds[r]} :: 0 <= r < |x.rounds| ==>
         y.rounds[r] == x.rounds[r].(ok := y.rounds[r].ok) && x.rounds[r].ok <= y.rounds[r].ok
  }

  lemma CarriesOn(x: Node, y: Node, z: Node)
    requires Carries(x, y) && Carries(y, z)
    ensures Carries(x, z)
  {
    forall r | 0 <= r < |x.rounds|
      ensures z.rounds[r] == x.rounds[r].(ok := z.rounds[r].ok) && x.rounds[r].ok <= z.rounds[r].ok
    {
      assert y.rounds[r] == x.rounds[r].(ok := y.rounds[r].ok);
    }
  }

  /** A node that does not refuse requests of the term. */
  ghost predicate Open(f: Fields, term: nat) {
    f.currentTerm <= term && f.commitIndex >= -1
  }

  lemma StaysOpen(rule: Rule, f: Fields, m: AppendEntriesMessage)
    requires m.prevLogIndex >= -1 && Open(f, m.term)
    ensures Open(OnAppendEntries(rule, f, m).0, m.term)
  {
    Answers.AnswerIff(rule, f, m);
    if Answers.Precedes(f.log, m) {
      Answers.AcceptedLearns(rule, f, m);
    }
  }

  /** The request of a round of the leader to a peer that does not refuse its term. */
  ghost predicate Asked(s: Cluster, i: nat, r: nat, q: nat, p: Packet) {
    && Current(s, i, r) && q < |s.nodes| && q != i && q < |s.nodes[i].raft.nextIndex|
    && p in s.net && p.AppendRequest? && p.from == i && p.dest == q && p.round == r
    && p.upper == s.nodes[i].rounds[r].upper < |s.nodes[i].raft.log|
    && p.append.term == s.nodes[i].raft.currentTerm
    && -1 <= p.append.prevLogIndex < |s.nodes[i].raft.log|
    && Open(s.nodes[q].raft, p.append.term)
  }

  /** Nothing has happened at the other nodes. */
  ghost predicate OthersSame(s: Cluster, z: Cluster, i: nat, q: nat) {
    && |z.nodes| == |s.nodes|
    && forall j {:trigger z.nodes[j]} :: 0 <= j < |s.nodes| && j != i && j != q ==> z.nodes[j] == s.nodes[j]
  }

  /** However far back the logs differ, the exchange ends with a success that is counted. */
  lemma {:induction false} Exchange(
    rule: Rule, n: nat, states: seq<Cluster>, events: seq<Event>, s: Cluster, i: nat, r: nat, q: nat, p: Packet)
    returns (ss: seq<Cluster>, es: seq<Event>, z: Cluster)
    requires Ends(rule, n, states, events, s) && Asked(s, i, r, q, p)
    ensures Reaches(rule, n, states, events, ss, es, z, {i, q}) && OthersSame(s, z, i, q)
    ensures i < |z.nodes| && q < |z.nodes| && Carries(s.nodes[i], z.nodes[i]) && q in z.nodes[i].rounds[r].ok
    ensures Open(z.nodes[q].raft, s.nodes[i].raft.currentTerm)
    ensures z.nodes[i].raft.nextIndex[q] == p.upper + 1
    ensures forall j :: 0 <= j < |z.nodes[i].raft.nextIndex| && j != q ==>
      z.nodes[i].raft.nextIndex[j] == s.nodes[i].raft.nextIndex[j]
    decreases p.append.prevLogIndex + 1
  {
    var (g, reply) := OnAppendEntries(rule, s.nodes[q].raft, p.append);
    Answers.AnswerIff(rule, s.nodes[q].raft, p.append);
    StaysOpen(rule, s.nodes[q].raft, p.append);
    var answer := AppendReply(q, i, r, p.upper, p.append, reply);
    var s1 := Moved(s, q, s.nodes[q].(raft := g), {answer});
    One(rule, n, states, events, s, DeliverAppend(p), s1, {i, q});
    ss, es := states + [s1], events + [DeliverAppend(p)];
    var s2, again := Heard(rule, s1, i, r, q, answer);
    One(rule, n, ss, es, s1, DeliverAppendReply(answer), s2, {i, q});
    OnwardAgain(states, events, ss, es, ss + [s2], es + [DeliverAppendReply(answer)], {i, q});
    ss, es, z := ss + [s2], es + [DeliverAppendReply(answer)], s2;
    if !reply.success {
      var s3, e3;
      s3, e3, z := Exchange(rule, n, ss, es, s2, i, r, q, again);
      OnwardAgain(states, events, ss, es, s3, e3, {i, q});
      CarriesOn(s.nodes[i], s2.nodes[i], z.nodes[i]);
      ss, es := s3, e3;
    }
  }

  /** The leader hears the answer: a success is counted, a refusal leads to a request from one entry further back. */
  lemma Heard(rule: Rule, s: Cluster, i: nat, r: nat, q: nat, p: Packet) returns (z: Cluster, again: Packet)
    requires Current(s, i, r) && q < |s.nodes| && q != i && q < |s.nodes[i].raft.nextIndex| && p in s.net
    requires p.AppendReply? && p.from == q && p.dest == i && p.round == r
    requires p.upper == s.nodes[i].rounds[r].upper < |s.nodes[i].raft.log|
    requires p.append.term == p.reply.term == s.nodes[i].raft.currentTerm
    requires -1 <= p.append.prevLogIndex < |s.nodes[i].raft.log| && (!p.reply.success ==> p.append.prevLogIndex >= 0)
    requires Open(s.nodes[q].raft, p.append.term)
    ensures Step(rule, s, DeliverAppendReply(p), z) && OthersSame(s, z, i, i) && Carries(s.nodes[i], z.nodes[i])
    ensures p.reply.success ==> q in z.nodes[i].rounds[r].ok && z.nodes[i].raft.nextIndex[q] == p.upper + 1
    ensures !p.reply.success ==>
      Asked(z, i, r, q, again) && again.upper == p.upper && again.append.prevLogIndex == p.append.prevLogIndex - 1
    ensures forall j :: 0 <= j < |z.nodes[i].raft.nextIndex| && j != q ==>
      z.nodes[i].raft.nextIndex[j] == s.nodes[i].raft.nextIndex[j]
  {
    var node := s.nodes[i];
    var (f, outcome) := OnAppendReply(node.raft, q, p.upper, p.reply);
    Answers.OwnTermMeans(node.raft, q, p.upper, p.reply);
    again := p;
    if p.reply.success {
      z := Moved(s, i, Counted(node.(raft := f), r, p.append.term, q), {});
    } else {
      again := AppendRequest(i, q, r, p.upper, RetryRequest(f, p.append, p.upper));
      z := Moved(s, i, node.(raft := f), {again});
    }
  }

  // ----- One round -----

  /** The leader can send the round to the peer, which does not refuse its term. */
  ghost predicate Sendable(s: Cluster, i: nat, q: nat) {
    && i < |s.nodes| && q < |s.nodes| && q != i && q < |s.nodes[i].raft.nextIndex|
    && 0 <= s.nodes[i].raft.nextIndex[q] <= |s.nodes[i].raft.log|
    && Open(s.nodes[q].raft, s.nodes[i].raft.currentTerm)
  }

  /** A first request and everything that follows from it. */
  lemma SendTo(rule: Rule, n: nat, states: seq<Cluster>, events: seq<Event>, s: Cluster, i: nat, r: nat, q: nat)
    returns (ss: seq<Cluster>, es: seq<Event>, z: Cluster)
    requires Ends(rule, n, states, events, s) && Current(s, i, r) && Sendable(s, i, q)
    requires s.nodes[i].rounds[r].upper < |s.nodes[i].raft.log|
    ensures Reaches(rule, n, states, events, ss, es, z, {i, q}) && OthersSame(s, z, i, q)
    ensures i < |z.nodes| && q < |z.nodes| && Carries(s.nodes[i], z.nodes[i]) && q in z.nodes[i].rounds[r].ok
    ensures Open(z.nodes[q].raft, s.nodes[i].raft.currentTerm)
    ensures z.nodes[i].raft.nextIndex[q] == s.nodes[i].rounds[r].upper + 1
    ensures forall j :: 0 <= j < |z.nodes[i].raft.nextIndex| && j != q ==>
      z.nodes[i].raft.nextIndex[j] == s.nodes[i].raft.nextIndex[j]
  {
    var round := s.nodes[i].rounds[r];
    var m := FirstRequest(s.nodes[i].raft, q, round.upper, round.leaderCommit, round.client);
    var p := AppendRequest(i, q, r, round.upper, m);
    var s1 := Moved(s, i, s.nodes[i], {p});
    assert s1.nodes == s.nodes;
    One(rule, n, states, events, s, SendAppend(i, r, q), s1, {i, q});
    ss, es, z := Exchange(rule, n, states + [s1], events + [SendAppend(i, r, q)], s1, i, r, q, p);
    OnwardAgain(states, events, states + [s1], events + [SendAppend(i, r, q)], ss, es, {i, q});
  }

  lemma WiderOnward(
    states: seq<Cluster>, events: seq<Event>, ss: seq<Cluster>, es: seq<Event>, who: set<nat>, all: set<nat>)
    requires Onward(states, events, ss, es, who) && who <= all
    ensures Onward(states, events, ss, es, all)
  {
  }

  /** Where the round stands: these peers have accepted it. */
  ghost predicate Accepted(s: Cluster, z: Cluster, i: nat, r: nat, peers: set<nat>) {
    && i < |s.nodes| == |z.nodes| && r < |s.nodes[i].rounds| && Carries(s.nodes[i], z.nodes[i])
    && peers <= z.nodes[i].rounds[r].ok
    && (forall q {:trigger q in peers} :: q in peers ==> q < |z.nodes|)
    && (forall q {:trigger z.nodes[q]} :: 0 <= q < |z.nodes| && q != i ==>
          Open(s.nodes[q].raft, s.nodes[i].raft.currentTerm) ==> Open(z.nodes[q].raft, s.nodes[i].raft.currentTerm))
    && (forall q :: 0 <= q < |z.nodes[i].raft.nextIndex| && q != i ==>
          z.nodes[i].raft.nextIndex[q] ==
            if q in peers then s.nodes[i].rounds[r].upper + 1 else s.nodes[i].raft.nextIndex[q])
  }

  /** The round reaches each of these peers, one after the other, and nobody else has to do anything. */
  lemma {:induction false} RoundReaches(
    rule: Rule, n: nat, states: seq<Cluster>, events: seq<Event>, s: Cluster, i: nat, r: nat, peers: set<nat>,
    all: set<nat>)
    returns (ss: seq<Cluster>, es: seq<Event>, z: Cluster)
    requires Ends(rule, n, states, events, s) && Current(s, i, r) && i in all && peers <= all && i !in peers
    requires 0 <= s.nodes[i].rounds[r].upper < |s.nodes[i].raft.log|
    requires forall q :: q in peers ==> Sendable(s, i, q)
    ensures Reaches(rule, n, states, events, ss, es, z, all) && Accepted(s, z, i, r, peers)
    decreases |peers|
  {
    if peers == {} {
      ss, es, z := states, events, s;
    } else {
      var q :| q in peers;
      var s1, e1, z1 := RoundReaches(rule, n, states, events, s, i, r, peers - {q}, all);
      ss, es, z := SendTo(rule, n, s1, e1, z1, i, r, q);
      WiderOnward(s1, e1, ss, es, {i, q}, all);
      OnwardAgain(states, events, s1, e1, ss, es, all);
      CarriesOn(s.nodes[i], z1.nodes[i], z.nodes[i]);
      OneMoreAccepted(s, z1, z, i, r, q, peers);
    }
  }

  lemma OneMoreAccepted(s: Cluster, y: Cluster, z: Cluster, i: nat, r: nat, q: nat, peers: set<nat>)
    requires q in peers && q != i && Accepted(s, y, i, r, peers - {q}) && OthersSame(y, z, i, q)
    requires q < |z.nodes| && Carries(s.nodes[i], z.nodes[i]) && Carries(y.nodes[i], z.nodes[i])
    requires q in z.nodes[i].rounds[r].ok && Open(z.nodes[q].raft, s.nodes[i].raft.currentTerm)
    requires q < |z.nodes[i].raft.nextIndex| && z.nodes[i].raft.nextIndex[q] == s.nodes[i].rounds[r].upper + 1
    requires forall j :: 0 <= j < |z.nodes[i].raft.nextIndex| && j != q ==>
      z.nodes[i].raft.nextIndex[j] == y.nodes[i].raft.nextIndex[j]
    ensures Accepted(s, z, i, r, peers)
  {
    assert y.nodes[i].rounds[r].ok <= z.nodes[i].rounds[r].ok;
    forall v | v in peers
      ensures v < |z.nodes| && v in z.nodes[i].rounds[r].ok
    {
      assert v == q || v in peers - {q};
    }
  }

  /** More than half of the group. */
  ghost predicate Most(q: set<nat>, n: nat) {
    2 * |q| > n && forall v :: v in q ==> v < n
  }

  /** A round for a proposal that has not been decided. */
  ghost predicate Pending(s: Cluster, i: nat, r: nat) {
    && Current(s, i, r)
    && var round := s.nodes[i].rounds[r];
    && (round.kind == NoOpRound || round.kind == WriteRound) && i in round.ok
    && 0 <= round.index <= round.upper < |s.nodes[i].raft.log| && round.index in s.nodes[i].waiting
  }

  /** The leader and enough peers: the proposal of the round succeeds, and the commit index moves by one. */
  lemma RoundSucceeds(
    rule: Rule, n: nat, states: seq<Cluster>, events: seq<Event>, s: Cluster, i: nat, r: nat, q: set<nat>)
    returns (ss: seq<Cluster>, es: seq<Event>, z: Cluster)
    requires Ends(rule, n, states, events, s) && |s.nodes| == n && Pending(s, i, r) && Most(q, n) && i in q
    requires forall v :: v in q && v != i ==> Sendable(s, i, v)
    ensures Reaches(rule, n, states, events, ss, es, z, q) && |z.nodes| == n
    ensures |es| > |events| && es[|es| - 1] == CommitProposal(i, r)
    ensures Leads(z, i) && z.nodes[i].raft.commitIndex == s.nodes[i].raft.commitIndex + 1
    ensures z.nodes[i].raft.log == s.nodes[i].raft.log && z.nodes[i].raft.currentTerm == s.nodes[i].raft.currentTerm
    ensures z.nodes[i].raft.latestClient == s.nodes[i].raft.latestClient && z.nodes[i].store == s.nodes[i].store
    ensures s.nodes[i].raft.log[s.nodes[i].rounds[r].index].operation.NoOp? ==> SameMemory(s.nodes[i], z.nodes[i])
    ensures forall v :: v in q && v != i ==>
      Sendable(z, i, v) && z.nodes[i].raft.nextIndex[v] == s.nodes[i].rounds[r].upper + 1
  {
    var s1, e1, y := RoundReaches(rule, n, states, events, s, i, r, q - {i}, q);
    assert q <= y.nodes[i].rounds[r].ok;
    SubsetSize(q, y.nodes[i].rounds[r].ok);
    z := Moved(y, i, Committed1(y.nodes[i], r), {});
    ss, es := s1 + [z], e1 + [CommitProposal(i, r)];
    One(rule, n, s1, e1, y, CommitProposal(i, r), z, q);
    OnwardAgain(states, events, s1, e1, ss, es, q);
  }

  /** A write that waits and passes the check succeeds, if it is not refused. */
  lemma WriteSucceeds(
    rule: Rule, n: nat, states: seq<Cluster>, events: seq<Event>, s: Cluster, i: nat, q: set<nat>,
    op: Operation, c: Bytes)
    returns (ss: seq<Cluster>, es: seq<Event>, z: Cluster)
    requires Ends(rule, n, states, events, s) && |s.nodes| == n && Leads(s, i) && Most(q, n) && i in q
    requires s.nodes[i].raft.replicaId == i && !op.NoOp? && !Duplicate(s.nodes[i].raft, op, c)
    requires s.nodes[i].raft.commitIndex == s.nodes[i].raft.lastApplied && Guard.Checked(s.nodes[i], op)
    requires forall v :: v in q && v != i ==> Sendable(s, i, v)
    ensures Reaches(rule, n, states, events, ss, es, z, q) && |z.nodes| == n && Leads(z, i)
    ensures |es| > |events| && es[|events|] == ClientWrite(i, op, c)
    ensures es[|es| - 1] == CommitProposal(i, |s.nodes[i].rounds|)
    ensures z.nodes[i].raft.log == s.nodes[i].raft.log + [LogEntry(s.nodes[i].raft.currentTerm, op, c)]
    ensures z.nodes[i].raft.currentTerm == s.nodes[i].raft.currentTerm
    ensures z.nodes[i].raft.commitIndex == s.nodes[i].raft.commitIndex + 1
    ensures forall v :: v in q && v != i ==> Sendable(z, i, v)
  {
    var y := Moved(s, i, Wrote(s.nodes[i], op, c), {});
    var s1, e1 := states + [y], events + [ClientWrite(i, op, c)];
    One(rule, n, states, events, s, ClientWrite(i, op, c), y, q);
    ss, es, z := RoundSucceeds(rule, n, s1, e1, y, i, |s.nodes[i].rounds|, q);
    OnwardAgain(states, events, s1, e1, ss, es, q);
    assert es[|events|] == es[..|e1|][|events|];
  }

  /** A read that waits, by a leader that can send to enough peers, is served. */
  lemma ReadServes(
    rule: Rule, n: nat, states: seq<Cluster>, events: seq<Event>, s: Cluster, i: nat, q: set<nat>)
    returns (ss: seq<Cluster>, es: seq<Event>, z: Cluster)
    requires Ends(rule, n, states, events, s) && |s.nodes| == n && Leads(s, i) && Most(q, n) && i in q
    requires s.nodes[i].raft.replicaId == i && s.nodes[i].raft.log != []
    requires s.nodes[i].raft.commitIndex == s.nodes[i].raft.lastApplied
    requires forall v :: v in q && v != i ==> Sendable(s, i, v)
    ensures Reaches(rule, n, states, events, ss, es, z, q) && |z.nodes| == n && Leads(z, i)
    ensures |es| > |events| && es[|events|] == StartRound(i, ReadCheck)
    ensures es[|es| - 1] == ServeRead(i, |s.nodes[i].rounds|) && ss[|events|] == s && ss[|es| - 1] == z
    ensures z.nodes[i].store == s.nodes[i].store && z.nodes[i].raft.currentTerm == s.nodes[i].raft.currentTerm
    ensures forall v :: v in q && v != i ==>
      v < |z.nodes[i].raft.nextIndex| && z.nodes[i].raft.nextIndex[v] == |s.nodes[i].raft.log|
  {
    var r := |s.nodes[i].rounds|;
    var y := Moved(s, i, Began(s.nodes[i], ReadCheck), {});
    var s1, e1 := states + [y], events + [StartRound(i, ReadCheck)];
    One(rule, n, states, events, s, StartRound(i, ReadCheck), y, q);
    var s2, e2;
    s2, e2, z := RoundReaches(rule, n, s1, e1, y, i, r, q - {i}, q);
    assert q <= z.nodes[i].rounds[r].ok;
    SubsetSize(q, z.nodes[i].rounds[r].ok);
    ss, es := s2 + [z], e2 + [ServeRead(i, r)];
    One(rule, n, s2, e2, z, ServeRead(i, r), z, q);
    OnwardAgain(s1, e1, s2, e2, ss, es, q);
    OnwardAgain(states, events, s1, e1, ss, es, q);
    assert es[|events|] == es[..|e1|][|events|] && ss[|events|] == ss[..|s1|][|events|];
  }

  /** A leader whose no-op has not succeeded sends it again, with everything it has appended since. */
  lemma NoOpAgain(
    rule: Rule, n: nat, states: seq<Cluster>, events: seq<Event>, s: Cluster, i: nat, q: set<nat>)
    returns (ss: seq<Cluster>, es: seq<Event>, z: Cluster)
    requires Ends(rule, n, states, events, s) && |s.nodes| == n && Pending(s, i, 0) && Most(q, n) && i in q
    requires s.nodes[i].raft.replicaId == i && forall v :: v in q && v != i ==> Sendable(s, i, v)
    ensures Reaches(rule, n, states, events, ss, es, z, q) && |z.nodes| == n && Leads(z, i)
    ensures |es| > |events| && es[|events|] == RetryNoOp(i) && es[|es| - 1] == CommitProposal(i, |s.nodes[i].rounds|)
    ensures forall v :: v in q && v != i ==>
      v < |z.nodes[i].raft.nextIndex| && z.nodes[i].raft.nextIndex[v] == |s.nodes[i].raft.log|
  {
    var r := |s.nodes[i].rounds|;
    var y := Moved(s, i, RetriedNoOp(s.nodes[i]), {});
    var s1, e1 := states + [y], events + [RetryNoOp(i)];
    One(rule, n, states, events, s, RetryNoOp(i), y, q);
    ss, es, z := RoundSucceeds(rule, n, s1, e1, y, i, r, q);
    OnwardAgain(states, events, s1, e1, ss, es, q);
    assert es[|events|] == es[..|e1|][|events|];
  }

  // ----- An election -----

  ghost predicate SameMemory(x: Node, y: Node) {
    y.raft.trackMessage == x.raft.trackMessage && y.raft.latestClient == x.raft.latestClient
  }

  /** The node stands for election in its term, and its requests are on their way. */
  ghost predicate Asking(s: Cluster, i: nat) {
    && i < |s.nodes| && s.nodes[i].raft.state == Candidate && s.nodes[i].raft.replicaId == i
    && s.nodes[i].raft.replicas == |s.nodes|
    && forall j {:trigger VoteRequest(i, j, VoteRequestOf(s.nodes[i].raft))} :: 0 <= j < |s.nodes| && j != i ==>
         VoteRequest(i, j, VoteRequestOf(s.nodes[i].raft)) in s.net
  }

  /** After enough time-outs a node stands in a term above any given one. */
  lemma {:induction false} TimesOut(
    rule: Rule, n: nat, states: seq<Cluster>, events: seq<Event>, s: Cluster, i: nat, term: nat)
    returns (ss: seq<Cluster>, es: seq<Event>, z: Cluster)
    requires Ends(rule, n, states, events, s) && i < |s.nodes| && s.nodes[i].raft.state != Leader
    requires s.nodes[i].raft.replicaId == i && s.nodes[i].raft.replicas == |s.nodes|
    ensures Reaches(rule, n, states, events, ss, es, z, {i}) && OthersSame(s, z, i, i) && Asking(z, i)
    ensures z.nodes[i].raft.currentTerm > term && z.nodes[i].votes == {i}
    ensures z.nodes[i].raft.log == s.nodes[i].raft.log && z.nodes[i].raft.commitIndex == s.nodes[i].raft.commitIndex
    ensures SameMemory(s.nodes[i], z.nodes[i])
    decreases term - s.nodes[i].raft.currentTerm
  {
    var stood := Stood(s.nodes[i]);
    z := Moved(s, i, stood, VoteRequests(stood.raft));
    ss, es := states + [z], events + [Timeout(i)];
    One(rule, n, states, events, s, Timeout(i), z, {i});
    if stood.raft.currentTerm <= term {
      var s1, e1 := ss, es;
      ss, es, z := TimesOut(rule, n, s1, e1, z, i, term);
      OnwardAgain(states, events, s1, e1, ss, es, {i});
    }
  }

  /** A node that grants the candidate's vote: its log is no newer, and it has not been in the term. */
  ghost predicate Willing(s: Cluster, i: nat, j: nat) {
    && i < |s.nodes| && j < |s.nodes| && j != i
    && s.nodes[j].raft.currentTerm < s.nodes[i].raft.currentTerm
    && Votes.NoOlder(s.nodes[i].raft.log, s.nodes[j].raft.log)
  }

  ghost predicate Asks(s: Cluster, i: nat, rest: set<nat>) {
    forall j {:trigger j in rest} :: j in rest ==> Willing(s, i, j)
  }

  /** The request is delivered, and the vote comes back. */
  lemma OneVote(rule: Rule, n: nat, states: seq<Cluster>, events: seq<Event>, s: Cluster, i: nat, j: nat)
    returns (ss: seq<Cluster>, es: seq<Event>, z: Cluster)
    requires Ends(rule, n, states, events, s) && Asking(s, i) && Willing(s, i, j)
    ensures Reaches(rule, n, states, events, ss, es, z, {i, j}) && OthersSame(s, z, i, j) && s.net <= z.net
    ensures i < |z.nodes| && j < |z.nodes| && z.nodes[j].raft.currentTerm == s.nodes[i].raft.currentTerm
    ensures z.nodes[j].raft.commitIndex == s.nodes[j].raft.commitIndex
    ensures z.nodes[i] ==
      CountVote(s.nodes[i], j, RequestVoteResponse(s.nodes[i].raft.currentTerm, true))
  {
    var m := VoteRequestOf(s.nodes[i].raft);
    var ask := VoteRequest(i, j, m);
    Votes.GrantedIff(s.nodes[j].raft, m);
    var (g, vote) := OnRequestVote(s.nodes[j].raft, m);
    var answer := VoteReply(j, i, m, vote);
    var y := Moved(s, j, s.nodes[j].(raft := g), {answer});
    One(rule, n, states, events, s, DeliverVoteRequest(ask), y, {i, j});
    var s1, e1 := states + [y], events + [DeliverVoteRequest(ask)];
    z := Moved(y, i, CountVote(y.nodes[i], j, vote), {});
    ss, es := s1 + [z], e1 + [DeliverVoteReply(answer)];
    One(rule, n, s1, e1, y, DeliverVoteReply(answer), z, {i, j});
    OnwardAgain(states, events, s1, e1, ss, es, {i, j});
  }

  /** The candidate has become the leader, and the others are no further than its term. */
  ghost predicate Won(s: Cluster, z: Cluster, i: nat) {
    && i < |s.nodes| == |z.nodes|
    && z.nodes[i] == BecomeLeader(s.nodes[i].(votes := z.nodes[i].votes))
    && NotFurther(s, z, i)
  }

  ghost predicate NotFurther(s: Cluster, z: Cluster, i: nat) {
    && i < |s.nodes| == |z.nodes|
    && forall j {:trigger z.nodes[j]} :: 0 <= j < |s.nodes| && j != i ==>
         && z.nodes[j].raft.commitIndex == s.nodes[j].raft.commitIndex
         && (z.nodes[j].raft.currentTerm == s.nodes[j].raft.currentTerm
             || z.nodes[j].raft.currentTerm == s.nodes[i].raft.currentTerm)
  }

  /** One vote after the other, until they are enough. */
  lemma {:induction false} VotesCome(
    rule: Rule, n: nat, states: seq<Cluster>, events: seq<Event>, s: Cluster, i: nat, rest: set<nat>, all: set<nat>)
    returns (ss: seq<Cluster>, es: seq<Event>, z: Cluster)
    requires Ends(rule, n, states, events, s) && |s.nodes| == n && Asking(s, i) && i in all && rest <= all
    requires (forall v :: v in s.nodes[i].votes ==> v < n) && rest != {}
    requires Asks(s, i, rest)
    requires 2 * |s.nodes[i].votes + rest| > n
    ensures Reaches(rule, n, states, events, ss, es, z, all) && Won(s, z, i)
    decreases |rest|
  {
    var j :| j in rest;
    ss, es, z := OneVote(rule, n, states, events, s, i, j);
    WiderOnward(states, events, ss, es, {i, j}, all);
    if z.nodes[i].raft.state != Leader {
      var s1, e1, y := ss, es, z;
      StillAsking(s, y, i, j, rest);
      ss, es, z := VotesCome(rule, n, s1, e1, y, i, rest - {j}, all);
      OnwardAgain(states, events, s1, e1, ss, es, all);
    }
  }

  /** A vote that was not enough: some of the others are still to come, and enough of them. */
  lemma StillAsking(s: Cluster, y: Cluster, i: nat, j: nat, rest: set<nat>)
    requires Asking(s, i) && Asks(s, i, rest) && j in rest && OthersSame(s, y, i, j) && s.net <= y.net
    requires (forall v :: v in s.nodes[i].votes ==> v < |s.nodes|) && 2 * |s.nodes[i].votes + rest| > |s.nodes|
    requires y.nodes[i] == CountVote(s.nodes[i], j, RequestVoteResponse(s.nodes[i].raft.currentTerm, true))
    requires y.nodes[i].raft.state != Leader
    ensures Asking(y, i) && Asks(y, i, rest - {j}) && rest - {j} != {}
    ensures y.nodes[i].raft == s.nodes[i].raft && y.nodes[i] == s.nodes[i].(votes := y.nodes[i].votes)
    ensures (forall v :: v in y.nodes[i].votes ==> v < |y.nodes|) && 2 * |y.nodes[i].votes + (rest - {j})| > |y.nodes|
  {
    Votes.ElectedIff(s.nodes[i], j, RequestVoteResponse(s.nodes[i].raft.currentTerm, true));
    assert y.nodes[i].votes + (rest - {j}) == s.nodes[i].votes + rest;
    assert y.nodes[i].votes + {} == y.nodes[i].votes;
  }

  // ----- From every state -----

  lemma {:induction false} LargestTerm(s: Cluster, q: set<nat>) returns (t: nat)
    requires forall v :: v in q ==> v < |s.nodes|
    ensures forall v :: v in q ==> s.nodes[v].raft.currentTerm <= t
  {
    t := 0;
    if q != {} {
      var v :| v in q;
      t := LargestTerm(s, q - {v});
      if t < s.nodes[v].raft.currentTerm {
        t := s.nodes[v].raft.currentTerm;
      }
    }
  }

  /** A node after a restart: it follows, what it has committed is applied or announced, and it remembers nobody. */
  ghost predicate Restored(node: Node) {
    && node.raft.state == Follower && Tokens.Balanced(node.raft)
    && node.raft.trackMessage == map[] && node.raft.latestClient == NO_CLIENT
  }

  lemma RestartRestores(node: Node)
    requires StorageOk(node.raft) && node.raft.lastApplied <= node.raft.commitIndex
    ensures Restored(Restarted(node))
  {
    var g := Restarted(node).raft;
    if g.commitsReady != [] {
      Tokens.SumAppend([], g.commitsReady[0]);
      assert [] + [g.commitsReady[0]] == g.commitsReady;
    }
  }

  /** A set of nodes restarts. */
  lemma {:induction false} Restarts(
    rule: Rule, n: nat, states: seq<Cluster>, events: seq<Event>, s: Cluster, q: set<nat>, all: set<nat>)
    returns (ss: seq<Cluster>, es: seq<Event>, z: Cluster)
    requires Ends(rule, n, states, events, s) && q <= all && forall v :: v in q ==> v < n
    ensures Reaches(rule, n, states, events, ss, es, z, all) && |z.nodes| == |s.nodes|
    ensures forall v :: v in q ==> v < |z.nodes| && Restored(z.nodes[v])
    ensures forall v {:trigger z.nodes[v]} :: 0 <= v < |z.nodes| && v !in q ==> z.nodes[v] == s.nodes[v]
    decreases |q|
  {
    ss, es, z := states, events, s;
    if q != {} {
      var v :| v in q;
      var s1, e1, y := Restarts(rule, n, states, events, s, q - {v}, all);
      AllReached(rule, n, s1, e1, y);
      assert Regular(y, n, v);
      z := Moved(y, v, Restarted(y.nodes[v]), {});
      ss, es := s1 + [z], e1 + [Crash(v)];
      One(rule, n, s1, e1, y, Crash(v), z, all);
      OnwardAgain(states, events, s1, e1, ss, es, all);
      RestartRestores(y.nodes[v]);
      forall u | u in q
        ensures u < |z.nodes| && Restored(z.nodes[u])
      {
        assert u == v || u in q - {v};
      }
    }
  }

  /** What holds of the nodes in every state that a run ends in. */
  lemma Reached(rule: Rule, n: nat, states: seq<Cluster>, events: seq<Event>, s: Cluster, i: nat)
    requires Ends(rule, n, states, events, s) && i < n
    ensures |s.nodes| == n
    ensures s.nodes[i].raft.replicaId == i && s.nodes[i].raft.replicas == n && |s.nodes[i].raft.nextIndex| == n
    ensures s.nodes[i].raft.commitIndex >= -1 && StorageOk(s.nodes[i].raft)
    ensures -1 <= s.nodes[i].raft.lastApplied <= s.nodes[i].raft.commitIndex
  {
    Tokens.TokensInBounds(rule, n, states, events, |events|, i);
    Tokens.SumNonNegative(s.nodes[i].raft.commitsReady);
    var hs := Chronicle.Record(rule, n, states, events);
    Counting.CommitInLog(rule, n, states, events, |events|, i);
    assert Elections.Told(s, hs[|events|]) && Elections.NodeFits(s, hs[|events|], i);
  }

  lemma AllReached(rule: Rule, n: nat, states: seq<Cluster>, events: seq<Event>, s: Cluster)
    requires Ends(rule, n, states, events, s) && n > 0
    ensures |s.nodes| == n
    ensures forall i :: 0 <= i < n ==> Regular(s, n, i)
  {
    forall i | 0 <= i < n
      ensures Regular(s, n, i)
    {
      Reached(rule, n, states, events, s, i);
    }
    Reached(rule, n, states, events, s, 0);
  }

  ghost predicate Regular(s: Cluster, n: nat, i: nat) {
    && i < |s.nodes| && s.nodes[i].raft.replicaId == i && s.nodes[i].raft.replicas == n
    && |s.nodes[i].raft.nextIndex| == n && StorageOk(s.nodes[i].raft)
    && -1 <= s.nodes[i].raft.lastApplied <= s.nodes[i].raft.commitIndex
  }

  /** Of a majority in which nobody leads one member is elected, in a term above any given one. */
  lemma Elects(
    rule: Rule, n: nat, states: seq<Cluster>, events: seq<Event>, s: Cluster, q: set<nat>, term: nat)
    returns (ss: seq<Cluster>, es: seq<Event>, y: Cluster, z: Cluster, i: nat)
    requires Ends(rule, n, states, events, s) && n >= 2 && |s.nodes| == n && Most(q, n)
    requires forall v :: v in q ==> s.nodes[v].raft.state != Leader
    requires forall v :: v in q ==> s.nodes[v].raft.currentTerm <= term
    ensures i in q && Reaches(rule, n, states, events, ss, es, z, q) && Won(y, z, i)
    ensures OthersSame(s, y, i, i) && y.nodes[i].raft.currentTerm > term
    ensures y.nodes[i].raft.log == s.nodes[i].raft.log && SameMemory(s.nodes[i], y.nodes[i])
  {
    AllReached(rule, n, states, events, s);
    var fs := seq(n, j requires 0 <= j < n => s.nodes[j].raft);
    assert q != {};
    i := Votes.SomeoneIsGranted(fs, q);
    var s1, e1;
    assert Regular(s, n, i);
    s1, e1, y := TimesOut(rule, n, states, events, s, i, term);
    WiderOnward(states, events, s1, e1, {i}, q);
    Rest(q, i, n);
    forall j | j in q - {i}
      ensures Willing(y, i, j)
    {
      assert fs[j] == s.nodes[j].raft && fs[i] == s.nodes[i].raft && y.nodes[j] == s.nodes[j];
    }
    ss, es, z := VotesCome(rule, n, s1, e1, y, i, q - {i}, q);
    OnwardAgain(states, events, s1, e1, ss, es, q);
  }

  lemma Rest(q: set<nat>, i: nat, n: nat)
    requires Most(q, n) && i in q && n >= 2
    ensures q - {i} != {} && {i} + (q - {i}) == q
  {
    assert |q - {i}| == |q| - 1;
  }

  /** The winner's no-op can be sent to everybody. */
  lemma NoOpPending(y: Cluster, z: Cluster, i: nat, n: nat, q: set<nat>)
    requires Won(y, z, i) && |z.nodes| == n && Most(q, n)
    requires forall j :: 0 <= j < n ==> Regular(z, n, j)
    requires forall j :: j in q && j != i ==> y.nodes[j].raft.currentTerm <= y.nodes[i].raft.currentTerm
    ensures Pending(z, i, 0) && z.nodes[i].raft.log[z.nodes[i].rounds[0].index].operation.NoOp?
    ensures forall j :: j in q && j != i ==> Sendable(z, i, j)
  {
    assert Regular(z, n, i);
    forall j | j in q && j != i
      ensures Sendable(z, i, j)
    {
      assert Regular(z, n, j) && z.nodes[j] == z.nodes[j];
    }
  }

  /** The election, and the round of the no-op. */
  lemma NoOpSucceeds(
    rule: Rule, n: nat, states: seq<Cluster>, events: seq<Event>, s: Cluster, q: set<nat>, term: nat)
    returns (ss: seq<Cluster>, es: seq<Event>, z: Cluster, i: nat)
    requires Ends(rule, n, states, events, s) && n >= 2 && |s.nodes| == n && Most(q, n)
    requires forall v :: v in q ==> s.nodes[v].raft.state != Leader
    requires forall v :: v in q ==> s.nodes[v].raft.currentTerm <= term
    ensures Reaches(rule, n, states, events, ss, es, z, q) && |z.nodes| == n
    ensures i in q && Leads(z, i) && SameMemory(s.nodes[i], z.nodes[i]) && z.nodes[i].raft.currentTerm > term
    ensures |es| > |events| && es[|es| - 1] == CommitProposal(i, 0)
    ensures forall v :: v in q && v != i ==> Sendable(z, i, v)
  {
    var s1, e1, y, w;
    s1, e1, y, w, i := Elects(rule, n, states, events, s, q, term);
    AllReached(rule, n, s1, e1, w);
    NoOpPending(y, w, i, n, q);
    ss, es, z := RoundSucceeds(rule, n, s1, e1, w, i, 0, q);
    OnwardAgain(states, events, s1, e1, ss, es, q);
  }

  /** Some of a set of nodes: those that lead. */
  function Leaders(s: Cluster, q: set<nat>): set<nat> {
    set v | v in q && v < |s.nodes| && s.nodes[v].raft.state == Leader
  }

  /** From every state of every run of two or more, under either merge: any majority, on its own, can elect one of its
      members in a new term and have the no-op of that term succeed, once those of its members that lead have restarted;
      others may restart as well. */
  lemma MajorityElects(
    rule: Rule, n: nat, states: seq<Cluster>, events: seq<Event>, q: set<nat>, restarting: set<nat>)
    returns (ss: seq<Cluster>, es: seq<Event>, z: Cluster, i: nat, s1: seq<Cluster>, e1: seq<Event>, x: Cluster)
    requires Run(rule, n, states, events) && n >= 2 && Most(q, n)
    requires Leaders(states[|events|], q) <= restarting <= q
    ensures Reaches(rule, n, states, events, s1, e1, x, q) && Reaches(rule, n, s1, e1, ss, es, z, q)
    ensures |states[|events|].nodes| == |x.nodes| == |z.nodes| == n
    ensures forall v :: v in restarting ==> Restored(x.nodes[v])
    ensures i in q && Leads(z, i) && SameMemory(x.nodes[i], z.nodes[i])
    ensures forall v :: v in q ==> z.nodes[i].raft.currentTerm > states[|events|].nodes[v].raft.currentTerm
    ensures |es| > |e1| && es[|es| - 1] == CommitProposal(i, 0)
    ensures forall v :: v in q && v != i ==> Sendable(z, i, v)
  {
    var s := states[|events|];
    AllReached(rule, n, states, events, s);
    s1, e1, x := Restarts(rule, n, states, events, s, restarting, q);
    AllReached(rule, n, s1, e1, x);
    var t := LargestTerm(s, q);
    var u := LargestTerm(x, q);
    var term := if t < u then u else t;
    forall v | v in q
      ensures x.nodes[v].raft.state != Leader
    {
      assert v in restarting || x.nodes[v] == s.nodes[v];
    }
    ss, es, z, i := NoOpSucceeds(rule, n, s1, e1, x, q, term);
  }

  // ----- Waiting, and a client's write -----

  /** As long as batches are applied whole, nothing committed is lost on the way. */
  lemma {:induction false} StaysBalanced(
    rule: Rule, n: nat, states: seq<Cluster>, events: seq<Event>, ss: seq<Cluster>, es: seq<Event>, k: nat, i: nat,
    q: set<nat>)
    requires Run(rule, n, ss, es) && Onward(states, events, ss, es, q) && |events| <= k < |ss| && i < n
    requires i < |ss[|events|].nodes| && Tokens.Balanced(ss[|events|].nodes[i].raft)
    ensures i < |ss[k].nodes| && Tokens.Balanced(ss[k].nodes[i].raft)
    decreases k
  {
    if k > |events| {
      var j := k - 1;
      StaysBalanced(rule, n, states, events, ss, es, j, i, q);
      Tokens.TokensInBounds(rule, n, ss, es, j, i);
      Counting.SeenStep(rule, n, ss, es, j, i);
      assert Allowed(ss[j], es[j]);
      if i == Site(es[j]) {
        Tokens.TokensKept(ss[j].nodes[i], es[j], ss[k].nodes[i]);
      }
    }
  }

  /** What applying does not touch. */
  ghost predicate AppliesOnly(x: Node, y: Node) {
    && y.rounds == x.rounds && y.waiting == x.waiting && SameMemory(x, y)
    && y.raft == x.raft.(lastApplied := y.raft.lastApplied, commitsReady := y.raft.commitsReady,
                         storage := y.raft.storage)
  }

  /** A node applies batch after batch, until everything committed is applied. */
  lemma {:induction false} CatchesUp(
    rule: Rule, n: nat, states: seq<Cluster>, events: seq<Event>, s: Cluster, i: nat, q: set<nat>)
    returns (ss: seq<Cluster>, es: seq<Event>, z: Cluster)
    requires Ends(rule, n, states, events, s) && i < n && i in q
    requires i < |s.nodes| && Tokens.Balanced(s.nodes[i].raft)
    ensures Reaches(rule, n, states, events, ss, es, z, q) && OthersSame(s, z, i, i)
    ensures AppliesOnly(s.nodes[i], z.nodes[i]) && z.nodes[i].raft.commitIndex == z.nodes[i].raft.lastApplied
    ensures forall k :: |events| <= k < |es| ==> es[k].Apply?
    decreases |s.nodes[i].raft.commitsReady|
  {
    ss, es, z := states, events, s;
    var f := s.nodes[i].raft;
    if f.commitsReady != [] {
      Tokens.TokensInBounds(rule, n, states, events, |events|, i);
      var done := f.commitsReady[0];
      var y := Moved(s, i, AfterBatch(s.nodes[i], done), {});
      var s1, e1 := states + [y], events + [Apply(i, done)];
      One(rule, n, states, events, s, Apply(i, done), y, q);
      ss, es, z := CatchesUp(rule, n, s1, e1, y, i, q);
      OnwardAgain(states, events, s1, e1, ss, es, q);
      forall k | |events| <= k < |es|
        ensures es[k].Apply?
      {
        if k == |events| {
          assert es[k] == es[..|e1|][k];
        }
      }
    }
  }

  lemma StillSendable(s: Cluster, z: Cluster, i: nat, v: nat)
    requires Sendable(s, i, v) && OthersSame(s, z, i, i) && AppliesOnly(s.nodes[i], z.nodes[i])
    ensures Sendable(z, i, v)
  {
    assert z.nodes[v] == s.nodes[v];
  }

  /** A leader that applies all it has committed can go on as before. */
  lemma Waits(
    rule: Rule, n: nat, states: seq<Cluster>, events: seq<Event>, s: Cluster, i: nat, q: set<nat>)
    returns (ss: seq<Cluster>, es: seq<Event>, z: Cluster)
    requires Ends(rule, n, states, events, s) && Leads(s, i) && i < n && i in q && Tokens.Balanced(s.nodes[i].raft)
    requires forall v :: v in q && v != i ==> Sendable(s, i, v)
    ensures Reaches(rule, n, states, events, ss, es, z, q) && |z.nodes| == |s.nodes| && Leads(z, i)
    ensures AppliesOnly(s.nodes[i], z.nodes[i]) && z.nodes[i].raft.commitIndex == z.nodes[i].raft.lastApplied
    ensures forall v :: v in q && v != i ==> Sendable(z, i, v)
  {
    ss, es, z := CatchesUp(rule, n, states, events, s, i, q);
    forall v | v in q && v != i
      ensures Sendable(z, i, v)
    {
      StillSendable(s, z, i, v);
    }
  }

  lemma At(
    states: seq<Cluster>, events: seq<Event>, ss: seq<Cluster>, es: seq<Event>, who: set<nat>, k: nat)
    requires Onward(states, events, ss, es, who) && k < |states|
    ensures ss[k] == states[k] && (k < |events| ==> es[k] == events[k])
  {
    assert ss[..|states|][k] == states[k];
    if k < |events| {
      assert es[..|events|][k] == events[k];
    }
  }

  /** A leader that waited has a client's POST succeed: it is the event `w`, its success the event `m`. */
  ghost predicate TakesWrite(
    ss: seq<Cluster>, es: seq<Event>, w: nat, m: nat, i: nat, op: Operation, c: Bytes)
  {
    && |ss| == |es| + 1 && w < m < |es| && es[w] == ClientWrite(i, op, c) && Leads(ss[w], i)
    && es[m] == CommitProposal(i, |ss[w].nodes[i].rounds|)
  }

  lemma RestartedWrites(
    rule: Rule, n: nat, s1: seq<Cluster>, e1: seq<Event>, x: Cluster, states: seq<Cluster>, events: seq<Event>,
    s: Cluster, i: nat, q: set<nat>, op: Operation, c: Bytes)
    returns (ss: seq<Cluster>, es: seq<Event>, z: Cluster, w: nat, m: nat)
    requires Ends(rule, n, s1, e1, x) && Reaches(rule, n, s1, e1, states, events, s, q)
    requires |x.nodes| == |s.nodes| == n && i < n && Restored(x.nodes[i]) && SameMemory(x.nodes[i], s.nodes[i])
    requires Leads(s, i) && Most(q, n) && i in q && op.Post?
    requires forall v :: v in q && v != i ==> Sendable(s, i, v)
    ensures Reaches(rule, n, s1, e1, ss, es, z, q) && |z.nodes| == n && Leads(z, i)
    ensures TakesWrite(ss, es, w, m, i, op, c)
    ensures |e1| <= w && z.nodes[i].raft.log != []
    ensures forall v :: v in q && v != i ==> Sendable(z, i, v)
  {
    At(s1, e1, states, events, q, |e1|);
    StaysBalanced(rule, n, s1, e1, states, events, |events|, i, q);
    var s2, e2, y := Waits(rule, n, states, events, s, i, q);
    AllReached(rule, n, s2, e2, y);
    assert Regular(y, n, i);
    ss, es, z := WriteSucceeds(rule, n, s2, e2, y, i, q, op, c);
    w, m := |e2|, |es| - 1;
    At(s2, e2, ss, es, q, w);
    OnwardAgain(s1, e1, states, events, s2, e2, q);
    OnwardAgain(s1, e1, s2, e2, ss, es, q);
  }

  lemma KeepsWrite(
    states: seq<Cluster>, events: seq<Event>, ss: seq<Cluster>, es: seq<Event>, q: set<nat>,
    w: nat, m: nat, i: nat, op: Operation, c: Bytes)
    requires Onward(states, events, ss, es, q) && TakesWrite(states, events, w, m, i, op, c)
    ensures TakesWrite(ss, es, w, m, i, op, c)
  {
    At(states, events, ss, es, q, w);
    At(states, events, ss, es, q, m);
  }

  /** Having waited once more, the leader serves a read. */
  lemma RestartedReads(
    rule: Rule, n: nat, s1: seq<Cluster>, e1: seq<Event>, x: Cluster, states: seq<Cluster>, events: seq<Event>,
    s: Cluster, i: nat, q: set<nat>)
    returns (ss: seq<Cluster>, es: seq<Event>, z: Cluster, a: nat)
    requires Ends(rule, n, s1, e1, x) && Reaches(rule, n, s1, e1, states, events, s, q)
    requires |x.nodes| == |s.nodes| == n && i < n && Tokens.Balanced(x.nodes[i].raft)
    requires Leads(s, i) && Most(q, n) && i in q && s.nodes[i].raft.log != []
    requires forall v :: v in q && v != i ==> Sendable(s, i, v)
    ensures Reaches(rule, n, states, events, ss, es, z, q) && |events| <= a < |es|
    ensures Reads.ReadServed(ss, es, a, |es| - 1, i)
  {
    At(s1, e1, states, events, q, |e1|);
    StaysBalanced(rule, n, s1, e1, states, events, |events|, i, q);
    var s2, e2, y := Waits(rule, n, states, events, s, i, q);
    AllReached(rule, n, s2, e2, y);
    assert Regular(y, n, i);
    ss, es, z := ReadServes(rule, n, s2, e2, y, i, q);
    a := |e2|;
    OnwardAgain(states, events, s2, e2, ss, es, q);
  }

  /** From every state of every run of two or more, under either merge, whatever crashes and early stops it has seen:
      any majority that restarts can, on its own, elect a leader, have its no-op succeed, take any client's POST to
      success and then serve a read. Write and read wait until everything committed is applied, as in the code. */
  lemma MajorityServes(
    rule: Rule, n: nat, states: seq<Cluster>, events: seq<Event>, q: set<nat>, op: Operation, c: Bytes)
    returns (ss: seq<Cluster>, es: seq<Event>, z: Cluster, i: nat, w: nat, m: nat, a: nat)
    requires Run(rule, n, states, events) && n >= 2 && Most(q, n) && op.Post?
    ensures Reaches(rule, n, states, events, ss, es, z, q) && i in q && |events| <= w && m < a
    ensures TakesWrite(ss, es, w, m, i, op, c) && Reads.ReadServed(ss, es, a, |es| - 1, i)
  {
    var s1, e1, x, s2, e2, y, s3, e3, u;
    s2, e2, y, i, s1, e1, x := MajorityElects(rule, n, states, events, q, q);
    s3, e3, u, w, m := RestartedWrites(rule, n, s1, e1, x, s2, e2, y, i, q, op, c);
    ss, es, z, a := RestartedReads(rule, n, s1, e1, x, s3, e3, u, i, q);
    KeepsWrite(s3, e3, ss, es, q, w, m, i, op, c);
    OnwardAgain(s1, e1, s3, e3, ss, es, q);
    OnwardAgain(states, events, s1, e1, ss, es, q);
  }
}
