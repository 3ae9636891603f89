/** Concrete runs in which the code does not keep what one might expect of it. */
module Counterexamples {
  import opened Entries
  import opened Consensus
  import opened Protocol
  import opened Cluster
  import opened Scripts
  import Merging

  /** The part of a node that the runs below need. */
  ghost predicate Is(node: Node, id: nat, n: nat, term: nat, role: Role, log: Log, commit: int) {
    && var f := node.raft;
    && f.replicaId == id && f.replicas == n && |f.nextIndex| == n
    && f.currentTerm == term && f.state == role && f.log == log && f.commitIndex == commit
  }

  function Noop(term: nat): LogEntry {
    NoOpEntry(term)
  }

  /** A group of two or three starts, and node `i` is elected by node `j`. */
  lemma FirstReign(rule: Rule, n: nat, i: nat, j: nat) returns (ss: seq<Cluster>, es: seq<Event>, z: Cluster)
    requires (n == 2 || n == 3) && i < n && j < n && i != j
    ensures Ends(rule, n, ss, es, z) && |z.nodes| == n && Further([Start(n)], [], ss, es)
    ensures Is(z.nodes[i], i, n, 1, Leader, [Noop(1)], -1) && Is(z.nodes[j], j, n, 1, Follower, [], -1)
    ensures z.nodes[i].raft.storage == Persisted(1, i, [Noop(1)], -1, -1)
    ensures z.nodes[i].waiting == {0} && z.nodes[i].rounds == [Round(NoOpRound, 1, 0, 0, -1, NO_CLIENT, {i})]
    ensures forall k :: 0 <= k < n ==>
      && z.nodes[i].raft.nextIndex[k] == 0
      && z.nodes[k].raft.trackMessage == map[] && z.nodes[k].raft.latestClient == NO_CLIENT
      && z.nodes[k].raft.lastApplied == -1 && z.nodes[k].raft.commitsReady == [] && z.nodes[k].store == map[]
      && (k != i && k != j ==> Is(z.nodes[k], k, n, 0, Follower, [], -1))
  {
    ss, es, z := Elect(rule, n, [Start(n)], [], Start(n), i, j);
  }

  // ----- nextIndex below the log -----

  /** Two nodes. Node 0 leads twice, with a restart between, and the second time the heartbeats that confirm a read
      overlap the round of its no-op. Node 1 has nothing yet and refuses both, and each refusal lowers `nextIndex`. */
  lemma NextFallsBelow(rule: Rule) returns (states: seq<Cluster>, events: seq<Event>, s: Cluster)
    ensures Ends(rule, 2, states, events, s) && Current(s, 0, 0)
    ensures |s.nodes[0].raft.nextIndex| == 2 && s.nodes[0].raft.nextIndex[1] == -1
    ensures !CanAddress(s.nodes[0].raft, 1, s.nodes[0].rounds[0].upper)
  {
    var ss, es, s3 := LeadsAgain(rule);
    states, events, s := TwoRefusals(rule, ss, es, s3);
  }

  lemma LeadsAgain(rule: Rule) returns (ss: seq<Cluster>, es: seq<Event>, z: Cluster)
    ensures Ends(rule, 2, ss, es, z) && |z.nodes| == 2
    ensures Is(z.nodes[0], 0, 2, 2, Leader, [Noop(1), Noop(2)], -1) && z.nodes[0].raft.nextIndex[1] == 1
    ensures |z.nodes[0].rounds| == 1 && z.nodes[0].rounds[0].term == 2 && z.nodes[0].rounds[0].upper == 1
    ensures Is(z.nodes[1], 1, 2, 2, Follower, [], -1)
  {
    var ss1, es1, s1 := FirstReign(rule, 2, 0, 1);
    var s2 := Moved(s1, 0, Restarted(s1.nodes[0]), {});
    Go(rule, 2, ss1, es1, s1, Crash(0), s2);
    assert Is(s2.nodes[0], 0, 2, 1, Follower, [Noop(1)], -1) && Is(s2.nodes[1], 1, 2, 1, Follower, [], -1);
    ss, es, z := Elect(rule, 2, ss1 + [s2], es1 + [Crash(0)], s2, 0, 1);
  }

  lemma TwoRefusals(rule: Rule, states: seq<Cluster>, events: seq<Event>, s: Cluster)
    returns (ss: seq<Cluster>, es: seq<Event>, z: Cluster)
    requires Ends(rule, 2, states, events, s) && |s.nodes| == 2
    requires Is(s.nodes[0], 0, 2, 2, Leader, [Noop(1), Noop(2)], -1) && s.nodes[0].raft.nextIndex[1] == 1
    requires |s.nodes[0].rounds| == 1 && s.nodes[0].rounds[0].term == 2 && s.nodes[0].rounds[0].upper == 1
    requires Is(s.nodes[1], 1, 2, 2, Follower, [], -1)
    ensures Ends(rule, 2, ss, es, z) && Current(z, 0, 0) && z.nodes[0].rounds[0].upper == 1
    ensures |z.nodes[0].raft.nextIndex| == 2 && z.nodes[0].raft.nextIndex[1] == -1
  {
    var ss1, es1, s1 := Beat(rule, 2, states, events, s, 0, ReadCheck);
    var ss2, es2, s2 := Ask(rule, 2, ss1, es1, s1, 0, 0, 1);
    var f := s1.nodes[0].raft;
    var r0, r1 := s1.nodes[0].rounds[0], s1.nodes[0].rounds[1];
    var m0, m1 := FirstRequest(f, 1, 1, r0.leaderCommit, r0.client), FirstRequest(f, 1, 1, r1.leaderCommit, r1.client);
    var no := AppendEntriesResponse(2, false);
    assert OnAppendEntries(rule, s1.nodes[1].raft, m0) == (s1.nodes[1].raft, no);
    assert s2.nodes == s1.nodes;
    var ss3, es3, s3 := Ask(rule, 2, ss2, es2, s2, 0, 1, 1);
    assert OnAppendEntries(rule, s1.nodes[1].raft, m1) == (s1.nodes[1].raft, no);
    assert s3.nodes == s1.nodes;
    var p0, p1 := AppendReply(1, 0, 0, 1, m0, no), AppendReply(1, 0, 1, 1, m1, no);
    ss, es, z := Refusal(rule, ss3, es3, s3, p0);
    ss, es, z := Refusal(rule, ss, es, z, p1);
  }

  lemma Refusal(rule: Rule, states: seq<Cluster>, events: seq<Event>, s: Cluster, p: Packet)
    returns (ss: seq<Cluster>, es: seq<Event>, z: Cluster)
    requires Ends(rule, 2, states, events, s) && p in s.net && p.AppendReply? && p.dest == 0 && p.from == 1
    requires |s.nodes| == 2
    requires !p.reply.success && p.reply.term == p.append.term == s.nodes[0].raft.currentTerm && Leads(s, 0)
    requires 0 <= p.append.prevLogIndex < |s.nodes[0].raft.log| && p.upper < |s.nodes[0].raft.log|
    requires |s.nodes[0].raft.nextIndex| == 2
    ensures Ends(rule, 2, ss, es, z) && s.net <= z.net
    ensures var f := s.nodes[0].raft;
      z.nodes == s.nodes[0 := s.nodes[0].(raft := f.(nextIndex := f.nextIndex[1 := f.nextIndex[1] - 1]))]
  {
    var f := OnAppendReply(s.nodes[0].raft, 1, p.upper, p.reply).0;
    var again := RetryRequest(f, p.append, p.upper);
    z := Moved(s, 0, s.nodes[0].(raft := f), {AppendRequest(0, 1, p.round, p.upper, again)});
    Go(rule, 2, states, events, s, DeliverAppendReply(p), z);
    ss, es := states + [z], events + [DeliverAppendReply(p)];
  }

  // ----- The table of a node that has led -----

  const CLIENT1: Bytes := [49]
  const CLIENT2: Bytes := [50]

  function FirstWrite(): LogEntry {
    LogEntry(1, Post([97], [49]), CLIENT1)
  }

  function SecondWrite(): LogEntry {
    LogEntry(2, Post([98], [50]), CLIENT2)
  }

  /** Two nodes, no restart. Node 0 leads term 1 and has a write of client 1 accepted by node 1, which leads term 2.
      There the no-op and a write of client 2 succeed: two steps of the commit index, which pass the first no-op and
      the write of client 1 without a look at either. When node 1 follows again, its table knows client 2, whose entry
      it has not committed, and not client 1, whose entry it has. */
  lemma ExLeaderForgets() returns (states: seq<Cluster>, events: seq<Event>, s: Cluster)
    ensures Ends(Truncate, 2, states, events, s) && |s.nodes| == 2 && !Leads(s, 1)
    ensures Calm(states, events)
    ensures var f := s.nodes[1].raft;
      && f.commitIndex == 1 && |f.log| == 4 && f.log[1] == FirstWrite() && f.log[3] == SecondWrite()
      && CLIENT1 !in f.trackMessage && CLIENT2 in f.trackMessage
    ensures s.nodes[1].raft.trackMessage != Track(map[], s.nodes[1].raft.log, 0, 2)
  {
    var ss1, es1, s1 := SecondReign();
    var ss2, es2, s2 := TwoSuccesses(ss1, es1, s1);
    var answer: Packet;
    states, events, s, answer := Campaign(Truncate, 2, ss2, es2, s2, 0, 1);
    CalmFurther(ss2, es2, states, events);
    var f := s.nodes[1].raft;
    assert Track(map[], f.log, 0, 2) == Track(map[], f.log, 0, 1)[CLIENT1 := FirstWrite().operation];
  }

  /** Nothing has been applied yet. */
  ghost predicate Unapplied(node: Node, tokens: seq<int>) {
    node.raft.commitsReady == tokens && node.raft.lastApplied == -1 && node.store == map[]
  }

  lemma WriteHeld() returns (ss: seq<Cluster>, es: seq<Event>, z: Cluster)
    ensures Ends(Truncate, 2, ss, es, z) && |z.nodes| == 2
    ensures Calm(ss, es)
    ensures Is(z.nodes[0], 0, 2, 1, Leader, [Noop(1), FirstWrite()], -1)
    ensures Is(z.nodes[1], 1, 2, 1, Follower, [Noop(1), FirstWrite()], -1)
    ensures z.nodes[1].raft.trackMessage == map[] && z.nodes[1].raft.latestClient == NO_CLIENT
    ensures Unapplied(z.nodes[1], [])
  {
    var ss1, es1, s1 := FirstReign(Truncate, 2, 0, 1);
    assert Calm([Start(2)], []);
    CalmFurther([Start(2)], [], ss1, es1);
    var ss2, es2, s2 := Write(Truncate, 2, ss1, es1, s1, 0, FirstWrite().operation, CLIENT1);
    CalmOne(ss1, es1, s1, ClientWrite(0, FirstWrite().operation, CLIENT1), s2);
    assert s2.nodes[0].raft.log == [Noop(1), FirstWrite()];
    ss, es, z := Ask(Truncate, 2, ss2, es2, s2, 0, 1, 1);
    CalmFurther(ss2, es2, ss, es);
  }

  lemma SecondReign() returns (ss: seq<Cluster>, es: seq<Event>, z: Cluster)
    ensures Ends(Truncate, 2, ss, es, z) && |z.nodes| == 2
    ensures Calm(ss, es)
    ensures Is(z.nodes[1], 1, 2, 2, Leader, [Noop(1), FirstWrite(), Noop(2)], -1)
    ensures Is(z.nodes[0], 0, 2, 2, Follower, [Noop(1), FirstWrite()], -1)
    ensures z.nodes[1].raft.trackMessage == map[] && z.nodes[1].raft.nextIndex[0] == 2
    ensures z.nodes[1].waiting == {2} && z.nodes[1].rounds == [Round(NoOpRound, 2, 2, 2, -1, NO_CLIENT, {1})]
    ensures Unapplied(z.nodes[1], [])
  {
    var ss1, es1, s1 := WriteHeld();
    ss, es, z := Elect(Truncate, 2, ss1, es1, s1, 1, 0);
    CalmFurther(ss1, es1, ss, es);
  }

  lemma NoOpSucceeds(states: seq<Cluster>, events: seq<Event>, s: Cluster)
    returns (ss: seq<Cluster>, es: seq<Event>, z: Cluster)
    requires Ends(Truncate, 2, states, events, s) && |s.nodes| == 2
    requires Calm(states, events)
    requires Is(s.nodes[1], 1, 2, 2, Leader, [Noop(1), FirstWrite(), Noop(2)], -1)
    requires Is(s.nodes[0], 0, 2, 2, Follower, [Noop(1), FirstWrite()], -1)
    requires s.nodes[1].raft.trackMessage == map[] && s.nodes[1].raft.nextIndex[0] == 2
    requires s.nodes[1].waiting == {2} && s.nodes[1].rounds == [Round(NoOpRound, 2, 2, 2, -1, NO_CLIENT, {1})]
    requires Unapplied(s.nodes[1], [])
    ensures Ends(Truncate, 2, ss, es, z) && |z.nodes| == 2
    ensures Calm(ss, es)
    ensures Is(z.nodes[1], 1, 2, 2, Leader, [Noop(1), FirstWrite(), Noop(2)], 0)
    ensures z.nodes[1].raft.trackMessage == map[] && z.nodes[1].raft.nextIndex[0] == 3
    ensures |z.nodes[1].rounds| == 1 && Unapplied(z.nodes[1], [1])
    ensures Is(z.nodes[0], 0, 2, 2, Follower, [Noop(1), FirstWrite(), Noop(2)], -1)
  {
    var ss1, es1, s1 := Replicate(Truncate, 2, states, events, s, 1, 0, 0);
    CalmFurther(states, events, ss1, es1);
    assert {1} + {0} == {0, 1} && |{0, 1}| == 2;
    ss, es, z := Succeed(Truncate, 2, ss1, es1, s1, 1, 0);
    CalmFurther(ss1, es1, ss, es);
  }

  /** The leader applies the first no-op. */
  lemma NoOpApplied(states: seq<Cluster>, events: seq<Event>, s: Cluster)
    returns (ss: seq<Cluster>, es: seq<Event>, z: Cluster)
    requires Ends(Truncate, 2, states, events, s) && |s.nodes| == 2 && Calm(states, events)
    requires Is(s.nodes[1], 1, 2, 2, Leader, [Noop(1), FirstWrite(), Noop(2)], 0) && Unapplied(s.nodes[1], [1])
    ensures Ends(Truncate, 2, ss, es, z) && |z.nodes| == 2 && Calm(ss, es) && z.nodes[0] == s.nodes[0]
    ensures Is(z.nodes[1], 1, 2, 2, Leader, [Noop(1), FirstWrite(), Noop(2)], 0) && NoOpDone(z.nodes[1], [])
    ensures var f := s.nodes[1].raft;
      && z.nodes[1].rounds == s.nodes[1].rounds && z.nodes[1].waiting == s.nodes[1].waiting
      && z.nodes[1].raft.trackMessage == f.trackMessage && z.nodes[1].raft.nextIndex == f.nextIndex
      && z.nodes[1].raft.latestClient == f.latestClient
  {
    ss, es, z := ApplyBatch(Truncate, 2, states, events, s, 1, 1);
    CalmOne(states, events, s, Apply(1, 1), z);
    assert s.nodes[1].raft.log[0..1] == [Noop(1)];
    OneApplied(map[], Noop(1));
  }

  /** Only a no-op has been applied. */
  ghost predicate NoOpDone(node: Node, tokens: seq<int>) {
    node.raft.commitsReady == tokens && node.raft.lastApplied == 0 && node.store == map[]
  }

  function LongLog(): Log {
    [Noop(1), FirstWrite(), Noop(2), SecondWrite()]
  }

  /** The write of client 2 is accepted. */
  lemma SecondAccepted(states: seq<Cluster>, events: seq<Event>, s: Cluster)
    returns (ss: seq<Cluster>, es: seq<Event>, z: Cluster)
    requires Ends(Truncate, 2, states, events, s) && |s.nodes| == 2
    requires Calm(states, events)
    requires Is(s.nodes[1], 1, 2, 2, Leader, LongLog()[..3], 0) && s.nodes[1].raft.nextIndex[0] == 3
    requires s.nodes[1].raft.trackMessage == map[] && |s.nodes[1].rounds| == 1 && NoOpDone(s.nodes[1], [])
    requires Is(s.nodes[0], 0, 2, 2, Follower, LongLog()[..3], -1)
    ensures Ends(Truncate, 2, ss, es, z) && |z.nodes| == 2
    ensures Calm(ss, es)
    ensures Is(z.nodes[1], 1, 2, 2, Leader, LongLog(), 0) && z.nodes[1].raft.nextIndex[0] == 4
    ensures z.nodes[1].raft.trackMessage == map[] && NoOpDone(z.nodes[1], []) && 3 in z.nodes[1].waiting
    ensures |z.nodes[1].rounds| == 2 && z.nodes[1].rounds[1] == Round(WriteRound, 2, 3, 3, 0, CLIENT2, {0, 1})
    ensures Is(z.nodes[0], 0, 2, 2, Follower, LongLog(), 0)
  {
    var ss1, es1, s1 := Write(Truncate, 2, states, events, s, 1, SecondWrite().operation, CLIENT2);
    CalmOne(states, events, s, ClientWrite(1, SecondWrite().operation, CLIENT2), s1);
    assert s1.nodes[1].raft.log == LongLog();
    ss, es, z := Replicate(Truncate, 2, ss1, es1, s1, 1, 1, 0);
    CalmFurther(ss1, es1, ss, es);
    assert {1} + {0} == {0, 1};
  }

  /** Node 1 reports a success for its no-op and, as the last event, for the write of client 2. In between it applies
      what it has committed, so that the write need not wait. */
  lemma TwoSuccesses(states: seq<Cluster>, events: seq<Event>, s: Cluster)
    returns (ss: seq<Cluster>, es: seq<Event>, z: Cluster)
    requires Ends(Truncate, 2, states, events, s) && |s.nodes| == 2
    requires Calm(states, events)
    requires Is(s.nodes[1], 1, 2, 2, Leader, [Noop(1), FirstWrite(), Noop(2)], -1)
    requires Is(s.nodes[0], 0, 2, 2, Follower, [Noop(1), FirstWrite()], -1)
    requires s.nodes[1].raft.trackMessage == map[] && s.nodes[1].raft.nextIndex[0] == 2
    requires s.nodes[1].waiting == {2} && s.nodes[1].rounds == [Round(NoOpRound, 2, 2, 2, -1, NO_CLIENT, {1})]
    requires Unapplied(s.nodes[1], [])
    ensures Ends(Truncate, 2, ss, es, z) && |z.nodes| == 2
    ensures Calm(ss, es)
    ensures Is(z.nodes[1], 1, 2, 2, Leader, LongLog(), 1) && z.nodes[1].raft.nextIndex[0] == 4
    ensures z.nodes[1].raft.trackMessage == map[CLIENT2 := SecondWrite().operation]
    ensures NoOpDone(z.nodes[1], [1]) && |z.nodes[1].rounds| == 2
    ensures Is(z.nodes[0], 0, 2, 2, Follower, LongLog(), 0)
    ensures |es| > 0 && es[|es| - 1] == CommitProposal(1, 1) && |ss[|es| - 1].nodes| == 2
    ensures var before := ss[|es| - 1].nodes[1];
      |before.rounds| == 2 && before.rounds[1].index == 3 && before.raft.log == LongLog()
  {
    var ss1, es1, s1 := NoOpSucceeds(states, events, s);
    ss1, es1, s1 := NoOpApplied(ss1, es1, s1);
    assert LongLog()[..3] == [Noop(1), FirstWrite(), Noop(2)];
    var ss2, es2, s2 := SecondAccepted(ss1, es1, s1);
    assert |{0, 1}| == 2;
    ss, es, z := Succeed(Truncate, 2, ss2, es2, s2, 1, 1);
    CalmFurther(ss2, es2, ss, es);
  }

  // ----- The loops as written: an old tail gets committed -----

  function OldLog(): Log {
    [Noop(1), LogEntry(1, Post([97], [49]), CLIENT1), LogEntry(1, Post([97], [50]), CLIENT1)]
  }

  function NewLog(): Log {
    [Noop(2), Noop(3), LogEntry(3, Post([98], [51]), CLIENT1), LogEntry(3, Post([98], [52]), CLIENT2)]
  }

  /** Node 0 leads term 1 and keeps two writes to itself, node 2 leads term 2. */
  lemma TwoLeaders() returns (ss: seq<Cluster>, es: seq<Event>, z: Cluster)
    ensures Ends(Rule.Overwrite, 3, ss, es, z) && |z.nodes| == 3
    ensures Is(z.nodes[0], 0, 3, 1, Leader, OldLog(), -1) && Is(z.nodes[1], 1, 3, 2, Follower, [], -1)
    ensures Is(z.nodes[2], 2, 3, 2, Leader, [Noop(2)], -1)
    ensures z.nodes[2].raft.storage == Persisted(2, 2, [Noop(2)], -1, -1) && z.nodes[2].raft.nextIndex[1] == 0
    ensures z.nodes[2].raft.nextIndex[0] == 0 && z.nodes[2].raft.latestClient == NO_CLIENT
    ensures z.nodes[2].rounds == [Round(NoOpRound, 2, 0, 0, -1, NO_CLIENT, {2})]
  {
    var ss1, es1, s1 := FirstReign(Rule.Overwrite, 3, 0, 1);
    var ss2, es2, s2 := Write(Rule.Overwrite, 3, ss1, es1, s1, 0, OldLog()[1].operation, CLIENT1);
    var ss3, es3, s3 := Write(Rule.Overwrite, 3, ss2, es2, s2, 0, OldLog()[2].operation, CLIENT1);
    assert s3.nodes[0].raft.log == OldLog();
    var stood := Stood(s3.nodes[2]);
    var s4 := Moved(s3, 2, stood, VoteRequests(stood.raft));
    Go(Rule.Overwrite, 3, ss3, es3, s3, Timeout(2), s4);
    ss, es, z := Elect(Rule.Overwrite, 3, ss3 + [s4], es3 + [Timeout(2)], s4, 2, 1);
  }

  /** One message of the new leader is enough to put the terms of a log out of order. */
  lemma OverwritingBreaksOrder() returns (states: seq<Cluster>, events: seq<Event>, s: Cluster)
    ensures Ends(Rule.Overwrite, 3, states, events, s) && |s.nodes| == 3
    ensures s.nodes[0].raft.log == [Noop(2), OldLog()[1], OldLog()[2]] && !Sorted(s.nodes[0].raft.log)
  {
    var ss1, es1, s1 := TwoLeaders();
    states, events, s := Ask(Rule.Overwrite, 3, ss1, es1, s1, 2, 0, 0);
    var log := s.nodes[0].raft.log;
    assert log == [Noop(2)] + OldLog()[1..];
    assert log[0].term > log[1].term;
  }

  /** Node 1 accepts the no-op of term 2, and node 2 restarts. */
  lemma NoOpAccepted() returns (ss: seq<Cluster>, es: seq<Event>, z: Cluster)
    ensures Ends(Rule.Overwrite, 3, ss, es, z) && |z.nodes| == 3
    ensures Is(z.nodes[0], 0, 3, 1, Leader, OldLog(), -1) && Is(z.nodes[1], 1, 3, 2, Follower, [Noop(2)], -1)
    ensures Is(z.nodes[2], 2, 3, 2, Follower, [Noop(2)], -1)
    ensures z.nodes[2].raft.trackMessage == map[] && z.nodes[2].raft.latestClient == NO_CLIENT
  {
    var ss1, es1, s1 := TwoLeaders();
    var ss2, es2, s2 := Replicate(Rule.Overwrite, 3, ss1, es1, s1, 2, 0, 1);
    z := Moved(s2, 2, Restarted(s2.nodes[2]), {});
    Go(Rule.Overwrite, 3, ss2, es2, s2, Crash(2), z);
    ss, es := ss2 + [z], es2 + [Crash(2)];
  }

  /** Node 2 leads term 3, from an entry that node 1 has, too. */
  lemma ThirdTerm() returns (ss: seq<Cluster>, es: seq<Event>, z: Cluster)
    ensures Ends(Rule.Overwrite, 3, ss, es, z) && |z.nodes| == 3
    ensures Is(z.nodes[0], 0, 3, 1, Leader, OldLog(), -1) && Is(z.nodes[1], 1, 3, 3, Follower, [Noop(2)], -1)
    ensures Is(z.nodes[2], 2, 3, 3, Leader, NewLog()[..2], -1)
    ensures z.nodes[2].raft.nextIndex[0] == 1 && z.nodes[2].raft.nextIndex[1] == 1
    ensures z.nodes[2].raft.trackMessage == map[] && z.nodes[2].raft.latestClient == NO_CLIENT
    ensures z.nodes[2].waiting == {1} && z.nodes[2].rounds == [Round(NoOpRound, 3, 1, 1, -1, NO_CLIENT, {2})]
  {
    var ss1, es1, s1 := NoOpAccepted();
    ss, es, z := Elect(Rule.Overwrite, 3, ss1, es1, s1, 2, 1);
    assert z.nodes[2].raft.log == NewLog()[..2];
  }

  /** The leader's fields once it has three rounds open. */
  ghost predicate ThreeRounds(node: Node, done: nat, next: nat) {
    && Is(node, 2, 3, 3, Leader, NewLog(), done - 1) && node.raft.nextIndex[0] == 1 && node.raft.nextIndex[1] == next
    && |node.rounds| == 3
    && forall r :: done <= r < 3 ==>
         && node.rounds[r].kind in {NoOpRound, WriteRound} && node.rounds[r].term == 3
         && node.rounds[r].index == node.rounds[r].upper == r + 1 && node.rounds[r].leaderCommit == -1
         && node.rounds[r].ok == {2} && r + 1 in node.waiting
  }

  /** The refusal of node 0 that is still on its way. */
  ghost predicate Late(p: Packet) {
    && p.AppendReply? && p.from == 0 && p.dest == 2 && p.round == 0 && p.upper == 1
    && p.append.term == 3 && p.append.prevLogIndex == 0 && p.reply == AppendEntriesResponse(3, false)
  }

  lemma RefusedOnce() returns (ss: seq<Cluster>, es: seq<Event>, z: Cluster, late: Packet)
    ensures Ends(Rule.Overwrite, 3, ss, es, z) && |z.nodes| == 3 && late in z.net && Late(late)
    ensures Is(z.nodes[0], 0, 3, 3, Follower, OldLog(), -1) && Is(z.nodes[1], 1, 3, 3, Follower, NewLog()[..1], -1)
    ensures ThreeRounds(z.nodes[2], 0, 1)
  {
    var ss1, es1, s1 := ThirdTerm();
    var f := s1.nodes[2].raft;
    var m := FirstRequest(f, 0, 1, -1, NO_CLIENT);
    var ss2, es2, s2 := Ask(Rule.Overwrite, 3, ss1, es1, s1, 2, 0, 0);
    late := AppendReply(0, 2, 0, 1, m, AppendEntriesResponse(3, false));
    assert late in s2.net;
    var ss3, es3, s3 := Write(Rule.Overwrite, 3, ss2, es2, s2, 2, NewLog()[2].operation, CLIENT1);
    assert s3.nodes[2].raft.log == NewLog()[..3];
    ss, es, z := Write(Rule.Overwrite, 3, ss3, es3, s3, 2, NewLog()[3].operation, CLIENT2);
    assert z.nodes[2].raft.log == NewLog();
  }

  /** One more round succeeds with node 1. */
  lemma RoundSucceeds(states: seq<Cluster>, events: seq<Event>, s: Cluster, done: nat)
    returns (ss: seq<Cluster>, es: seq<Event>, z: Cluster)
    requires Ends(Rule.Overwrite, 3, states, events, s) && |s.nodes| == 3 && done < 3
    requires ThreeRounds(s.nodes[2], done, done + 1) && Is(s.nodes[1], 1, 3, 3, Follower, NewLog()[..done + 1], -1)
    ensures Ends(Rule.Overwrite, 3, ss, es, z) && |z.nodes| == 3 && s.net <= z.net && z.nodes[0] == s.nodes[0]
    ensures ThreeRounds(z.nodes[2], done + 1, done + 2) && Is(z.nodes[1], 1, 3, 3, Follower, NewLog()[..done + 2], -1)
  {
    var f, g := s.nodes[2].raft, s.nodes[1].raft;
    assert g.log[done] == f.log[done];
    var ss1, es1, s1 := Replicate(Rule.Overwrite, 3, states, events, s, 2, done, 1);
    assert Slice(f.log, done + 1, done + 1) == [f.log[done + 1]];
    assert s1.nodes[1].raft.log == NewLog()[..done + 2];
    assert {2} + {1} == {1, 2} && |{1, 2}| == 2;
    ss, es, z := Succeed(Rule.Overwrite, 3, ss1, es1, s1, 2, done);
  }

  /** The retry carries the leader's new commit index with the old upper end of its round. */
  lemma RetryWithNewCommit(states: seq<Cluster>, events: seq<Event>, s: Cluster, late: Packet)
    returns (ss: seq<Cluster>, es: seq<Event>, z: Cluster)
    requires Ends(Rule.Overwrite, 3, states, events, s) && |s.nodes| == 3 && late in s.net && Late(late)
    requires ThreeRounds(s.nodes[2], 3, 4) && Is(s.nodes[0], 0, 3, 3, Follower, OldLog(), -1)
    ensures Ends(Rule.Overwrite, 3, ss, es, z) && |z.nodes| == 3
    ensures z.nodes[2].raft.commitIndex == 2 && z.nodes[2].raft.log == NewLog()
    ensures z.nodes[0].raft.commitIndex == 2 && z.nodes[0].raft.log == NewLog()[..2] + OldLog()[2..]
  {
    var f := OnAppendReply(s.nodes[2].raft, 0, 1, late.reply).0;
    var again := RetryRequest(f, late.append, 1);
    var p := AppendRequest(2, 0, 0, 1, again);
    var s1 := Moved(s, 2, s.nodes[2].(raft := f), {p});
    Go(Rule.Overwrite, 3, states, events, s, DeliverAppendReply(late), s1);
    assert again.entries == NewLog()[..2] && again.prevLogIndex == -1 && again.leaderCommit == 2 && again.term == 3;
    var (g, reply) := OnAppendEntries(Rule.Overwrite, s1.nodes[0].raft, again);
    assert Merging.Agreed(OldLog(), 0, NewLog()[..2]) == 0;
    assert g.log == NewLog()[..2] + OldLog()[2..];
    z := Moved(s1, 0, s1.nodes[0].(raft := g), {AppendReply(0, 2, 0, 1, again, reply)});
    Go(Rule.Overwrite, 3, states + [s1], events + [DeliverAppendReply(late)], s1, DeliverAppend(p), z);
    ss, es := states + [s1] + [z], events + [DeliverAppendReply(late)] + [DeliverAppend(p)];
  }

  /** Three nodes, and two of them commit different entries at index 2: node 0 takes the leader's commit index for
      a log of which the request replaced only the first two entries. */
  lemma DifferentCommits() returns (states: seq<Cluster>, events: seq<Event>, s: Cluster)
    ensures Ends(Rule.Overwrite, 3, states, events, s) && |s.nodes| == 3
    ensures s.nodes[0].raft.commitIndex == 2 && s.nodes[2].raft.commitIndex == 2
    ensures |s.nodes[0].raft.log| == 3 && |s.nodes[2].raft.log| == 4
    ensures s.nodes[0].raft.log[2] != s.nodes[2].raft.log[2]
  {
    var late: Packet;
    states, events, s, late := RefusedOnce();
    states, events, s := RoundSucceeds(states, events, s, 0);
    states, events, s := RoundSucceeds(states, events, s, 1);
    states, events, s := RoundSucceeds(states, events, s, 2);
    states, events, s := RetryWithNewCommit(states, events, s, late);
  }
}
