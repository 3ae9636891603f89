/** A run in which every write passes the check of the code, no batch is cut short, and a crash still leaves the
    stores of two nodes different for good. */
module CheckedPut {
  import opened Entries
  import opened Consensus
  import opened Protocol
  import opened Cluster
  import Elections
  import Chronicle
  import Guard
  import Counterexamples
  import opened Scripts

  const KEY: Bytes := [107]
  const FIRST: Bytes := [97]
  const OVERWRITTEN: Bytes := [98]
  const LAST: Bytes := [101]
  const CLIENT1: Bytes := [49]
  const CLIENT2: Bytes := [50]

  /** A POST creates the key. A DELETE of it and a PUT to it are appended while the key is there, and a POST
      creates it again. Applied in order, the PUT misses. */
  function History(): (log: Log)
    ensures |log| == 5 && forall k :: 0 <= k < 5 ==> log[k].term == 1
  {
    [NoOpEntry(1), LogEntry(1, Post(KEY, FIRST), CLIENT1), LogEntry(1, Delete(KEY), NO_CLIENT),
     LogEntry(1, Put(KEY, OVERWRITTEN), CLIENT2), LogEntry(1, Post(KEY, LAST), CLIENT1)]
  }

  // ----- The two nodes -----

  /** How far a node has come: the entries of the history it has, has committed and has applied. */
  datatype Place = Place(length: nat, commit: int, applied: int, tokens: seq<int>, store: Map)

  ghost predicate Has(f: Fields, id: nat, role: Role, p: Place) {
    && f.replicaId == id && f.replicas == 2 && |f.nextIndex| == 2 && f.currentTerm == 1 && f.state == role
    && p.length <= 5 && f.log == History()[..p.length]
    && f.commitIndex == p.commit && f.lastApplied == p.applied && f.commitsReady == p.tokens
  }

  /** Each write of the leader opens one round, in which it replicates up to the entry of that write. The rounds
      before `won` have been accepted by the follower, those from `done` on wait for their verdict. */
  ghost predicate Rounds(x: Node, won: nat, done: nat) {
    forall r {:trigger x.rounds[r]} :: done <= r < |x.rounds| && r < 5 ==>
      && x.rounds[r].kind in {NoOpRound, WriteRound} && x.rounds[r].term == 1
      && x.rounds[r].index == r == x.rounds[r].upper && x.rounds[r].leaderCommit == (if r < 2 then -1 else 1)
      && x.rounds[r].ok == (if r < won then {0, 1} else {0}) && r in x.waiting
  }

  ghost predicate LeaderAt(x: Node, p: Place, won: nat, done: nat) {
    && Has(x.raft, 0, Leader, p) && x.store == p.store && won <= p.length <= |x.rounds|
    && x.raft.nextIndex[1] == won && Rounds(x, won, done)
    && p.length >= 1 && x.raft.latestClient == (if p.length == 1 then NO_CLIENT else History()[p.length - 1].clientid)
  }

  ghost predicate FollowerAt(y: Node, p: Place) {
    Has(y.raft, 1, Follower, p) && y.store == p.store
  }

  ghost predicate At(states: seq<Cluster>, events: seq<Event>, s: Cluster, p: Place, won: nat, done: nat, q: Place) {
    && Ends(Truncate, 2, states, events, s) && |s.nodes| == 2 && Fair(states, events)
    && LeaderAt(s.nodes[0], p, won, done) && FollowerAt(s.nodes[1], q)
  }

  /** The follower's place once it has learned of the commits up to `commit`. */
  function Learned(q: Place, commit: int): Place {
    if commit <= q.commit then q else q.(commit := commit, tokens := q.tokens + [commit - q.commit])
  }

  // ----- One step of the script -----

  /** The follower has the leader's log up to `length` and gets the next entry, or none. */
  lemma Extends(all: Log, g: Fields, m: AppendEntriesMessage, length: nat, upper: int)
    requires length <= |all| && length - 1 <= upper <= length && upper < |all|
    requires g.log == all[..length] && g.commitIndex >= -1
    requires m.prevLogIndex == length - 1 && m.prevLogTerm == TermAt(all, length - 1)
    requires m.entries == all[length..upper + 1] && m.term == g.currentTerm && g.state == Follower
    requires m.leaderCommit <= upper
    ensures Merging.Matches(g.log, m.prevLogIndex, m.prevLogTerm)
    ensures var h := OnAppendEntries(Truncate, g, m).0;
      && h.log == all[..upper + 1] && h.currentTerm == g.currentTerm && h.state == Follower
      && h.replicaId == g.replicaId && h.replicas == g.replicas && h.nextIndex == g.nextIndex
      && h.lastApplied == g.lastApplied
      && (m.leaderCommit <= g.commitIndex ==> h.commitIndex == g.commitIndex && h.commitsReady == g.commitsReady)
      && (m.leaderCommit > g.commitIndex ==>
            && h.commitIndex == m.leaderCommit
            && h.commitsReady == g.commitsReady + [m.leaderCommit - g.commitIndex])
  {
    assert Merging.Agreed(g.log, length, m.entries) == 0;
    assert all[..length] + all[length..upper + 1] == all[..upper + 1];
    assert Merge(Truncate, g.log, length - 1, m.entries) == all[..upper + 1];
  }

  lemma Takes(f: Fields, g: Fields, p: Place, q: Place, upper: int, commit: int, client: Bytes)
    requires Has(f, 0, Leader, p) && Has(g, 1, Follower, q) && f.nextIndex[1] == q.length
    requires q.length - 1 <= upper <= q.length && upper < p.length && commit <= upper && -1 <= q.commit
    ensures CanAddress(f, 1, upper)
    ensures var m := FirstRequest(f, 1, upper, commit, client);
      && Merging.Matches(g.log, m.prevLogIndex, m.prevLogTerm)
      && Has(OnAppendEntries(Truncate, g, m).0, 1, Follower, Learned(q.(length := upper + 1), commit))
  {
    var m := FirstRequest(f, 1, upper, commit, client);
    var all := History();
    assert q.length <= p.length;
    assert m.entries == all[q.length..upper + 1];
    Extends(all, g, m, q.length, upper);
  }

  /** The follower accepts the entry of round `won`. */
  lemma Accepts(states: seq<Cluster>, events: seq<Event>, s: Cluster, p: Place, won: nat, done: nat, q: Place)
    returns (ss: seq<Cluster>, es: seq<Event>, z: Cluster)
    requires At(states, events, s, p, won, done, q)
    requires done <= won == q.length < p.length && -1 <= q.commit
    ensures At(ss, es, z, p, won + 1, done, Learned(q.(length := won + 1), if won < 2 then -1 else 1))
    ensures |z.nodes[0].rounds| == |s.nodes[0].rounds|
  {
    var r := s.nodes[0].rounds[won];
    Takes(s.nodes[0].raft, s.nodes[1].raft, p, q, won, r.leaderCommit, r.client);
    ss, es, z := Replicate(Truncate, 2, states, events, s, 0, won, 1);
    FairFurther(states, events, ss, es);
    assert {0} + {1} == {0, 1};
  }

  lemma CountedOnce(x: Node, p: Place, won: nat, done: nat)
    requires LeaderAt(x, p, won, done) && done < won
    ensures 0 <= x.rounds[done].index < |x.raft.log|
    ensures LeaderAt(Committed1(x, done), p.(commit := p.commit + 1, tokens := p.tokens + [1]), won, done + 1)
  {
  }

  /** The verdict of round `done`: one step of the commit index. */
  lemma Succeeds(states: seq<Cluster>, events: seq<Event>, s: Cluster, p: Place, won: nat, done: nat, q: Place)
    returns (ss: seq<Cluster>, es: seq<Event>, z: Cluster)
    requires At(states, events, s, p, won, done, q) && done < won
    ensures At(ss, es, z, p.(commit := p.commit + 1, tokens := p.tokens + [1]), won, done + 1, q)
    ensures |z.nodes[0].rounds| == |s.nodes[0].rounds|
  {
    assert |{0, 1}| == 2;
    ss, es, z := Succeed(Truncate, 2, states, events, s, 0, done);
    FairFurther(states, events, ss, es);
    CountedOnce(s.nodes[0], p, won, done);
  }

  /** A heartbeat tells the follower the leader's commit index. */
  lemma Announces(states: seq<Cluster>, events: seq<Event>, s: Cluster, p: Place, done: nat, q: Place)
    returns (ss: seq<Cluster>, es: seq<Event>, z: Cluster)
    requires At(states, events, s, p, 5, done, q) && |s.nodes[0].rounds| >= 5
    requires q.length == 5 && -1 <= q.commit && p.commit <= 4
    ensures At(ss, es, z, p, 5, done, Learned(q, p.commit)) && |z.nodes[0].rounds| >= 5
  {
    var ss1, es1, s1 := Beat(Truncate, 2, states, events, s, 0, Heartbeat);
    var round := |s.nodes[0].rounds|;
    var r := s1.nodes[0].rounds[round];
    Takes(s1.nodes[0].raft, s1.nodes[1].raft, p, q, 4, r.leaderCommit, r.client);
    ss, es, z := Replicate(Truncate, 2, ss1, es1, s1, 0, round, 1);
    FairFurther(states, events, ss1, es1);
    FairFurther(ss1, es1, ss, es);
  }

  /** The client's next write. */
  lemma Writes(states: seq<Cluster>, events: seq<Event>, s: Cluster, p: Place, won: nat, done: nat, q: Place)
    returns (ss: seq<Cluster>, es: seq<Event>, z: Cluster)
    requires At(states, events, s, p, won, done, q) && p.commit == p.applied && 1 <= p.length < 5
    requires |s.nodes[0].rounds| == p.length && p.commit == (if p.length < 2 then -1 else 1)
    requires Guard.Checked(s.nodes[0], History()[p.length].operation)
    ensures At(ss, es, z, p.(length := p.length + 1), won, done, q) && |z.nodes[0].rounds| == p.length + 1
  {
    var e := History()[p.length];
    ss, es, z := Write(Truncate, 2, states, events, s, 0, e.operation, e.clientid);
    FairOne(states, events, s, ClientWrite(0, e.operation, e.clientid), z);
    assert History()[..p.length] + [e] == History()[..p.length + 1];
  }

  lemma BatchOf(f: Fields, length: nat, done: nat)
    requires length <= 5 && f.log == History()[..length] && -1 <= f.lastApplied && f.lastApplied + done < length
    ensures Batch(f, done) == History()[f.lastApplied + 1..f.lastApplied + done + 1]
  {
    SliceOfPrefix(History(), length, f.lastApplied + 1, f.lastApplied + done + 1);
  }

  lemma SliceOfPrefix(all: Log, n: nat, a: nat, b: nat)
    requires a <= b <= n <= |all|
    ensures all[..n][a..b] == all[a..b]
  {
  }

  predicate Announced(p: Place) {
    p.tokens != [] && -1 <= p.applied && 0 <= p.tokens[0] && p.applied + p.tokens[0] < p.length
  }

  function AfterToken(p: Place): Place
    requires Announced(p) && p.length <= 5
  {
    p.(applied := p.applied + p.tokens[0], tokens := p.tokens[1..],
       store := ApplyAll(p.store, History()[p.applied + 1..p.applied + p.tokens[0] + 1]))
  }

  lemma PlaceApplies(f: Fields, id: nat, role: Role, p: Place)
    requires Has(f, id, role, p) && Announced(p)
    ensures CanApply(f, p.tokens[0]) && Has(Applied(f, p.tokens[0]), id, role, AfterToken(p))
    ensures ApplyAll(p.store, Batch(f, p.tokens[0])) == AfterToken(p).store
  {
    BatchOf(f, p.length, p.tokens[0]);
  }

  lemma OneMore(states: seq<Cluster>, events: seq<Event>, s: Cluster, i: nat, done: nat)
    returns (ss: seq<Cluster>, es: seq<Event>, z: Cluster)
    requires Ends(Truncate, 2, states, events, s) && |s.nodes| == 2 && Fair(states, events)
    requires i < 2 && CanApply(s.nodes[i].raft, done) && s.nodes[i].raft.commitsReady[0] == done
    ensures Ends(Truncate, 2, ss, es, z) && z.nodes == s.nodes[i := AfterBatch(s.nodes[i], done)] && Fair(ss, es)
  {
    ss, es, z := ApplyBatch(Truncate, 2, states, events, s, i, done);
    FairOne(states, events, s, Apply(i, done), z);
  }

  /** The leader applies the batch of its oldest token. */
  lemma LeaderApplies(states: seq<Cluster>, events: seq<Event>, s: Cluster, p: Place, won: nat, done: nat, q: Place)
    returns (ss: seq<Cluster>, es: seq<Event>, z: Cluster)
    requires At(states, events, s, p, won, done, q) && Announced(p)
    ensures At(ss, es, z, AfterToken(p), won, done, q)
    ensures |z.nodes[0].rounds| == |s.nodes[0].rounds|
  {
    PlaceApplies(s.nodes[0].raft, 0, Leader, p);
    ss, es, z := OneMore(states, events, s, 0, p.tokens[0]);
    LeaderStays(s.nodes[0], p, won, done, z.nodes[0], AfterToken(p));
  }

  /** Nothing changes for the leader's rounds. */
  lemma LeaderStays(x: Node, p: Place, won: nat, done: nat, y: Node, z: Place)
    requires LeaderAt(x, p, won, done) && Has(y.raft, 0, Leader, z) && y.store == z.store && z.length == p.length
    requires y.rounds == x.rounds && y.waiting == x.waiting
    requires y.raft.nextIndex == x.raft.nextIndex && y.raft.latestClient == x.raft.latestClient
    ensures LeaderAt(y, z, won, done)
  {
  }

  lemma FollowerApplies(states: seq<Cluster>, events: seq<Event>, s: Cluster, p: Place, won: nat, done: nat, q: Place)
    returns (ss: seq<Cluster>, es: seq<Event>, z: Cluster)
    requires At(states, events, s, p, won, done, q) && Announced(q)
    ensures At(ss, es, z, p, won, done, AfterToken(q))
  {
    PlaceApplies(s.nodes[1].raft, 1, Follower, q);
    ss, es, z := OneMore(states, events, s, 1, q.tokens[0]);
  }

  // ----- The run -----

  const POSTED: Map := map[KEY := FIRST]

  lemma {:induction false} Results()
    ensures ApplyAll(map[], History()[0..1]) == map[] && ApplyAll(map[], History()[1..2]) == POSTED
    ensures ApplyAll(POSTED, History()[2..3]) == map[]
    ensures ApplyAll(map[], History()[3..4]) == map[]
    ensures ApplyAll(map[], History()[4..5]) == map[KEY := LAST]
    ensures ApplyAll(map[], History()[3..5]) == map[KEY := LAST]
    ensures ApplyAll(map[KEY := LAST], History()[3..5]) == map[KEY := OVERWRITTEN]
  {
    var h := History();
    assert h[0..1] == [h[0]] && h[1..2] == [h[1]] && h[2..3] == [h[2]] && h[3..4] == [h[3]] && h[4..5] == [h[4]];
    TwoApplied(map[], h[3], h[4]);
    TwoApplied(map[KEY := LAST], h[3], h[4]);
    assert h[3..5] == [h[3], h[4]];
  }

  lemma Started() returns (ss: seq<Cluster>, es: seq<Event>, z: Cluster)
    ensures At(ss, es, z, Place(1, -1, -1, [], map[]), 0, 0, Place(0, -1, -1, [], map[]))
    ensures |z.nodes[0].rounds| == 1
  {
    ss, es, z := Counterexamples.FirstReign(Truncate, 2, 0, 1);
    assert Fair([Start(2)], []);
    FairFurther([Start(2)], [], ss, es);
    assert History()[..1] == [NoOpEntry(1)];
  }

  /** The first write succeeds. */
  lemma FirstCommitted() returns (ss: seq<Cluster>, es: seq<Event>, z: Cluster)
    ensures At(ss, es, z, Place(2, 1, -1, [1, 1], map[]), 2, 2, Place(2, -1, -1, [], map[]))
    ensures |z.nodes[0].rounds| == 2
  {
    ss, es, z := Started();
    var p, q := Place(1, -1, -1, [], map[]), Place(0, -1, -1, [], map[]);
    ss, es, z := Writes(ss, es, z, p, 0, 0, q);
    p := p.(length := 2);
    ss, es, z := Accepts(ss, es, z, p, 0, 0, q);
    ss, es, z := Accepts(ss, es, z, p, 1, 0, q.(length := 1));
    q := q.(length := 2);
    ss, es, z := Succeeds(ss, es, z, p, 2, 0, q);
    ss, es, z := Succeeds(ss, es, z, p.(commit := 0, tokens := [1]), 2, 1, q);
  }

  /** The leader applies it. */
  lemma KeyPosted() returns (ss: seq<Cluster>, es: seq<Event>, z: Cluster)
    ensures At(ss, es, z, Place(2, 1, 1, [], POSTED), 2, 2, Place(2, -1, -1, [], map[]))
    ensures |z.nodes[0].rounds| == 2
  {
    ss, es, z := FirstCommitted();
    var q := Place(2, -1, -1, [], map[]);
    Results();
    ss, es, z := LeaderApplies(ss, es, z, Place(2, 1, -1, [1, 1], map[]), 2, 2, q);
    ss, es, z := LeaderApplies(ss, es, z, Place(2, 1, 0, [1], map[]), 2, 2, q);
  }

  /** The other three are appended while the leader's store has the key, and the follower accepts them. */
  lemma ThreeAccepted() returns (ss: seq<Cluster>, es: seq<Event>, z: Cluster)
    ensures At(ss, es, z, Place(5, 1, 1, [], POSTED), 5, 2, Place(5, 1, -1, [2], map[])) && |z.nodes[0].rounds| == 5
  {
    ss, es, z := KeyPosted();
    var p, q := Place(2, 1, 1, [], POSTED), Place(2, -1, -1, [], map[]);
    ss, es, z := Writes(ss, es, z, p, 2, 2, q);
    ss, es, z := Writes(ss, es, z, p.(length := 3), 2, 2, q);
    ss, es, z := Writes(ss, es, z, p.(length := 4), 2, 2, q);
    p := p.(length := 5);
    ss, es, z := Accepts(ss, es, z, p, 2, 2, q);
    q := Place(3, 1, -1, [2], map[]);
    ss, es, z := Accepts(ss, es, z, p, 3, 2, q);
    ss, es, z := Accepts(ss, es, z, p, 4, 2, q.(length := 4));
  }

  /** All three succeed. The follower learns of the DELETE first and of the PUT and the POST in one batch. */
  lemma AllCommitted() returns (ss: seq<Cluster>, es: seq<Event>, z: Cluster)
    ensures At(ss, es, z, Place(5, 4, 1, [1, 1, 1], POSTED), 5, 5, Place(5, 4, -1, [2, 1, 2], map[]))
  {
    ss, es, z := ThreeAccepted();
    var p, q := Place(5, 1, 1, [], POSTED), Place(5, 1, -1, [2], map[]);
    ss, es, z := Succeeds(ss, es, z, p, 5, 2, q);
    p := Place(5, 2, 1, [1], POSTED);
    ss, es, z := Announces(ss, es, z, p, 3, q);
    q := Place(5, 2, -1, [2, 1], map[]);
    ss, es, z := Succeeds(ss, es, z, p, 5, 3, q);
    ss, es, z := Succeeds(ss, es, z, Place(5, 3, 1, [1, 1], POSTED), 5, 4, q);
    ss, es, z := Announces(ss, es, z, Place(5, 4, 1, [1, 1, 1], POSTED), 5, q);
  }

  lemma FollowerStored(states: seq<Cluster>, events: seq<Event>, s: Cluster)
    requires Ends(Truncate, 2, states, events, s) && |s.nodes| == 2
    ensures StorageOk(s.nodes[1].raft)
  {
    var hs := Chronicle.Record(Truncate, 2, states, events);
    assert Elections.Told(s, hs[|events|]) && Elections.NodeFits(s, hs[|events|], 1);
  }

  /** The follower crashes after it has applied that batch, and before it has written down how far it got. */
  lemma CrashesInBatch(states: seq<Cluster>, events: seq<Event>, s: Cluster, p: Place, q: Place)
    returns (ss: seq<Cluster>, es: seq<Event>, z: Cluster)
    requires At(states, events, s, p, 5, 5, q) && q.length == 5 && q.commit == 4 && q.applied == 2
    requires q.tokens == [2] && q.store == map[] && StorageOk(s.nodes[1].raft)
    ensures At(ss, es, z, p, 5, 5, q.(store := map[KEY := LAST]))
  {
    BatchOf(s.nodes[1].raft, 5, 2);
    Results();
    z := Moved(s, 1, Restarted(s.nodes[1].(store := map[KEY := LAST])), {});
    Go(Truncate, 2, states, events, s, CrashInApply(1, 2), z);
    FairOne(states, events, s, CrashInApply(1, 2), z);
    ss, es := states + [z], events + [CrashInApply(1, 2)];
  }

  /** The second time the PUT finds the key that the POST has created. */
  lemma FollowerReplays() returns (ss: seq<Cluster>, es: seq<Event>, z: Cluster)
    ensures At(ss, es, z, Place(5, 4, 1, [1, 1, 1], POSTED), 5, 5, Place(5, 4, 4, [], map[KEY := OVERWRITTEN]))
  {
    ss, es, z := AllCommitted();
    var p := Place(5, 4, 1, [1, 1, 1], POSTED);
    Results();
    var h := History();
    assert ApplyAll(map[], h[0..2]) == POSTED by {
      assert h[0..2] == [h[0], h[1]];
      TwoApplied(map[], h[0], h[1]);
    }
    ss, es, z := FollowerApplies(ss, es, z, p, 5, 5, Place(5, 4, -1, [2, 1, 2], map[]));
    ss, es, z := FollowerApplies(ss, es, z, p, 5, 5, Place(5, 4, 1, [1, 2], POSTED));
    FollowerStored(ss, es, z);
    ss, es, z := CrashesInBatch(ss, es, z, p, Place(5, 4, 2, [2], map[]));
    ss, es, z := FollowerApplies(ss, es, z, p, 5, 5, Place(5, 4, 2, [2], map[KEY := LAST]));
  }

  lemma LeaderCatchesUp() returns (ss: seq<Cluster>, es: seq<Event>, z: Cluster)
    ensures At(ss, es, z, Place(5, 4, 4, [], map[KEY := LAST]), 5, 5, Place(5, 4, 4, [], map[KEY := OVERWRITTEN]))
  {
    ss, es, z := FollowerReplays();
    var q := Place(5, 4, 4, [], map[KEY := OVERWRITTEN]);
    Results();
    ss, es, z := LeaderApplies(ss, es, z, Place(5, 4, 1, [1, 1, 1], POSTED), 5, 5, q);
    ss, es, z := LeaderApplies(ss, es, z, Place(5, 4, 2, [1, 1], map[]), 5, 5, q);
    ss, es, z := LeaderApplies(ss, es, z, Place(5, 4, 3, [1], map[]), 5, 5, q);
  }

  /** Every write waited and passed the check, every batch was applied whole or by a process that died in it, no
      value is empty, and both nodes have applied the same five entries: still their stores differ, for good. */
  lemma CheckedPutMisses() returns (states: seq<Cluster>, events: seq<Event>, s: Cluster)
    ensures Ends(Truncate, 2, states, events, s) && |s.nodes| == 2 && Fair(states, events)
    ensures forall i :: 0 <= i < 2 ==>
      var f := s.nodes[i].raft;
      f.log == History() && f.commitIndex == f.lastApplied == 4 && f.commitsReady == []
    ensures s.nodes[0].store == map[KEY := LAST] && s.nodes[1].store == map[KEY := OVERWRITTEN]
  {
    states, events, s := LeaderCatchesUp();
    assert History()[..5] == History();
  }
}
