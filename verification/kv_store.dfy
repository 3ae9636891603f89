/** The store as the code has it: an array of linked lists on the heap, each list newest pair first,
    and the shadow map. Each method computes one function of `Buckets`. */
module KvStores {
  import opened Entries
  import Protocol
  import opened Buckets
  import StoreLaws

  class Node {
    const key: Bytes
    var data: Bytes
    var next: Node?

    constructor (key: Bytes, data: Bytes, next: Node?)
      ensures this.key == key && this.data == data && this.next == next
    {
      this.key, this.data, this.next := key, data, next;
    }
  }

  /** Node `i` leads to the one after it, the last node nowhere. */
  ghost predicate Linked(nodes: seq<Node>, i: nat)
    reads if i < |nodes| then {nodes[i]} else {}
  {
    i < |nodes| && nodes[i].next == if i + 1 < |nodes| then nodes[i + 1] else null
  }

  class LinkedList {
    var head: Node?
    var size: int
    ghost var nodes: seq<Node>
    ghost var pairs: Bucket
    ghost var Repr: set<object>

    /** Following `next` from the head meets `nodes`, each once, and ends. */
    ghost predicate Valid()
      reads this, Repr
    {
      && this in Repr
      && (forall i :: 0 <= i < |nodes| ==> nodes[i] in Repr)
      && size == |nodes| == |pairs|
      && head == (if nodes == [] then null else nodes[0])
      && (forall i {:trigger Linked(nodes, i)} :: 0 <= i < |nodes| ==> Linked(nodes, i))
      && (forall i, j :: 0 <= i < j < |nodes| ==> nodes[i] != nodes[j])
      && (forall i :: 0 <= i < |nodes| ==> Pair(nodes[i].key, nodes[i].data) == pairs[i])
    }

    constructor ()
      ensures Valid() && fresh(Repr) && pairs == []
    {
      head, size, nodes, pairs, Repr := null, 0, [], [], {this};
    }

    method Add(key: Bytes, data: Bytes)
      requires Valid()
      modifies this
      ensures Valid() && fresh(Repr - old(Repr)) && pairs == [Pair(key, data)] + old(pairs)
      ensures size == old(size) + 1
    {
      var node := new Node(key, data, null);
      assert node !in nodes;
      if head != null {
        node.next := head;
      }
      head := node;
      size := size + 1;
      ghost var was := nodes;
      nodes, pairs, Repr := [node] + nodes, [Pair(key, data)] + pairs, Repr + {node};
      forall j | 0 <= j < |nodes|
        ensures Linked(nodes, j)
      {
        if j > 0 {
          assert Linked(was, j - 1);
        }
      }
    }

    method DropHead()
      requires Valid() && nodes != []
      modifies this
      ensures Valid() && Repr == old(Repr) && pairs == old(pairs[1..])
    {
      assert Linked(nodes, 0);
      ghost var was := nodes;
      head := head.next;
      size := size - 1;
      nodes, pairs := nodes[1..], pairs[1..];
      forall j | 0 <= j < |nodes|
        ensures Linked(nodes, j)
      {
        assert Linked(was, j + 1);
      }
    }

    method DropNext(node: Node, ghost i: nat)
      requires Valid() && i + 1 < |nodes| && node == nodes[i]
      modifies this, node
      ensures Valid() && Repr == old(Repr) && pairs == old(pairs[..i + 1] + pairs[i + 2..])
    {
      assert Linked(nodes, i) && Linked(nodes, i + 1);
      ghost var was := nodes;
      node.next := node.next.next;
      size := size - 1;
      nodes, pairs := nodes[..i + 1] + nodes[i + 2..], pairs[..i + 1] + pairs[i + 2..];
      forall j | 0 <= j < |nodes|
        ensures Linked(nodes, j)
      {
        if j != i {
          assert Linked(was, if j < i then j else j + 1);
        }
      }
    }

    /** Unlink the first node with the key. */
    method Remove(key: Bytes) returns (found: bool)
      requires Valid()
      modifies Repr
      ensures Valid() && Repr == old(Repr)
      ensures found == Lookup(old(pairs), key).Some? && pairs == Removed(old(pairs), key)
      ensures size == old(size) - if found then 1 else 0
    {
      if head == null {
        return false;
      }
      if head.key == key {
        FirstIs(pairs, key, 0);
        DropHead();
        return true;
      }
      var node := head;
      ghost var i := 0;
      while node.next != null
        invariant i < |nodes| && node == nodes[i]
        invariant forall j :: 0 <= j <= i ==> pairs[j].key != key
        decreases |nodes| - i
      {
        assert Linked(nodes, i);
        if node.next.key == key {
          break;
        }
        node := node.next;
        i := i + 1;
      }
      assert Linked(nodes, i);
      if node.next == null {
        FirstIs(pairs, key, |pairs|);
        return false;
      }
      FirstIs(pairs, key, i + 1);
      DropNext(node, i);
      found := true;
    }

    /** The first node with the key. */
    method Find(key: Bytes) returns (node: Node?, ghost i: nat)
      requires Valid()
      ensures i == First(pairs, key)
      ensures if i < |nodes| then node == nodes[i] else node == null
    {
      node, i := head, 0;
      while node != null
        invariant i <= |nodes|
        invariant node == if i < |nodes| then nodes[i] else null
        invariant forall j :: 0 <= j < i ==> pairs[j].key != key
        decreases |nodes| - i
      {
        if node.key == key {
          break;
        }
        assert Linked(nodes, i);
        node := node.next;
        i := i + 1;
      }
      FirstIs(pairs, key, i);
    }

    /** Give the first node with the key a new value. */
    method Update(key: Bytes, value: Bytes) returns (found: bool)
      requires Valid()
      modifies Repr
      ensures Valid() && Repr == old(Repr)
      ensures found == Lookup(old(pairs), key).Some? && pairs == Replaced(old(pairs), key, value)
    {
      var node, i := Find(key);
      if node == null {
        return false;
      }
      node.data := value;
      pairs := pairs[i := Pair(key, value)];
      forall j | 0 <= j < |nodes|
        ensures Linked(nodes, j)
      {
        assert old(Linked(nodes, j));
      }
      found := true;
    }
  }

  method HashOf(str: Bytes) returns (res: int)
    ensures res == Hash(str)
  {
    res := 1;
    for i := 0 to |str|
      invariant 0 <= res < BUCKETS
      invariant res == Hash(str[..i])
    {
      var x := (str[i] as int - 65) % 256;
      if x < 0 {
        x := -1 * x;
      }
      assert str[..i + 1][..i] == str[..i];
      res := res + (res * 17003 + x);
      res := res % BUCKETS;
    }
    assert str[..|str|] == str;
  }

  /** A list, or none yet, with these pairs. */
  ghost predicate Holds(list: LinkedList?, b: Bucket)
    reads if list == null then {} else {list}, if list == null then {} else list.Repr
  {
    if list == null then b == [] else list.Valid() && list.pairs == b
  }

  class Store {
    const db: array<LinkedList?>
    var dbTemp: Protocol.Map
    ghost var contents: seq<Bucket>
    ghost var Repr: set<object>

    ghost predicate Valid()
      reads this, Repr
    {
      && this in Repr && db in Repr && db.Length == BUCKETS == |contents|
      && (forall i :: 0 <= i < BUCKETS && db[i] != null ==>
            db[i] in Repr && db[i].Repr <= Repr && this !in db[i].Repr && db !in db[i].Repr)
      && (forall i :: 0 <= i < BUCKETS ==> Holds(db[i], contents[i]))
      && (forall i, j :: 0 <= i < j < BUCKETS && db[i] != null && db[j] != null ==> db[i].Repr !! db[j].Repr)
    }

    /** The value of the store. */
    ghost function View(): (s: Kv)
      requires Valid()
      reads this, Repr
      ensures |s.buckets| == BUCKETS
    {
      Kv(contents, dbTemp)
    }

    constructor ()
      ensures Valid() && fresh(Repr) && View() == StoreLaws.Empty()
    {
      db := new LinkedList?[BUCKETS](_ => null);
      dbTemp, contents := map[], StoreLaws.Empty().buckets;
      Repr := {this, db};
    }

    /** The first pair of a bucket needs a list to go to. */
    method Open(id: nat)
      requires Valid() && id < BUCKETS && db[id] == null
      modifies this`Repr, db
      ensures Valid() && fresh(Repr - old(Repr)) && db[id] != null
      ensures contents == old(contents) && dbTemp == old(dbTemp)
    {
      var list := new LinkedList();
      assert Holds(db[id], contents[id]);
      db[id] := list;
      Repr := Repr + list.Repr;
    }

    method Push(key: Bytes, value: Bytes)
      requires Valid()
      modifies Repr
      ensures Valid() && fresh(Repr - old(Repr)) && dbTemp == old(dbTemp)
      ensures contents == Pushed(old(contents), key, value)
    {
      var id := HashOf(key);
      assert Holds(db[id], contents[id]);
      if db[id] == null {
        Open(id);
      }
      AddTo(id, key, value);
    }

    method AddTo(id: nat, key: Bytes, value: Bytes)
      requires Valid() && id < BUCKETS && db[id] != null
      modifies Repr
      ensures Valid() && fresh(Repr - old(Repr)) && dbTemp == old(dbTemp)
      ensures contents == old(contents)[id := [Pair(key, value)] + old(contents)[id]]
    {
      var list := db[id];
      assert Holds(list, contents[id]);
      list.Add(key, value);
      contents := contents[id := [Pair(key, value)] + contents[id]];
      Repr := Repr + list.Repr;
      forall j | 0 <= j < BUCKETS
        ensures Holds(db[j], contents[j])
      {
        assert old(Holds(db[j], contents[j]));
      }
    }

    method Get(key: Bytes) returns (value: Bytes)
      requires Valid()
      ensures value == Buckets.Get(contents, key)
    {
      var id := HashOf(key);
      assert Holds(db[id], contents[id]);
      if db[id] == null {
        return Protocol.INVALID;
      }
      var node, i := db[id].Find(key);
      value := if node == null then Protocol.INVALID else node.data;
    }

    /** A change inside one list leaves the others as they were. */
    twostate lemma OthersHold(id: nat)
      requires old(Valid()) && id < BUCKETS && db[id] != null && db[id] == old(db[id])
      requires Repr == old(Repr) && |contents| == BUCKETS
      requires forall j :: 0 <= j < BUCKETS ==> db[j] == old(db[j])
      requires forall j :: 0 <= j < BUCKETS && j != id ==> contents[j] == old(contents[j])
      requires forall j :: 0 <= j < BUCKETS && j != id && db[j] != null ==> unchanged(db[j], old(db[j].Repr))
      ensures forall j :: 0 <= j < BUCKETS && j != id ==> Holds(db[j], contents[j])
    {
      forall j | 0 <= j < BUCKETS && j != id
        ensures Holds(db[j], contents[j])
      {
        assert old(Holds(db[j], contents[j]));
      }
    }

    method Put(key: Bytes, value: Bytes) returns (ok: bool)
      requires Valid()
      modifies Repr
      ensures Valid() && Repr == old(Repr) && dbTemp == old(dbTemp)
      ensures ok == Lookup(old(contents)[Hash(key)], key).Some? && contents == Updated(old(contents), key, value)
    {
      var id := HashOf(key);
      assert Holds(db[id], contents[id]);
      if db[id] == null {
        return false;
      }
      ok := db[id].Update(key, value);
      contents := Updated(contents, key, value);
      OthersHold(id);
    }

    method Delete(key: Bytes) returns (ok: bool)
      requires Valid()
      modifies Repr
      ensures Valid() && Repr == old(Repr) && dbTemp == old(dbTemp)
      ensures ok == Lookup(old(contents)[Hash(key)], key).Some? && contents == Erased(old(contents), key)
    {
      var id := HashOf(key);
      assert Holds(db[id], contents[id]);
      if db[id] == null {
        return false;
      }
      ok := db[id].Remove(key);
      contents := Erased(contents, key);
      OthersHold(id);
    }

    // ----- Requests -----

    method PostHandler(key: Bytes, value: Bytes) returns (created: bool)
      requires Valid()
      modifies Repr
      ensures Valid() && fresh(Repr - old(Repr)) && View() == OnPost(old(View()), key, value)
      ensures created == (Buckets.Get(old(contents), key) == Protocol.INVALID)
    {
      var duplicate := Get(key);
      created := duplicate == Protocol.INVALID;
      if created {
        Push(key, value);
        dbTemp := dbTemp[key := value];
      }
    }

    method PutHandler(key: Bytes, value: Bytes) returns (ok: bool)
      requires Valid()
      modifies Repr
      ensures Valid() && Repr == old(Repr) && View() == OnPut(old(View()), key, value)
      ensures ok == Lookup(old(contents)[Hash(key)], key).Some?
    {
      ok := Put(key, value);
      if ok {
        dbTemp := dbTemp[key := value];
      }
    }

    method DeleteHandler(key: Bytes) returns (ok: bool)
      requires Valid()
      modifies Repr
      ensures Valid() && Repr == old(Repr) && View() == OnDelete(old(View()), key)
      ensures ok == Lookup(old(contents)[Hash(key)], key).Some?
    {
      ok := Delete(key);
      if ok {
        dbTemp := dbTemp[key := []];
      }
    }

    // ----- Recovery -----

    /** A new store reads the file and pushes what is not a tombstone, walking the map in any order. */
    method Recover(file: Protocol.Map)
      requires Valid() && View() == StoreLaws.Empty()
      modifies Repr
      ensures Valid() && fresh(Repr - old(Repr)) && dbTemp == file
      ensures Means(View(), Protocol.Live(file))
    {
      dbTemp := file;
      var todo := file.Keys;
      ghost var order: seq<Bytes> := [];
      while todo != {}
        invariant Valid() && fresh(Repr - old(Repr)) && dbTemp == file
        invariant StoreLaws.NoRepeats(order) && todo <= file.Keys
        invariant forall k :: k in order <==> k in file && k !in todo
        invariant contents == StoreLaws.Rebuilt(file, order)
        decreases todo
      {
        var key :| key in todo;
        todo := todo - {key};
        assert (order + [key])[..|order|] == order;
        order := order + [key];
        if file[key] != [] {
          Push(key, file[key]);
        }
      }
      StoreLaws.RecoveredMeans(file, order);
    }
  }
}
