// A NameServer instance as the C code keeps it: a list of nodes, a count, and
// chains of nodes hung onto others whose hash they share.

module NameServer {
  import opened Options
  import opened NameHash
  import opened NameTable

  class Entry {
    const name: Name
    const hash: bv32
    const value: Value          // its length is the C field len
    const collide: bool
    var next: Entry?

    constructor (name: Name, hash: bv32, value: Value, collide: bool)
      ensures this.name == name && this.hash == hash && this.value == value && this.collide == collide && next == null
    {
      this.name := name;
      this.hash := hash;
      this.value := value;
      this.collide := collide;
      next := null;
    }
  }

  /** The list as values: names and values of nodes never change. */
  ghost function ItemsOf(nodes: seq<Entry>): (items: seq<Item>)
    ensures |items| == |nodes|
    ensures forall i :: 0 <= i < |items| ==> items[i] == Item(nodes[i].name, nodes[i].value)
  {
    seq(|nodes|, i requires 0 <= i < |nodes| => Item(nodes[i].name, nodes[i].value))
  }

  /** An instance created with checkExisting on, the module's default. */
  class Instance {
    var nameList: seq<Entry>
    var count: int

    /** Every node on the list carries its name's hash, and none is marked as colliding. */
    ghost predicate Valid()
      reads this`nameList
    {
      && (forall i :: 0 <= i < |nameList| ==> nameList[i].hash == Hash(nameList[i].name) && !nameList[i].collide)
      && (forall i, k :: 0 <= i < k < |nameList| ==> nameList[i] != nameList[k])
      && HashDistinct(Items())
    }

    ghost function Items(): (items: seq<Item>)
      reads this`nameList
    {
      ItemsOf(nameList)
    }

    constructor ()
      ensures Valid() && nameList == [] && count == 0
    {
      nameList := [];
      count := 0;
    }

    /** The traversal all operations share: the first node with this hash. */
    method FindNode(hash: bv32) returns (k: nat)
      requires Valid()
      ensures k == FindHash(Items(), hash)
    {
      hide Hash;
      k := 0;
      while k < |nameList| && nameList[k].hash != hash
        invariant 0 <= k <= |nameList|
        invariant forall m :: 0 <= m < k ==> nameList[m].hash != hash
      {
        k := k + 1;
      }
      assert k == |nameList| || Hash(Items()[k].name) == hash;
      assert forall m :: 0 <= m < k ==> Hash(Items()[m].name) != hash;
    }

    /** NameServer_add. */
    method Add(name: Name, buf: Value) returns (entry: Entry?)
      requires Valid()
      modifies this, nameList
      ensures Valid()
      ensures Items() == AddItem(old(Items()), name, buf)
      ensures entry == null <==> AddKind(old(Items()), name).Duplicate?
      ensures count == old(count) + if entry == null then 0 else 1
      ensures AddKind(old(Items()), name).AtHead? ==>
                entry != null && fresh(entry) && nameList == [entry] + old(nameList)
      ensures entry != null ==> entry.name == name && entry.value == buf
      ensures !AddKind(old(Items()), name).AtHead? ==> nameList == old(nameList)
      ensures AddKind(old(Items()), name).Chained? ==> entry != null && entry.collide && entry !in nameList
    {
      hide Hash, HashDistinct, Clash, AsMap, FindHash, ItemsOf;
      ghost var before := Items();
      AddExact(before, name, buf);
      var hash := StringHash(name);
      var k := FindNode(hash);
      if k < |nameList| && nameList[k].name == name { return null; }
      assert Items() == before;
      var found := k < |nameList|;
      var node := new Entry(name, hash, buf, found);
      if found {
        node.next := nameList[k].next;
        nameList[k].next := node;
        assert Items() == before;
      } else {
        nameList := [node] + nameList;
        assert forall i :: 0 < i < |nameList| ==> nameList[i] == old(nameList)[i - 1];
        assert Items() == [Item(name, buf)] + before;
      }
      count := count + 1;
      entry := node;
    }

    /** NameServer_removeEntry, of a node on the list. */
    method RemoveEntry(entry: Entry)
      requires Valid() && entry in nameList
      modifies this
      ensures Valid() && count == old(count) - 1 && entry !in nameList
      ensures exists k :: 0 <= k < |old(nameList)| && old(nameList)[k] == entry
                          && nameList == old(nameList)[..k] + old(nameList)[k + 1..]
                          && Items() == old(Items())[..k] + old(Items())[k + 1..]
    {
      hide Hash, HashDistinct, ItemsOf;
      var k :| 0 <= k < |nameList| && nameList[k] == entry;
      DropDistinct(Items(), k);
      nameList := nameList[..k] + nameList[k + 1..];
      assert forall i :: 0 <= i < |nameList| ==> nameList[i] == old(nameList)[if i < k then i else i + 1];
      assert Items() == old(Items())[..k] + old(Items())[k + 1..];
      count := count - 1;
    }

    /** NameServer_remove. Its branches for colliding nodes are never taken. */
    method Remove(name: Name) returns (done: bool)
      requires Valid()
      modifies this
      ensures Valid()
      ensures Items() == RemoveItem(old(Items()), name)
      ensures done <==> FindHash(old(Items()), Hash(name)) < |old(Items())|
      ensures count == old(count) - if done then 1 else 0
    {
      hide Hash;
      var hash := StringHash(name);
      var k := FindNode(hash);
      if k == |nameList| { return false; }
      if nameList[k].collide {
        assert false;
      } else {
        RemoveEntry(nameList[k]);
        return true;
      }
    }

    /** NameServer_getLocal. Its branch for colliding nodes is never taken. */
    method GetLocal(name: Name, len: nat) returns (value: Option<Value>)
      requires Valid()
      ensures value == GetItem(Items(), name, len)
      ensures value.Some? ==> exists k :: 0 <= k < |nameList| && nameList[k].hash == Hash(name) && IsCut(value.value, nameList[k].value, len)
    {
      hide Hash;
      var hash := StringHash(name);
      var k := FindNode(hash);
      if k == |nameList| { return None; }
      var node := nameList[k];
      if node.collide {
        assert false;
      } else if len <= |node.value| {
        return Some(node.value[..len]);
      } else {
        return Some(node.value);
      }
    }
  }
}
