// The NameServer's name/value table. A node is found by its hash alone as long
// as its collide flag is off, and no node on the list ever has it on. So the
// table is a finite map exactly as far as hashes tell names apart.

module NameTable {
  import opened Options
  import opened NameHash

  newtype byte = x: int | 0 <= x < 0x100

  type Value = seq<byte>

  datatype Item = Item(name: Name, value: Value)

  // ----- the list as a value, head first -----

  /** The first node with this hash, or |items|. */
  function FindHash(items: seq<Item>, hash: bv32): (k: nat)
    ensures k <= |items|
    ensures k < |items| ==> Hash(items[k].name) == hash
    ensures forall m :: 0 <= m < k ==> Hash(items[m].name) != hash
  {
    hide Hash;
    if items == [] || Hash(items[0].name) == hash then 0 else 1 + FindHash(items[1..], hash)
  }

  /** NameServer_add with checkExisting: an existing name is refused, a new hash goes to the head of the list, and a
    * new name whose hash is taken is hung onto the other name's node, where no traversal of the list meets it. */
  datatype Addition = Duplicate | AtHead | Chained

  function AddKind(items: seq<Item>, name: Name): Addition {
    var k := FindHash(items, Hash(name));
    if k == |items| then AtHead else if items[k].name == name then Duplicate else Chained
  }

  function AddItem(items: seq<Item>, name: Name, value: Value): seq<Item> {
    if AddKind(items, name).AtHead? then [Item(name, value)] + items else items
  }

  /** NameServer_remove: the first node with the name's hash goes, whatever its name. */
  function RemoveItem(items: seq<Item>, name: Name): seq<Item> {
    var k := FindHash(items, Hash(name));
    if k == |items| then items else items[..k] + items[k + 1..]
  }

  function Cut(value: Value, len: nat): (r: Value)
    ensures IsCut(r, value, len)
  {
    if len <= |value| then value[..len] else value
  }

  /** The first len bytes of the value, or all of it when it has fewer. */
  predicate IsCut(r: Value, value: Value, len: nat) {
    r <= value && |r| == if len <= |value| then len else |value|
  }

  /** NameServer_getLocal: the value of the first node with the name's hash, cut to the requested length. */
  function GetItem(items: seq<Item>, name: Name, len: nat): Option<Value> {
    var k := FindHash(items, Hash(name));
    if k == |items| then None else Some(Cut(items[k].value, len))
  }

  // ----- the finite map behind it -----

  function AsMap(items: seq<Item>): map<Name, Value> {
    if items == [] then map[] else AsMap(items[1..])[items[0].name := items[0].value]
  }

  /** Holds of every table: no two nodes share a hash. */
  predicate HashDistinct(items: seq<Item>) {
    forall i, k :: 0 <= i < k < |items| ==> Hash(items[i].name) != Hash(items[k].name)
  }

  /** Another name on the list has this name's hash. */
  predicate Clash(items: seq<Item>, name: Name) {
    exists k :: 0 <= k < |items| && items[k].name != name && Hash(items[k].name) == Hash(name)
  }

  lemma {:induction false} MapHas(items: seq<Item>, name: Name)
    ensures name in AsMap(items) <==> exists k :: 0 <= k < |items| && items[k].name == name
  {
    hide Hash;
    if items != [] {
      MapHas(items[1..], name);
      if k :| 0 <= k < |items| && items[k].name == name {
        if k > 0 { assert items[1..][k - 1].name == name; }
      }
      if k :| 0 <= k < |items[1..]| && items[1..][k].name == name { assert items[k + 1].name == name; }
    }
  }

  lemma {:induction false} MapAt(items: seq<Item>, k: nat)
    requires HashDistinct(items) && k < |items|
    ensures items[k].name in AsMap(items) && AsMap(items)[items[k].name] == items[k].value
  {
    hide Hash;
    if k > 0 { MapAt(items[1..], k - 1); }
  }

  lemma {:induction false} MapSize(items: seq<Item>)
    requires HashDistinct(items)
    ensures |AsMap(items)| == |items|
  {
    hide Hash;
    if items != [] {
      MapSize(items[1..]);
      MapHas(items[1..], items[0].name);
    }
  }

  lemma DropDistinct(items: seq<Item>, k: nat)
    requires HashDistinct(items) && k < |items|
    ensures HashDistinct(items[..k] + items[k + 1..])
  {
    hide Hash;
    var rest := items[..k] + items[k + 1..];
    forall i, m | 0 <= i < m < |rest| ensures Hash(rest[i].name) != Hash(rest[m].name) {
      assert rest[i] == items[if i < k then i else i + 1] && rest[m] == items[if m < k then m else m + 1];
    }
  }

  lemma MapCons(item: Item, rest: seq<Item>)
    ensures AsMap([item] + rest) == AsMap(rest)[item.name := item.value]
  {
    assert ([item] + rest)[1..] == rest;
  }

  lemma PutTakeOut(m: map<Name, Value>, n: Name, v: Value)
    requires n !in m
    ensures m[n := v] - {n} == m
  {
  }

  lemma PutElsewhere(m: map<Name, Value>, n: Name, v: Value, other: Name)
    requires n != other
    ensures (m - {other})[n := v] == m[n := v] - {other}
  {
  }

  lemma {:induction false} MapDrop(items: seq<Item>, k: nat)
    requires HashDistinct(items) && k < |items|
    ensures AsMap(items[..k] + items[k + 1..]) == AsMap(items) - {items[k].name}
  {
    hide Hash, AsMap;
    var first, tail := items[0], items[1..];
    MapCons(first, tail);
    assert items == [first] + tail;
    if k == 0 {
      assert items[..0] + tail == tail;
      MapHas(tail, first.name);
      PutTakeOut(AsMap(tail), first.name, first.value);
    } else {
      var rest := tail[..k - 1] + tail[k..];
      MapDrop(tail, k - 1);
      assert first.name != items[k].name;
      MapCons(first, rest);
      DropCons(items, k);
      PutElsewhere(AsMap(tail), first.name, first.value, items[k].name);
    }
  }

  lemma DropCons(items: seq<Item>, k: nat)
    requires 0 < k < |items|
    ensures items[..k] + items[k + 1..] == [items[0]] + (items[1..][..k - 1] + items[1..][k..])
  {
  }

  /** A name without a clash stands on the list exactly if the map has it, and then its hash finds it. */
  lemma FindExact(items: seq<Item>, name: Name)
    requires HashDistinct(items)
    ensures var k := FindHash(items, Hash(name));
            !Clash(items, name) ==> if k < |items| then items[k].name == name && name in AsMap(items) && AsMap(items)[name] == items[k].value
                                    else name !in AsMap(items)
    ensures var k := FindHash(items, Hash(name));
            Clash(items, name) ==> k < |items| && items[k].name != name && name !in AsMap(items)
  {
    hide Hash, FindHash;
    var k := FindHash(items, Hash(name));
    MapHas(items, name);
    if k < |items| { MapAt(items, k); }
  }

  // ----- each operation, exactly -----

  /** getLocal gives what the map has, cut to the requested length, if and only if no other name on the list has the
    * name's hash; otherwise it answers an absent name with another name's value. */
  lemma GetExact(items: seq<Item>, name: Name, len: nat)
    requires HashDistinct(items)
    ensures var r := GetItem(items, name, len);
            (if name in AsMap(items) then r.Some? && IsCut(r.value, AsMap(items)[name], len) else r.None?) <==> !Clash(items, name)
  {
    hide Hash;
    FindExact(items, name);
  }

  /** add enters the name, and refuses exactly a name that is present, if and only if there is no clash; a clashing name
    * is reported added, and cannot be found. */
  lemma AddExact(items: seq<Item>, name: Name, value: Value)
    requires HashDistinct(items)
    ensures HashDistinct(AddItem(items, name, value))
    ensures !Clash(items, name) <==>
              && (AddKind(items, name).Duplicate? <==> name in AsMap(items))
              && AsMap(AddItem(items, name, value)) == if name in AsMap(items) then AsMap(items) else AsMap(items)[name := value]
    ensures Clash(items, name) <==> AddKind(items, name).Chained?
  {
    hide Hash;
    FindExact(items, name);
    var items' := AddItem(items, name, value);
    if AddKind(items, name).AtHead? {
      assert items'[1..] == items;
      forall i, k | 0 <= i < k < |items'| ensures Hash(items'[i].name) != Hash(items'[k].name) {
        assert items'[k] == items[k - 1];
        if i > 0 { assert items'[i] == items[i - 1]; }
      }
    }
  }

  /** remove takes out exactly the name given, and fails exactly on an absent one, if and only if there is no clash;
    * with a clash it takes out the other name. */
  lemma RemoveExact(items: seq<Item>, name: Name)
    requires HashDistinct(items)
    ensures HashDistinct(RemoveItem(items, name))
    ensures !Clash(items, name) <==>
              && (RemoveItem(items, name) == items <==> name !in AsMap(items))
              && AsMap(RemoveItem(items, name)) == AsMap(items) - {name}
  {
    hide Hash;
    FindExact(items, name);
    var k := FindHash(items, Hash(name));
    if k < |items| {
      MapDrop(items, k);
      DropDistinct(items, k);
      MapAt(items, k);
      assert |items[..k] + items[k + 1..]| == |items| - 1;
      if Clash(items, name) { assert items[k].name in AsMap(items) - {name}; }
    } else {
      assert AsMap(items) - {name} == AsMap(items);
    }
  }

  /** What a clash does: with the first of these names on the list, the second is answered with the first one's value
    * though it was never added, adding it does not enter it, and removing it takes the first one out. */
  lemma ClashExample(value: Value, other: Value, len: nat)
    ensures var items := [Item(LEFT, value)];
            && Clash(items, RIGHT) && RIGHT !in AsMap(items)
            && GetItem(items, RIGHT, len).Some? && IsCut(GetItem(items, RIGHT, len).value, value, len)
            && AddKind(items, RIGHT).Chained? && AddItem(items, RIGHT, other) == items
            && RemoveItem(items, RIGHT) == []
  {
    hide Hash;
    FiveCanCollide();
    var items := [Item(LEFT, value)];
    assert items[0].name == LEFT;
    MapHas(items, RIGHT);
    assert items[..0] + items[1..] == [];
  }

  // ----- whole runs -----

  datatype Op = Add(name: Name, value: Value) | Remove(name: Name) | Get(name: Name, len: nat)

  datatype Answer = Added | Refused | Removed | Missing | Got(value: Value)

  /** The table: the list, and the entry count the C code keeps beside it. */
  datatype Table = Table(items: seq<Item>, count: int)

  function TableStep(t: Table, op: Op): (Table, Answer) {
    match op
    case Add(name, value) =>
      if AddKind(t.items, name).Duplicate? then (t, Refused)
      else (Table(AddItem(t.items, name, value), t.count + 1), Added)
    case Remove(name) =>
      if FindHash(t.items, Hash(name)) == |t.items| then (t, Missing)
      else (Table(RemoveItem(t.items, name), t.count - 1), Removed)
    case Get(name, len) =>
      var r := GetItem(t.items, name, len);
      (t, if r.Some? then Got(r.value) else Missing)
  }

  function MapStep(m: map<Name, Value>, op: Op): (map<Name, Value>, Answer) {
    match op
    case Add(name, value) => if name in m then (m, Refused) else (m[name := value], Added)
    case Remove(name) => if name in m then (m - {name}, Removed) else (m, Missing)
    case Get(name, len) => (m, if name in m then Got(m[name][..if len <= |m[name]| then len else |m[name]|]) else Missing)
  }

  function RunTable(t: Table, ops: seq<Op>): (Table, seq<Answer>)
    decreases |ops|
  {
    if ops == [] then (t, [])
    else
      var (t1, a) := TableStep(t, ops[0]);
      var (t2, rest) := RunTable(t1, ops[1..]);
      (t2, [a] + rest)
  }

  function RunMap(m: map<Name, Value>, ops: seq<Op>): (map<Name, Value>, seq<Answer>)
    decreases |ops|
  {
    if ops == [] then (m, [])
    else
      var (m1, a) := MapStep(m, ops[0]);
      var (m2, rest) := RunMap(m1, ops[1..]);
      (m2, [a] + rest)
  }

  /** The hash tells these names apart. */
  predicate Separated(names: set<Name>) {
    forall a, b :: a in names && b in names && Hash(a) == Hash(b) ==> a == b
  }

  predicate Stands(t: Table, names: set<Name>) {
    && HashDistinct(t.items) && t.count == |t.items|
    && forall k :: 0 <= k < |t.items| ==> t.items[k].name in names
  }

  lemma StepRefines(t: Table, op: Op, names: set<Name>)
    requires Stands(t, names) && Separated(names) && op.name in names
    ensures var (t1, a) := TableStep(t, op); var (m1, b) := MapStep(AsMap(t.items), op);
            Stands(t1, names) && AsMap(t1.items) == m1 && a == b
  {
    hide Hash, IsCut;
    assert !Clash(t.items, op.name);
    FindExact(t.items, op.name);
    match op
    case Add(name, value) => AddExact(t.items, name, value);
    case Remove(name) => RemoveExact(t.items, name);
    case Get(name, len) =>
  }

  /** Over every run whose names the hash tells apart, the table gives the answers of a finite map, ends up holding that
    * map, and counts its entries. */
  lemma {:induction false} TableRefinesMap(t: Table, ops: seq<Op>, names: set<Name>)
    requires Stands(t, names) && Separated(names) && forall op :: op in ops ==> op.name in names
    ensures var (t2, answers) := RunTable(t, ops); var (m2, expected) := RunMap(AsMap(t.items), ops);
            answers == expected && AsMap(t2.items) == m2 && t2.count == |m2| && Stands(t2, names)
    decreases |ops|
  {
    hide Hash, TableStep, MapStep, Separated;
    if ops != [] {
      assert ops[0] in ops;
      StepRefines(t, ops[0], names);
      TableRefinesMap(TableStep(t, ops[0]).0, ops[1..], names);
    } else {
      MapSize(t.items);
    }
  }

  /** Names of one length that differ only within four neighbouring characters are told apart. */
  lemma NearNamesSeparated(p: Name, q: Name, names: set<Name>)
    requires forall a :: a in names ==> |a| == |p| + 4 + |q| && a[..|p|] == p && a[|p| + 4..] == q
    ensures Separated(names)
  {
    hide Hash;
    forall a, b | a in names && b in names && Hash(a) == Hash(b) ensures a == b {
      assert a == p + a[|p|..|p| + 4] + q && b == p + b[|p|..|p| + 4] + q;
      if a != b { NearNamesSeparate(p, a[|p|..|p| + 4], b[|p|..|p| + 4], q); }
    }
  }
}
