// The daemon's message queues as a value: a table of slots that grows, and the
// "MessageQ" name table that has to agree with it, over every run.

module MessageQTable {
  import opened Arithmetic
  import opened Options
  import opened NameHash
  import opened NameTable

  const MAX_UINT16: nat := 0xFFFF

  /** A queue's slot; key is the name it is registered under, if its nsKey is not NULL. */
  datatype Slot = Free | Used(id: nat, key: Option<Name>, owner: int)

  /** The module state: the queues array and the name table's list. */
  datatype Registry = Registry(procId: nat, slots: seq<Slot>, items: seq<Item>)

  // ----- values -----

  /** A UInt32 as the four bytes NameServer_addUInt32 stores. */
  function Bytes(id: nat): Value
    requires id < 0x1_0000_0000
  {
    [(id % 0x100) as byte, (id / 0x100 % 0x100) as byte, (id / 0x1_0000 % 0x100) as byte, (id / 0x100_0000) as byte]
  }

  function Uint32(v: Value): int
    requires |v| == 4
  {
    v[0] as int + 0x100 * v[1] as int + 0x1_0000 * v[2] as int + 0x100_0000 * v[3] as int
  }

  lemma BytesRoundTrip(id: nat)
    requires id < 0x1_0000_0000
    ensures Uint32(Bytes(id)) == id
  {
    assert id / 0x1_0000 == id / 0x100 / 0x100 && id / 0x100_0000 == id / 0x1_0000 / 0x100;
  }

  // ----- the operations -----

  /** The first free slot from i on, or the length. */
  function Hole(slots: seq<Slot>, i: nat): (h: nat)
    requires i <= |slots|
    ensures i <= h <= |slots| && (h < |slots| ==> slots[h].Free?)
    ensures forall k :: i <= k < h ==> slots[k].Used?
    decreases |slots| - i
  {
    if i == |slots| || slots[i].Free? then i else Hole(slots, i + 1)
  }

  function Place(slots: seq<Slot>, i: nat, s: Slot): seq<Slot>
    requires i <= |slots|
  {
    if i < |slots| then slots[i := s] else slots + [s]
  }

  /** MessageQ_create: the lowest free slot from 1 on, or a new last one; a name already present is not entered. */
  function Create(r: Registry, name: Option<Name>): Registry
    requires 1 <= |r.slots| <= MAX_UINT16 && r.procId <= MAX_UINT16
  {
    var i := Hole(r.slots, 1);
    var id := r.procId * 0x1_0000 + i;
    match name
    case None => r.(slots := Place(r.slots, i, Used(id, None, 0)))
    case Some(n) =>
      var key := if AddKind(r.items, n).Duplicate? then None else Some(n);
      Registry(r.procId, Place(r.slots, i, Used(id, key, 0)), AddItem(r.items, n, Bytes(id)))
  }

  /** MessageQ_delete of the queue in slot i. */
  function Delete(r: Registry, i: nat): Registry
    requires i < |r.slots| && r.slots[i].Used?
  {
    r.(slots := r.slots[i := Free],
       items := if r.slots[i].key.Some? then RemoveItem(r.items, r.slots[i].key.value) else r.items)
  }

  /** MessageQ_cleanupOwner, from slot i on; with pid None, MessageQ_destroy's loop over all queues. */
  function Cleanup(r: Registry, pid: Option<int>, i: nat): Registry
    requires i <= |r.slots|
    decreases |r.slots| - i
  {
    if i == |r.slots| then r
    else if r.slots[i].Used? && (pid.None? || r.slots[i].owner == pid.value) then Cleanup(Delete(r, i), pid, i + 1)
    else Cleanup(r, pid, i + 1)
  }

  /** MessageQ_setQueueOwner. */
  function SetOwner(r: Registry, i: nat, pid: int): Registry
    requires i < |r.slots| && r.slots[i].Used?
  {
    r.(slots := r.slots[i := r.slots[i].(owner := pid)])
  }

  // ----- the invariant -----

  /** Slot 0 is never assigned, and each live queue sits at the slot its id names. */
  ghost predicate SlotsOk(r: Registry) {
    && 1 <= |r.slots| <= MAX_UINT16 && r.procId <= MAX_UINT16
    && r.slots[0].Free?
    && forall i :: 0 <= i < |r.slots| && r.slots[i].Used? ==> r.slots[i].id == r.procId * 0x1_0000 + i
  }

  predicate HasKey(s: Slot, n: Name) { s.Used? && s.key == Some(n) }

  /** Each name is the key of at most one queue. */
  ghost predicate KeysDistinct(slots: seq<Slot>) {
    forall i, k, n :: 0 <= i < k < |slots| && HasKey(slots[i], n) ==> !HasKey(slots[k], n)
  }

  /** The name table has the queue's id under this name. */
  ghost predicate Entered(items: seq<Item>, s: Slot, n: Name) {
    s.Used? && n in AsMap(items) && s.id < 0x1_0000_0000 && AsMap(items)[n] == Bytes(s.id)
  }

  /** The name table holds exactly the names and ids of the live queues that have a key. */
  ghost predicate Agrees(r: Registry) {
    && (forall i, n :: 0 <= i < |r.slots| && HasKey(r.slots[i], n) ==> Entered(r.items, r.slots[i], n))
    && (forall n :: n in AsMap(r.items) ==> exists i :: 0 <= i < |r.slots| && HasKey(r.slots[i], n))
  }

  ghost predicate RegistryOk(r: Registry) {
    SlotsOk(r) && HashDistinct(r.items) && KeysDistinct(r.slots) && Agrees(r)
  }

  // ----- each operation keeps it -----

  /** Placing a queue whose key, if any, is new, with its id entered under that key. */
  lemma PlaceKeeps(r: Registry, r': Registry, i: nat, s: Slot)
    requires RegistryOk(r) && 1 <= i <= |r.slots| && (i < |r.slots| ==> r.slots[i].Free?) && |r'.slots| <= MAX_UINT16
    requires s.Used? && s.id == r.procId * 0x1_0000 + i && s.id < 0x1_0000_0000
    requires r'.procId == r.procId && r'.slots == Place(r.slots, i, s) && HashDistinct(r'.items)
    requires s.key.Some? ==> s.key.value !in AsMap(r.items)
    requires AsMap(r'.items) == if s.key.Some? then AsMap(r.items)[s.key.value := Bytes(s.id)] else AsMap(r.items)
    ensures RegistryOk(r')
  {
    hide Hash, AsMap, HashDistinct, Bytes, HasKey;
    assert forall k :: 0 <= k < |r'.slots| && k != i ==> k < |r.slots| && r'.slots[k] == r.slots[k];
    assert r'.slots[i] == s;
    assert SlotsOk(r');
    assert Agrees(r') by { PlaceAgrees(r, r', i, s); }
    assert KeysDistinct(r'.slots) by { PlaceDistinct(r, r', i, s); }
  }

  lemma PlaceDistinct(r: Registry, r': Registry, i: nat, s: Slot)
    requires KeysDistinct(r.slots) && Agrees(r) && i < |r'.slots| && r'.slots[i] == s && s.Used?
    requires forall k :: 0 <= k < |r'.slots| && k != i ==> k < |r.slots| && r'.slots[k] == r.slots[k]
    requires s.key.Some? ==> s.key.value !in AsMap(r.items)
    ensures KeysDistinct(r'.slots)
  {
    hide AsMap, Bytes;
  }

  lemma PlaceAgrees(r: Registry, r': Registry, i: nat, s: Slot)
    requires Agrees(r) && i < |r'.slots| && r'.slots[i] == s && s.Used? && s.id < 0x1_0000_0000
    requires |r.slots| <= |r'.slots| && (i < |r.slots| ==> r.slots[i].Free?)
    requires forall k :: 0 <= k < |r'.slots| && k != i ==> k < |r.slots| && r'.slots[k] == r.slots[k]
    requires s.key.Some? ==> s.key.value !in AsMap(r.items)
    requires AsMap(r'.items) == if s.key.Some? then AsMap(r.items)[s.key.value := Bytes(s.id)] else AsMap(r.items)
    ensures Agrees(r')
  {
    hide AsMap, Bytes;
    forall k, n | 0 <= k < |r'.slots| && HasKey(r'.slots[k], n) ensures Entered(r'.items, r'.slots[k], n) {
      if k != i {
        assert r'.slots[k] == r.slots[k] && HasKey(r.slots[k], n);
        assert Entered(r.items, r.slots[k], n);
      }
    }
    forall n | n in AsMap(r'.items) ensures exists k :: 0 <= k < |r'.slots| && HasKey(r'.slots[k], n) {
      if n in AsMap(r.items) {
        var k :| 0 <= k < |r.slots| && HasKey(r.slots[k], n);
        assert HasKey(r'.slots[k], n);
      } else {
        assert HasKey(r'.slots[i], n);
      }
    }
  }

  lemma CreateKeeps(r: Registry, name: Option<Name>)
    requires RegistryOk(r) && (name.Some? ==> !Clash(r.items, name.value))
    requires Hole(r.slots, 1) < MAX_UINT16
    ensures RegistryOk(Create(r, name))
    ensures var r' := Create(r, name); var i := Hole(r.slots, 1);
            && i != 0 && r'.slots[i].Used? && r'.slots[i].owner == 0
            && (r'.slots[i].key.Some? <==> name.Some? && name.value !in AsMap(r.items))
  {
    hide Hash, AsMap, HashDistinct, Clash, FindHash, Bytes, AddKind, AddItem, RegistryOk;
    assert SlotsOk(r) && HashDistinct(r.items) by { Unfold(r); }
    var r' := Create(r, name);
    var i := Hole(r.slots, 1);
    if name.Some? { AddExact(r.items, name.value, Bytes(r'.slots[i].id)); }
    PlaceKeeps(r, r', i, r'.slots[i]);
  }

  lemma Unfold(r: Registry)
    requires RegistryOk(r)
    ensures SlotsOk(r) && HashDistinct(r.items)
  {
  }

  lemma DeleteKeeps(r: Registry, i: nat)
    requires RegistryOk(r) && i < |r.slots| && r.slots[i].Used?
    ensures RegistryOk(Delete(r, i))
    ensures AsMap(Delete(r, i).items) == AsMap(r.items) - if r.slots[i].key.Some? then {r.slots[i].key.value} else {}
    ensures |Delete(r, i).items| == |r.items| - if r.slots[i].key.Some? then 1 else 0
  {
    hide Hash, AsMap, HashDistinct, Clash, FindHash, Bytes, RemoveItem;
    var r' := Delete(r, i);
    if r.slots[i].key.Some? {
      var n := r.slots[i].key.value;
      assert HasKey(r.slots[i], n);
      PresentDoesNotClash(r.items, n);
      RemoveExact(r.items, n);
      RemoveShortens(r.items, n);
    } else {
      assert AsMap(r.items) - {} == AsMap(r.items);
    }
    forall n | n in AsMap(r'.items) ensures exists k :: 0 <= k < |r'.slots| && HasKey(r'.slots[k], n) {
      var k :| 0 <= k < |r.slots| && HasKey(r.slots[k], n);
      assert k != i && HasKey(r'.slots[k], n);
    }
  }

  /** A name in the table meets no clash. */
  lemma PresentDoesNotClash(items: seq<Item>, n: Name)
    requires HashDistinct(items) && n in AsMap(items)
    ensures !Clash(items, n)
  {
    hide Hash;
    MapHas(items, n);
  }

  lemma RemoveShortens(items: seq<Item>, n: Name)
    requires HashDistinct(items) && n in AsMap(items)
    ensures |RemoveItem(items, n)| == |items| - 1
  {
    hide Hash;
    PresentDoesNotClash(items, n);
    FindExact(items, n);
  }

  lemma SetOwnerKeeps(r: Registry, i: nat, pid: int)
    requires RegistryOk(r) && i < |r.slots| && r.slots[i].Used?
    ensures RegistryOk(SetOwner(r, i, pid))
  {
    hide Hash, AsMap, HashDistinct, Bytes;
    var r' := SetOwner(r, i, pid);
    assert forall k, n :: 0 <= k < |r.slots| ==> (HasKey(r'.slots[k], n) <==> HasKey(r.slots[k], n));
  }

  predicate Doomed(s: Slot, pid: Option<int>) { s.Used? && (pid.None? || s.owner == pid.value) }

  /** cleanupOwner removes exactly that process's queues and their names; destroy removes them all. */
  lemma {:induction false} CleanupExact(r: Registry, pid: Option<int>, i: nat)
    requires RegistryOk(r) && i <= |r.slots|
    ensures var r' := Cleanup(r, pid, i);
            && RegistryOk(r') && |r'.slots| == |r.slots|
            && (forall k :: 0 <= k < |r.slots| ==> r'.slots[k] == if k >= i && Doomed(r.slots[k], pid) then Free else r.slots[k])
            && (forall n :: n in AsMap(r'.items) <==>
                 n in AsMap(r.items) && !exists k :: i <= k < |r.slots| && Doomed(r.slots[k], pid) && HasKey(r.slots[k], n))
    decreases |r.slots| - i
  {
    hide Hash, AsMap, HashDistinct, Bytes, Agrees, KeysDistinct, SlotsOk, RemoveItem;
    if i < |r.slots| {
      if Doomed(r.slots[i], pid) {
        DeleteKeeps(r, i);
        var r1 := Delete(r, i);
        CleanupExact(r1, pid, i + 1);
        var r' := Cleanup(r, pid, i);
        assert r' == Cleanup(r1, pid, i + 1);
        forall n ensures n in AsMap(r'.items) <==>
            n in AsMap(r.items) && !exists k :: i <= k < |r.slots| && Doomed(r.slots[k], pid) && HasKey(r.slots[k], n)
        {
          assert n in AsMap(r1.items) <==> n in AsMap(r.items) && !HasKey(r.slots[i], n);
          assert forall k :: i < k < |r.slots| ==> r1.slots[k] == r.slots[k];
        }
      } else {
        CleanupExact(r, pid, i + 1);
      }
    }
  }

  /** When every queue has been deleted the name table is empty: destroy may delete it. */
  lemma AllDeletedEmptiesTable(r: Registry)
    requires RegistryOk(r) && forall k :: 0 <= k < |r.slots| ==> r.slots[k].Free?
    ensures r.items == []
  {
    hide Hash, HashDistinct, SlotsOk, KeysDistinct;
    if r.items != [] { MapHas(r.items, r.items[0].name); }
  }

  // ----- every run -----

  datatype Op = Make(name: Option<Name>) | Drop(slot: nat) | Own(slot: nat, pid: int) | Depart(pid: int)

  /** The operation is one a client can ask for, within scope: a queue to delete is live, a name's hash tells it apart
    * from the names present, and the table does not outgrow its 16-bit byte size. */
  predicate CanDo(r: Registry, op: Op, handleSize: nat) {
    match op
    case Make(name) =>
      && |r.slots| >= 1
      && (name.Some? ==> !Clash(r.items, name.value))
      && (Hole(r.slots, 1) == |r.slots| ==> |r.slots| * handleSize <= MAX_UINT16 && |r.slots| < MAX_UINT16)
    case Drop(i) => i < |r.slots| && r.slots[i].Used?
    case Own(i, _) => i < |r.slots| && r.slots[i].Used?
    case Depart(_) => true
  }

  ghost function Do(r: Registry, op: Op): Registry
    requires RegistryOk(r) && CanDo(r, op, 1)
  {
    match op
    case Make(name) => Create(r, name)
    case Drop(i) => Delete(r, i)
    case Own(i, pid) => SetOwner(r, i, pid)
    case Depart(pid) => Cleanup(r, Some(pid), 0)
  }

  lemma OpKeeps(r: Registry, op: Op)
    requires RegistryOk(r) && CanDo(r, op, 1)
    ensures RegistryOk(Do(r, op)) && Do(r, op).procId == r.procId
    ensures |r.slots| <= |Do(r, op).slots|
  {
    hide Hash, AsMap, HashDistinct, Bytes, Agrees, KeysDistinct, Clash, FindHash, AddKind, AddItem, RemoveItem;
    match op
    case Make(name) => CreateKeeps(r, name);
    case Drop(i) => DeleteKeeps(r, i);
    case Own(i, pid) => SetOwnerKeeps(r, i, pid);
    case Depart(pid) =>
      CleanupExact(r, Some(pid), 0);
      CleanupProc(r, Some(pid), 0);
  }

  // ----- what each operation does -----

  /** The lowest slot from 1 on that is free, or the first one past the end. */
  predicate IsHole(slots: seq<Slot>, i: nat) {
    1 <= i <= |slots| && (i < |slots| ==> slots[i].Free?) && forall k :: 1 <= k < i ==> slots[k].Used?
  }

  /** A creation puts one new queue, without owner, into the lowest free slot, registered under its name if the name is new;
    * every other queue and every other name stays as it is. */
  lemma CreateDoes(r: Registry, name: Option<Name>, i: nat)
    requires RegistryOk(r) && (name.Some? ==> !Clash(r.items, name.value)) && IsHole(r.slots, i) && i < MAX_UINT16
    ensures var r' := Create(r, name); var id := r.procId * 0x1_0000 + i;
            var unknown := name.Some? && name.value !in AsMap(r.items);
            && |r'.slots| == (if i < |r.slots| then |r.slots| else |r.slots| + 1) && r'.procId == r.procId
            && (forall k :: 0 <= k < |r.slots| && k != i ==> r'.slots[k] == r.slots[k])
            && r'.slots[i] == Used(id, if unknown then name else None, 0)
            && id < 0x1_0000_0000
            && AsMap(r'.items) == if unknown then AsMap(r.items)[name.value := Bytes(id)] else AsMap(r.items)
  {
    hide Hash, AsMap, HashDistinct, Clash, FindHash, Bytes, AddKind, AddItem, RegistryOk;
    assert SlotsOk(r) && HashDistinct(r.items) by { Unfold(r); }
    assert Hole(r.slots, 1) == i;
    if name.Some? { AddExact(r.items, name.value, Bytes(r.procId * 0x1_0000 + i)); }
  }

  /** A deletion takes out one queue and its own name, and nothing else. */
  lemma DeleteDoes(r: Registry, i: nat)
    requires RegistryOk(r) && i < |r.slots| && r.slots[i].Used?
    ensures var r' := Delete(r, i);
            && |r'.slots| == |r.slots| && r'.slots[i] == Free && r'.procId == r.procId
            && (forall k :: 0 <= k < |r.slots| && k != i ==> r'.slots[k] == r.slots[k])
            && AsMap(r'.items) == AsMap(r.items) - if r.slots[i].key.Some? then {r.slots[i].key.value} else {}
  {
    hide Hash, AsMap, HashDistinct, Agrees, KeysDistinct, SlotsOk, RemoveItem;
    DeleteKeeps(r, i);
  }

  /** Setting a queue's owner changes that queue's owner and nothing else. */
  lemma SetOwnerDoes(r: Registry, i: nat, pid: int)
    requires i < |r.slots| && r.slots[i].Used?
    ensures var r' := SetOwner(r, i, pid);
            && r'.procId == r.procId && r'.items == r.items && |r'.slots| == |r.slots|
            && r'.slots[i] == Used(r.slots[i].id, r.slots[i].key, pid)
            && forall k :: 0 <= k < |r.slots| && k != i ==> r'.slots[k] == r.slots[k]
  {
  }

  /** The operation leaves queue i and its owner alone: it neither deletes it, nor gives it an owner, nor is it the departure
    * of its owner pid. */
  predicate Spares(op: Op, i: nat, pid: int) {
    op != Drop(i) && !(op.Own? && op.slot == i) && op != Depart(pid)
  }

  lemma SparedStays(r: Registry, op: Op, i: nat)
    requires RegistryOk(r) && CanDo(r, op, 1) && i < |r.slots| && r.slots[i].Used? && Spares(op, i, r.slots[i].owner)
    ensures RegistryOk(Do(r, op)) && i < |Do(r, op).slots| && Do(r, op).slots[i] == r.slots[i]
  {
    hide Hash, AsMap, HashDistinct, Bytes, Agrees, KeysDistinct, SlotsOk, Clash, FindHash, AddKind, AddItem, RemoveItem;
    OpKeeps(r, op);
    match op
    case Make(name) =>
    case Drop(k) =>
    case Own(k, p) => SetOwnerDoes(r, k, p);
    case Depart(p) => CleanupExact(r, Some(p), 0);
  }

  lemma {:induction false} SparedRun(r: Registry, ops: seq<Op>, handleSize: nat, i: nat)
    requires RegistryOk(r) && 1 <= handleSize && CanRun(r, ops, handleSize) && i < |r.slots| && r.slots[i].Used?
    requires forall op :: op in ops ==> Spares(op, i, r.slots[i].owner)
    ensures i < |Run(r, ops, handleSize).slots| && Run(r, ops, handleSize).slots[i] == r.slots[i]
    decreases |ops|
  {
    hide RegistryOk, Do, Spares, CanDo;
    if ops != [] {
      assert ops[0] in ops;
      Narrower(r, ops[0], handleSize);
      OpKeeps(r, ops[0]);
      SparedStays(r, ops[0], i);
      SparedRun(Do(r, ops[0]), ops[1..], handleSize, i);
    }
  }

  /** A queue given an owner goes with it: after setQueueOwner, and whatever is done then that is not done to this queue,
    * cleanupOwner of that process frees its slot and takes out its name. */
  lemma OwnedQueueGoes(r: Registry, i: nat, pid: int, ops: seq<Op>, handleSize: nat)
    requires RegistryOk(r) && i < |r.slots| && r.slots[i].Used? && 1 <= handleSize
    requires RegistryOk(SetOwner(r, i, pid)) && CanRun(SetOwner(r, i, pid), ops, handleSize)
    requires forall op :: op in ops ==> Spares(op, i, pid)
    ensures var r1 := Run(SetOwner(r, i, pid), ops, handleSize); var r2 := Cleanup(r1, Some(pid), 0);
            && i < |r1.slots| == |r2.slots|
            && r1.slots[i] == Used(r.slots[i].id, r.slots[i].key, pid)
            && r2.slots[i] == Free
            && (r.slots[i].key.Some? ==> r.slots[i].key.value !in AsMap(r2.items))
  {
    hide RegistryOk, CanRun, Run, Spares, AsMap;
    SetOwnerDoes(r, i, pid);
    SparedRun(SetOwner(r, i, pid), ops, handleSize, i);
    var r1 := Run(SetOwner(r, i, pid), ops, handleSize);
    CleanupExact(r1, Some(pid), 0);
    if r.slots[i].key.Some? {
      assert Doomed(r1.slots[i], Some(pid)) && HasKey(r1.slots[i], r.slots[i].key.value);
    }
  }

  lemma {:induction false} CleanupProc(r: Registry, pid: Option<int>, i: nat)
    requires i <= |r.slots|
    ensures Cleanup(r, pid, i).procId == r.procId
    decreases |r.slots| - i
  {
    hide RemoveItem;
    if i < |r.slots| {
      if Doomed(r.slots[i], pid) { CleanupProc(Delete(r, i), pid, i + 1); } else { CleanupProc(r, pid, i + 1); }
    }
  }

  ghost predicate CanRun(r: Registry, ops: seq<Op>, handleSize: nat)
    requires RegistryOk(r) && 1 <= handleSize
    decreases |ops|
  {
    ops == [] || (CanDo(r, ops[0], handleSize) && (Narrower(r, ops[0], handleSize); OpKeeps(r, ops[0]); CanRun(Do(r, ops[0]), ops[1..], handleSize)))
  }

  lemma Narrower(r: Registry, op: Op, handleSize: nat)
    requires 1 <= handleSize && CanDo(r, op, handleSize)
    ensures CanDo(r, op, 1)
  {
    if op.Make? && Hole(r.slots, 1) == |r.slots| {
      assert |r.slots| * 1 <= |r.slots| * handleSize;
    }
  }

  ghost function Run(r: Registry, ops: seq<Op>, handleSize: nat): (r': Registry)
    requires RegistryOk(r) && 1 <= handleSize && CanRun(r, ops, handleSize)
    ensures RegistryOk(r')
    decreases |ops|
  {
    if ops == [] then r
    else
      Narrower(r, ops[0], handleSize);
      OpKeeps(r, ops[0]);
      Run(Do(r, ops[0]), ops[1..], handleSize)
  }

  /** MessageQ_setup with at least one slot. */
  function Setup(procId: nat, maxRuntimeEntries: nat): Registry {
    Registry(procId, seq(maxRuntimeEntries, _ => Free), [])
  }

  lemma SetupOk(procId: nat, maxRuntimeEntries: nat)
    requires procId <= MAX_UINT16 && 1 <= maxRuntimeEntries <= MAX_UINT16
    ensures RegistryOk(Setup(procId, maxRuntimeEntries))
  {
    hide Hash;
  }

  /** Over every run of create, delete, set-owner and cleanup-owner: a name is in the table with an id exactly if a live
    * queue has that name as its key and that id; ids name their slots, so they are unique; and a destroy at the end
    * leaves the name table empty. */
  lemma RegistryTheorem(procId: nat, maxRuntimeEntries: nat, ops: seq<Op>, handleSize: nat)
    requires procId <= MAX_UINT16 && 1 <= maxRuntimeEntries <= MAX_UINT16 && 1 <= handleSize
    requires RegistryOk(Setup(procId, maxRuntimeEntries)) && CanRun(Setup(procId, maxRuntimeEntries), ops, handleSize)
    ensures var r := Run(Setup(procId, maxRuntimeEntries), ops, handleSize);
            && (forall n, id: nat | id < 0x1_0000_0000 ::
                 n in AsMap(r.items) && AsMap(r.items)[n] == Bytes(id) <==>
                 exists i :: 0 <= i < |r.slots| && HasKey(r.slots[i], n) && r.slots[i].id == id)
            && (forall i, k :: 0 <= i < k < |r.slots| && r.slots[i].Used? && r.slots[k].Used? ==> r.slots[i].id != r.slots[k].id)
            && (forall i :: 0 <= i < |r.slots| && r.slots[i].Used? ==> i != 0 && r.slots[i].id % 0x1_0000 == i)
            && Cleanup(r, None, 0).items == []
  {
    hide Hash, AsMap, HashDistinct, Bytes, KeysDistinct, Clash, CanRun, Run;
    var r := Run(Setup(procId, maxRuntimeEntries), ops, handleSize);
    forall n, id: nat | id < 0x1_0000_0000
      ensures n in AsMap(r.items) && AsMap(r.items)[n] == Bytes(id) <==>
              exists i :: 0 <= i < |r.slots| && HasKey(r.slots[i], n) && r.slots[i].id == id
    {
      if n in AsMap(r.items) && AsMap(r.items)[n] == Bytes(id) {
        var i :| 0 <= i < |r.slots| && HasKey(r.slots[i], n);
        BytesRoundTrip(id);
        BytesRoundTrip(r.slots[i].id);
        assert HasKey(r.slots[i], n) && r.slots[i].id == id;
      }
    }
    CleanupExact(r, None, 0);
    AllDeletedEmptiesTable(Cleanup(r, None, 0));
  }

  // ----- growth -----

  /** How many whole handles _MessageQ_grow copies: the old table's byte size is kept in a UInt16. */
  function Copied(numQueues: nat, handleSize: nat): (n: nat)
    requires 1 <= handleSize
    ensures n <= numQueues
  {
    CopiedAtMost(numQueues, handleSize);
    (numQueues * handleSize) % 0x1_0000 / handleSize
  }

  lemma CopiedAtMost(numQueues: nat, handleSize: nat)
    requires 1 <= handleSize
    ensures (numQueues * handleSize) % 0x1_0000 / handleSize <= numQueues
    ensures (numQueues * handleSize) % 0x1_0000 / handleSize == numQueues <==> numQueues * handleSize <= MAX_UINT16
  {
    var bytes := numQueues * handleSize;
    var m := bytes % 0x1_0000;
    var n := m / handleSize;
    MulDiv(numQueues, handleSize);
    assert m == n * handleSize + m % handleSize;
    if n > numQueues { Less(numQueues, n, handleSize); }
    if bytes <= MAX_UINT16 { assert m == bytes; }
  }

  /** The table _MessageQ_grow leaves: as many slots as were copied and one more, and x at the old table's length if there
    * is such a slot; otherwise x is written past the end. */
  function Grown<T>(table: seq<T>, none: T, x: T, handleSize: nat): seq<T>
    requires 1 <= handleSize
  {
    var bigger := table[..Copied(|table|, handleSize)] + [none];
    if |table| < |bigger| then bigger[|table| := x] else bigger
  }

  /** Growth keeps every entry and adds the new one if and only if the old table's byte size fits 16 bits; otherwise there is
    * no slot for the new entry. */
  lemma GrownExact<T>(table: seq<T>, none: T, x: T, handleSize: nat)
    requires 1 <= handleSize
    ensures Grown(table, none, x, handleSize) == table + [x] <==> |table| * handleSize <= MAX_UINT16
    ensures |table| * handleSize > MAX_UINT16 ==> |Grown(table, none, x, handleSize)| <= |table|
  {
    CopiedAtMost(|table|, handleSize);
    if |table| * handleSize <= MAX_UINT16 {
      assert table[..|table|] == table;
      assert (table + [none])[|table| := x] == table + [x];
    }
  }

  /** With 16384 handles of 4 bytes the byte size is 0 in 16 bits: nothing is copied, and the new queue has no slot. */
  lemma GrowthLosesAll<T>(table: seq<T>, none: T, x: T)
    requires |table| == 16384
    ensures Grown(table, none, x, 4) == [none]
  {
    assert Copied(|table|, 4) == 0;
    assert table[..0] == [];
  }

  /** MessageQ_create, whatever the table's size. */
  function CreateAny(r: Registry, name: Option<Name>, handleSize: nat): Registry
    requires 1 <= |r.slots| <= MAX_UINT16 && r.procId <= MAX_UINT16 && 1 <= handleSize
  {
    var i := Hole(r.slots, 1);
    var made := Create(r, name);
    if i < |r.slots| then made else made.(slots := Grown(r.slots, Free, made.slots[i], handleSize))
  }

  /** It is the creation in a hole or a new last slot if and only if there is a hole or the growth fits. */
  lemma CreateAnyExact(r: Registry, name: Option<Name>, handleSize: nat)
    requires 1 <= |r.slots| <= MAX_UINT16 && r.procId <= MAX_UINT16 && 1 <= handleSize
    ensures CreateAny(r, name, handleSize) == Create(r, name)
            <==> Hole(r.slots, 1) < |r.slots| || |r.slots| * handleSize <= MAX_UINT16
  {
    hide Hash, AddKind, AddItem, Bytes;
    var i := Hole(r.slots, 1);
    if i == |r.slots| { GrownExact(r.slots, Free, Create(r, name).slots[i], handleSize); }
  }

  /** A creation keeps slots and names in agreement if and only if no other name present has the new name's hash. */
  lemma CreateExact(r: Registry, name: Option<Name>)
    requires RegistryOk(r) && Hole(r.slots, 1) < MAX_UINT16
    ensures RegistryOk(Create(r, name)) <==> (name.Some? ==> !Clash(r.items, name.value))
  {
    hide Hash, AsMap, HashDistinct, FindHash, Bytes, Clash;
    assert SlotsOk(r) && HashDistinct(r.items);
    if name.Some? && Clash(r.items, name.value) {
      var n := name.value;
      var r' := Create(r, name);
      AddExact(r.items, n, Bytes(r.procId * 0x1_0000 + Hole(r.slots, 1)));
      FindExact(r.items, n);
      assert HasKey(r'.slots[Hole(r.slots, 1)], n) && n !in AsMap(r'.items);
    } else {
      CreateKeeps(r, name);
    }
  }
}
