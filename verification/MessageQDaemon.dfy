// The daemon's message queues as the C code keeps them: an array of pointers
// to queue objects, whose nsKey points into the name table. Each method does
// to them what the registry's operation does to its value.

module MessageQDaemon {
  import opened Options
  import opened NameHash
  import opened NameTable
  import opened NameServer
  import opened MessageQTable

  const RESERVED_MSGQ_INDEX: nat := 1

  class Queue {
    var queue: nat            // (procId << 16) | slot
    var nsKey: Entry?
    var ownerPid: int

    constructor ()
      ensures queue == 0 && nsKey == null && ownerPid == 0
    {
      queue := 0;
      nsKey := null;
      ownerPid := 0;
    }
  }

  ghost function SlotOf(q: Queue?): Slot
    reads q
  {
    if q == null then Free else Used(q.queue, if q.nsKey == null then None else Some(q.nsKey.name), q.ownerPid)
  }

  ghost function SlotsOf(qs: seq<Queue?>): (slots: seq<Slot>)
    reads qs
    ensures |slots| == |qs| && forall i :: 0 <= i < |qs| ==> slots[i] == SlotOf(qs[i])
  {
    seq(|qs|, i requires 0 <= i < |qs| reads qs => SlotOf(qs[i]))
  }

  class Module {
    const procId: nat
    const handleSize: nat         // sizeof (MessageQ_Handle)
    const nameServer: Instance
    var queues: array<Queue?>     // numQueues is its length
    var refCount: int

    ghost function View(): Registry
      reads this, queues, queues[..], nameServer
    {
      Registry(procId, SlotsOf(queues[..]), nameServer.Items())
    }

    /** The keys point at nodes of the list, and the module's values are those of the registry. */
    ghost predicate Valid()
      reads this, queues, queues[..], nameServer
    {
      && nameServer.Valid() && nameServer.count == |nameServer.nameList|
      && (forall i :: 0 <= i < queues.Length && queues[i] != null && queues[i].nsKey != null ==>
           queues[i].nsKey in nameServer.nameList)
      && (forall i, k :: 0 <= i < k < queues.Length && queues[i] != null ==> queues[i] != queues[k])
      && RegistryOk(View())
    }

    /** MessageQ_setup, the first time. */
    constructor (procId: nat, handleSize: nat, maxRuntimeEntries: nat)
      requires procId <= MAX_UINT16 && 1 <= maxRuntimeEntries <= MAX_UINT16
      ensures Valid() && fresh(nameServer) && fresh(queues) && refCount == 1
      ensures View() == Setup(procId, maxRuntimeEntries) && this.handleSize == handleSize
    {
      hide Hash, Bytes, AsMap;
      this.procId := procId;
      this.handleSize := handleSize;
      nameServer := new Instance();
      queues := new Queue?[maxRuntimeEntries](_ => null);
      refCount := 1;
      new;
      SetupOk(procId, maxRuntimeEntries);
      assert View() == Setup(procId, maxRuntimeEntries);
    }

    /** MessageQ_create's search for a hole. */
    method FindHole() returns (i: nat)
      requires 1 <= queues.Length
      ensures i == Hole(SlotsOf(queues[..]), 1)
    {
      ghost var slots := SlotsOf(queues[..]);
      i := RESERVED_MSGQ_INDEX;
      while i < queues.Length && queues[i] != null
        invariant 1 <= i <= queues.Length
        invariant Hole(slots, 1) == Hole(slots, i)
      {
        assert slots[i].Used?;
        i := i + 1;
      }
      assert i == queues.Length || slots[i].Free?;
    }

    /** _MessageQ_grow: the table is copied, and one slot added. The byte size of the old table is kept in a UInt16; when it
      * does not fit, the new table is too short and the new entry is written past its end. */
    method Grow(obj: Queue) returns (queueIndex: nat)
      requires 1 <= handleSize
      modifies this`queues
      ensures queueIndex == old(queues.Length) && fresh(queues)
      ensures queues[..] == Grown(old(queues[..]), null, obj, handleSize)
    {
      queueIndex := queues.Length;
      var oldSize := (queueIndex * handleSize) % 0x1_0000;
      var oldQueues := queues;
      var n := Copied(queueIndex, handleSize);
      assert n == oldSize / handleSize;
      var bigger := new Queue?[oldSize / handleSize + 1](_ => null);
      var i := 0;
      while i < oldSize / handleSize
        invariant 0 <= i <= n && queues == oldQueues && bigger.Length == n + 1 && bigger[n] == null
        invariant forall k :: 0 <= k < i ==> bigger[k] == oldQueues[k]
      {
        bigger[i] := oldQueues[i];
        i := i + 1;
      }
      assert bigger[..] == oldQueues[..n] + [null];
      assert oldQueues[..n] == oldQueues[..][..n];
      if queueIndex < bigger.Length { bigger[queueIndex] := obj; }
      queues := bigger;
    }

    /** MessageQ_create up to the name: a new object in the lowest hole, or in a new last slot. */
    method PlaceNew() returns (obj: Queue, queueIndex: nat)
      requires 1 <= queues.Length && 1 <= handleSize
      modifies this`queues, queues
      ensures queueIndex == old(Hole(SlotsOf(queues[..]), 1)) && fresh(obj)
      ensures queues == old(queues) || fresh(queues)
      ensures queues[..] == if queueIndex < old(queues.Length) then old(queues[..])[queueIndex := obj]
                            else Grown(old(queues[..]), null, obj, handleSize)
      ensures obj.queue == procId * 0x1_0000 + queueIndex && obj.ownerPid == 0 && obj.nsKey == null
    {
      hide Grown;
      obj := new Queue();
      queueIndex := FindHole();
      if queueIndex < queues.Length {
        queues[queueIndex] := obj;
      } else {
        queueIndex := Grow(obj);
      }
      obj.queue := procId * 0x1_0000 + queueIndex;
      obj.ownerPid := 0;
    }

    /** MessageQ_create. The result is a module in order as long as no other name has the name's hash and growth, if there
      * has to be any, fits. */
    method Create(name: Option<Name>) returns (obj: Queue)
      requires Valid() && 1 <= handleSize
      modifies this`queues, queues, nameServer, nameServer.nameList
      ensures fresh(obj) && View() == CreateAny(old(View()), name, handleSize)
      ensures CanDo(old(View()), Make(name), handleSize) ==>
                Valid() && View() == MessageQTable.Create(old(View()), name) && queues[Hole(old(View()).slots, 1)] == obj
    {
      hide Hash, HashDistinct, AsMap, FindHash, Bytes, Clash, AddKind, AddItem, RegistryOk, Hole, SlotsOf, ItemsOf, Grown, CreateAny;
      hide MessageQTable.Create, Instance.Valid;
      ghost var r, before := View(), queues[..];
      assert SlotsOk(r) && HashDistinct(r.items) by { Unfold(r); }
      var i: nat;
      obj, i := PlaceNew();
      ghost var after := queues[..];
      if name.Some? { Register(obj, name.value, r); }
      assert queues[..] == after;
      assert forall k :: 0 <= k < |before| ==> SlotOf(before[k]) == r.slots[k];
      CreatedView(r, before, after, i, obj, handleSize);
      CreatedRegistry(r, name, View(), SlotOf(obj), handleSize);
      if CanDo(r, Make(name), handleSize) {
        CreateKeeps(r, name);
        CreateAnyExact(r, name, handleSize);
        CreatedAfter(before, after, i, obj, handleSize);
        CreatedValid(this, before, after, i, obj);
      }
    }

    /** The registration at the end of MessageQ_create. */
    method Register(obj: Queue, name: Name, ghost r: Registry)
      requires nameServer.Valid() && nameServer.count == |nameServer.nameList| && r.items == nameServer.Items()
      requires obj.queue < 0x1_0000_0000
      modifies obj`nsKey, nameServer, nameServer.nameList
      ensures nameServer.Valid() && (!Clash(r.items, name) ==> nameServer.count == |nameServer.nameList|)
      ensures nameServer.Items() == AddItem(r.items, name, Bytes(obj.queue))
      ensures obj.nsKey == null <==> AddKind(r.items, name).Duplicate?
      ensures obj.nsKey != null ==> obj.nsKey.name == name && (!Clash(r.items, name) ==> obj.nsKey in nameServer.nameList)
      ensures forall e :: e in old(nameServer.nameList) ==> e in nameServer.nameList
    {
      hide Hash, HashDistinct, AsMap, FindHash, Bytes, AddItem, Clash;
      assert HashDistinct(r.items);
      AddExact(r.items, name, Bytes(obj.queue));
      obj.nsKey := nameServer.Add(name, Bytes(obj.queue));
    }

    /** MessageQ_setQueueOwner. */
    method SetQueueOwner(obj: Queue, pid: int)
      requires Valid() && obj in queues[..]
      modifies obj
      ensures Valid()
      ensures obj.ownerPid == pid && obj.queue == old(obj.queue) && obj.nsKey == old(obj.nsKey)
      ensures exists i :: 0 <= i < queues.Length && queues[i] == obj && View() == SetOwner(old(View()), i, pid)
    {
      hide Hash, HashDistinct, AsMap, FindHash, Bytes, RegistryOk;
      ghost var r := View();
      ghost var i :| 0 <= i < queues.Length && queues[i] == obj;
      SetOwnerKeeps(r, i, pid);
      obj.ownerPid := pid;
      assert View().slots == SetOwner(r, i, pid).slots;
    }

    /** The removal of the name in MessageQ_delete. */
    method Unregister(obj: Queue, ghost r: Registry, ghost i: nat)
      requires nameServer.Valid() && nameServer.count == |nameServer.nameList| && r.items == nameServer.Items()
      requires RegistryOk(r) && i < |r.slots| && r.slots[i] == SlotOf(obj)
      requires obj.nsKey != null ==> obj.nsKey in nameServer.nameList
      modifies nameServer
      ensures nameServer.Valid() && nameServer.count == |nameServer.nameList|
      ensures nameServer.Items() == MessageQTable.Delete(r, i).items
      ensures forall e :: e in old(nameServer.nameList) && e != obj.nsKey ==> e in nameServer.nameList
    {
      hide Hash, HashDistinct, AsMap, FindHash, Bytes, RegistryOk;
      if obj.nsKey != null {
        KeyFound(r, i, obj.nsKey);
        nameServer.RemoveEntry(obj.nsKey);
      }
    }

    /** MessageQ_delete, of a live queue. */
    method Delete(obj: Queue)
      requires Valid() && obj in queues[..]
      modifies queues, nameServer
      ensures Valid() && queues == old(queues)
      ensures var i := obj.queue % 0x1_0000;
              && i < queues.Length && old(queues[i]) == obj
              && queues[..] == old(queues[..])[i := null]
              && View() == MessageQTable.Delete(old(View()), i)
    {
      hide Hash, HashDistinct, AsMap, FindHash, Bytes, RegistryOk, SlotsOf, ItemsOf, Instance.Valid;
      ghost var r, before, listed := View(), queues[..], nameServer.nameList;
      ghost var i :| 0 <= i < queues.Length && queues[i] == obj;
      assert SlotOf(before[i]) == r.slots[i];
      SlotNamed(r, i);
      assert obj.queue % 0x1_0000 == i;
      DeleteKeeps(r, i);
      OwnKeys(this, before, i);
      Unregister(obj, r, i);
      queues[obj.queue % 0x1_0000] := null;
      assert queues[..] == before[i := null];
      assert forall k :: 0 <= k < |before| ==> SlotOf(before[k]) == r.slots[k];
      DeletedView(r, before, i);
      DeletedValid(this, before, queues[..], i);
    }

    /** MessageQ_cleanupOwner. */
    method CleanupOwner(pid: int)
      requires Valid()
      modifies queues, nameServer
      ensures Valid() && queues == old(queues)
      ensures View() == Cleanup(old(View()), Some(pid), 0)
    {
      hide Hash, HashDistinct, AsMap, FindHash, Bytes, RegistryOk, MessageQTable.Delete, ItemsOf, Instance.Valid;
      var i := 0;
      while i < queues.Length
        invariant 0 <= i <= queues.Length && queues == old(queues)
        invariant Valid() && Cleanup(old(View()), Some(pid), 0) == Cleanup(View(), Some(pid), i)
      {
        var queue := queues[i];
        assert SlotOf(queue) == View().slots[i];
        if queue != null && queue.ownerPid == pid {
          SlotNamed(View(), i);
          Delete(queue);
        }
        i := i + 1;
      }
    }

    /** The loop over all queues in MessageQ_destroy. */
    method DeleteAll()
      requires Valid()
      modifies queues, nameServer
      ensures Valid() && queues == old(queues)
      ensures View() == Cleanup(old(View()), None, 0)
    {
      hide Hash, HashDistinct, AsMap, FindHash, Bytes, RegistryOk, MessageQTable.Delete, ItemsOf, Instance.Valid;
      ghost var r := View();
      var i := 0;
      while i < queues.Length
        invariant 0 <= i <= queues.Length && queues == old(queues)
        invariant Valid() && Cleanup(r, None, 0) == Cleanup(View(), None, i)
      {
        var queue := queues[i];
        assert SlotOf(queue) == View().slots[i];
        if queue != null {
          SlotNamed(View(), i);
          Delete(queue);
        }
        i := i + 1;
      }
    }

    /** MessageQ_destroy: the name table is deleted only once it is empty. */
    method Destroy() returns (last: bool)
      requires Valid()
      modifies this, queues, nameServer
      ensures refCount == old(refCount) - 1 && last == (refCount <= 0)
      ensures !last ==> Valid() && View() == old(View())
      ensures last ==> nameServer.count == 0 && nameServer.nameList == [] && queues.Length == 0
    {
      hide Hash, HashDistinct, AsMap, FindHash, Bytes, RegistryOk, MessageQTable.Delete, ItemsOf, Instance.Valid;
      refCount := refCount - 1;
      if refCount > 0 { return false; }
      last := true;
      ghost var r := View();
      DeleteAll();
      CleanupExact(r, None, 0);
      AllDeletedEmptiesTable(View());
      // NameServer_delete asserts that the count is zero here
      assert nameServer.count == 0;
      queues := new Queue?[0];
    }
  }

  /** No other queue has this queue's key. */
  lemma OwnKeys(m: Module, before: seq<Queue?>, i: nat)
    requires m.Valid() && before == m.queues[..] && i < |before| && before[i] != null
    ensures KeysListed(before, i, m.nameServer.nameList, before[i].nsKey)
  {
    hide Hash, HashDistinct, AsMap, FindHash, Bytes, RegistryOk, SlotsOf, ItemsOf, Instance.Valid;
    var r := m.View();
    assert SlotOf(before[i]) == r.slots[i];
    OtherKeys(r, i);
    forall k | 0 <= k < |before| && k != i && before[k] != null && before[k].nsKey != null
      ensures before[k].nsKey in m.nameServer.nameList && before[k].nsKey != before[i].nsKey
    {
      assert before[k] == m.queues[k] && SlotOf(before[k]) == r.slots[k];
    }
  }

  /** All queues but that at place i have their keys on the list, other than e. */
  ghost predicate KeysListed(qs: seq<Queue?>, i: nat, list: seq<Entry>, e: Entry?)
    reads qs
  {
    forall k {:trigger qs[k]} :: 0 <= k < |qs| && k != i && qs[k] != null && qs[k].nsKey != null ==> qs[k].nsKey in list && qs[k].nsKey != e
  }

  /** The slots after a deletion. */
  lemma DeletedView(r: Registry, before: seq<Queue?>, i: nat)
    requires |r.slots| == |before| && i < |before| && forall k :: 0 <= k < |before| ==> SlotOf(before[k]) == r.slots[k]
    ensures SlotsOf(before[i := null]) == r.slots[i := Free]
  {
  }

  /** Without the queue at place i, and with the other keys still on the list, the pointers are in order. */
  lemma DeletedValid(m: Module, before: seq<Queue?>, after: seq<Queue?>, i: nat)
    requires m.nameServer.Valid() && m.nameServer.count == |m.nameServer.nameList| && RegistryOk(m.View())
    requires after == m.queues[..] && i < |before| && after == before[i := null]
    requires KeysListed(before, i, m.nameServer.nameList, null)
    requires forall j, k {:trigger before[j], before[k]} :: 0 <= j < k < |before| && before[j] != null ==> before[j] != before[k]
    ensures m.Valid()
  {
    hide RegistryOk, Instance.Valid, SlotsOf, ItemsOf;
    var n := m.queues.Length;
    forall j, k | 0 <= j < k < n && m.queues[j] != null ensures m.queues[j] != m.queues[k] {
      assert after[j] == m.queues[j] && after[k] == m.queues[k];
      assert j != i && after[j] == before[j];
      assert k != i ==> after[k] == before[k];
    }
    forall j | 0 <= j < n && m.queues[j] != null && m.queues[j].nsKey != null ensures m.queues[j].nsKey in m.nameServer.nameList {
      assert after[j] == m.queues[j] && after[j] == before[j];
    }
  }

  lemma SlotNamed(r: Registry, i: nat)
    requires RegistryOk(r) && i < |r.slots| && r.slots[i].Used?
    ensures r.slots[i].id % 0x1_0000 == i
  {
    hide Hash, HashDistinct, AsMap, Agrees, KeysDistinct;
  }

  /** The node a queue's key points at is the one its name's hash finds. */
  lemma KeyFound(r: Registry, i: nat, e: Entry)
    requires RegistryOk(r) && i < |r.slots| && HasKey(r.slots[i], e.name)
    ensures forall k :: 0 <= k < |r.items| && r.items[k].name == e.name ==> FindHash(r.items, Hash(e.name)) == k
  {
    hide Hash, AsMap, Bytes;
  }

  /** No other queue has this queue's key. */
  lemma OtherKeys(r: Registry, i: nat)
    requires RegistryOk(r) && i < |r.slots| && r.slots[i].Used?
    ensures forall k :: 0 <= k < |r.slots| && k != i && r.slots[k].Used? && r.slots[k].key.Some? ==> r.slots[k].key != r.slots[i].key
  {
    hide Hash, HashDistinct, AsMap, Agrees, SlotsOk;
    forall k | 0 <= k < |r.slots| && k != i && r.slots[k].Used? && r.slots[k].key.Some? ensures r.slots[k].key != r.slots[i].key {
      var n := r.slots[k].key.value;
      assert HasKey(r.slots[k], n);
      assert HasKey(r.slots[i], n) <==> r.slots[i].key == Some(n);
    }
  }

  /** A new queue at place i, with its key on the list, keeps the pointers in order. */
  lemma CreatedValid(m: Module, before: seq<Queue?>, after: seq<Queue?>, i: nat, obj: Queue)
    requires m.nameServer.Valid() && m.nameServer.count == |m.nameServer.nameList| && RegistryOk(m.View())
    requires after == m.queues[..] && Placed(before, after, i, obj) && obj !in before
    requires forall k {:trigger before[k]} :: 0 <= k < |before| && before[k] != null && before[k].nsKey != null ==> before[k].nsKey in m.nameServer.nameList
    requires obj.nsKey != null ==> obj.nsKey in m.nameServer.nameList
    requires forall j, k {:trigger before[j], before[k]} :: 0 <= j < k < |before| && before[j] != null ==> before[j] != before[k]
    ensures m.Valid()
  {
    hide RegistryOk, Instance.Valid, SlotsOf, ItemsOf;
    var n := m.queues.Length;
    forall j, k | 0 <= j < k < n && m.queues[j] != null ensures m.queues[j] != m.queues[k] {
      assert after[j] == m.queues[j] && after[k] == m.queues[k];
    }
    forall j | 0 <= j < n && m.queues[j] != null && m.queues[j].nsKey != null ensures m.queues[j].nsKey in m.nameServer.nameList {
      assert after[j] == m.queues[j];
    }
  }

  /** The new array has the new object at place i, and else what was there. */
  ghost predicate Placed(before: seq<Queue?>, after: seq<Queue?>, i: nat, obj: Queue) {
    && i < |after| && after[i] == obj
    && forall k {:trigger after[k]} :: 0 <= k < |after| && k != i ==> k < |before| && after[k] == before[k]
  }

  /** The slots after a creation. */
  lemma CreatedView(r: Registry, before: seq<Queue?>, after: seq<Queue?>, i: nat, obj: Queue, handleSize: nat)
    requires |r.slots| == |before| && i <= |before| && 1 <= handleSize
    requires forall k :: 0 <= k < |before| ==> SlotOf(before[k]) == r.slots[k]
    requires after == if i < |before| then before[i := obj] else Grown(before, null, obj, handleSize)
    ensures SlotsOf(after) == if i < |before| then r.slots[i := SlotOf(obj)] else Grown(r.slots, Free, SlotOf(obj), handleSize)
  {
  }

  /** The array after a creation that fits. */
  lemma CreatedAfter(before: seq<Queue?>, after: seq<Queue?>, i: nat, obj: Queue, handleSize: nat)
    requires i <= |before| && 1 <= handleSize
    requires after == if i < |before| then before[i := obj] else Grown(before, null, obj, handleSize)
    requires i < |before| || |before| * handleSize <= MAX_UINT16
    ensures Placed(before, after, i, obj)
  {
    if i == |before| { GrownExact<Queue?>(before, null, obj, handleSize); }
  }

  /** A placed and registered queue makes the registry's creation. */
  lemma CreatedRegistry(r: Registry, name: Option<Name>, r': Registry, s: Slot, handleSize: nat)
    requires 1 <= |r.slots| <= MAX_UINT16 && r.procId <= MAX_UINT16 && r'.procId == r.procId && 1 <= handleSize
    requires s.Used? && s.id == r.procId * 0x1_0000 + Hole(r.slots, 1) && s.owner == 0
    requires r'.slots == if Hole(r.slots, 1) < |r.slots| then r.slots[Hole(r.slots, 1) := s] else Grown(r.slots, Free, s, handleSize)
    requires name.None? ==> s.key.None? && r'.items == r.items
    requires name.Some? ==> r'.items == AddItem(r.items, name.value, Bytes(s.id))
                            && s.key == if AddKind(r.items, name.value).Duplicate? then None else Some(name.value)
    ensures r' == CreateAny(r, name, handleSize)
  {
    hide Hash, AsMap, FindHash, Bytes, AddKind, AddItem, Hole, Grown;
  }
}
