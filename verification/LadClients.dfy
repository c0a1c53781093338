// The LAD daemon's table of connected clients.

module LadSlots {
  import opened Options

  const MAXNUMCLIENTS: nat := 32

  /** One entry of clientConnected, clientPID, clientFIFOName and responseFIFOFilePtr. A response FIFO is named after the
    * process id its client put in the name, and a pipe is what mkfifo made under a name: the number of its making. The
    * daemon's file of a slot is open exactly while the slot is connected. */
  datatype Slot = Slot(connected: bool, pid: nat, name: nat, pipe: nat)

  const SUCCESS: int := 0
  const INVALIDARG: int := 2
  const ACCESSDENIED: int := 3
  const IOFAILURE: int := 4
  const NOTCONNECTED: int := 5
  const INVALIDVERSION: int := 6

  /** What the daemon does: wait for a command, open the response FIFO it has just made for a client, or close and remove
    * that of a client it has just refused. */
  datatype Daemon =
    | Ready
    | Opening(name: nat, pid: nat, pipe: nat, slot: Option<nat>, status: int)
    | Refusing(name: nat, pipe: nat)

  /** The slot is connected under this name. */
  predicate Under(slots: seq<Slot>, k: nat, name: nat) {
    k < |slots| && slots[k].connected && slots[k].name == name
  }

  predicate NameFree(slots: seq<Slot>, name: nat) {
    forall k :: 0 <= k < |slots| ==> !(slots[k].connected && slots[k].name == name)
  }

  /** Slot k is the lowest open one. */
  predicate IsLowestOpen(slots: seq<Slot>, k: nat) {
    k < |slots| && !slots[k].connected && forall j :: 0 <= j < k ==> slots[j].connected
  }

  function LowestOpen(slots: seq<Slot>, from: nat): (r: Option<nat>)
    requires from <= |slots|
    ensures r.Some? ==> from <= r.value < |slots| && !slots[r.value].connected && forall j :: from <= j < r.value ==> slots[j].connected
    ensures r.None? <==> forall j :: from <= j < |slots| ==> slots[j].connected
    decreases |slots| - from
  {
    if from == |slots| then None else if !slots[from].connected then Some(from) else LowestOpen(slots, from + 1)
  }

  function Off(slots: seq<Slot>, k: nat): (r: seq<Slot>)
    requires k < |slots|
    ensures |r| == |slots|
  {
    slots[k := slots[k].(connected := false)]
  }

  /** The slot a connect request gets, and the status it will be told. */
  function Grant(slots: seq<Slot>, version: bool): (r: (Option<nat>, int)) {
    if !version then (None, INVALIDVERSION)
    else match LowestOpen(slots, 0) case Some(k) => (Some(k), SUCCESS) case None => (None, ACCESSDENIED)
  }

  /** The granted slot takes the client's FIFO name at once; it is not connected yet. */
  function Named(slots: seq<Slot>, version: bool, name: nat): (r: seq<Slot>)
    ensures |r| == |slots|
    ensures forall k :: 0 <= k < |slots| && slots[k].connected ==> r[k] == slots[k]
    ensures forall k :: 0 <= k < |slots| ==> r[k].connected == slots[k].connected
    ensures forall k :: Grant(slots, version).0 == Some(k) ==> r[k].name == name
  {
    match Grant(slots, version).0 case Some(k) => slots[k := slots[k].(name := name)] case None => slots
  }

  /** The table once the response FIFO is open. */
  function Taken(slots: seq<Slot>, d: Daemon): (r: seq<Slot>)
    requires d.Opening? && (d.status == SUCCESS ==> d.slot.Some? && d.slot.value < |slots|)
    ensures |r| == |slots|
  {
    if d.status == SUCCESS then slots[d.slot.value := Slot(true, d.pid, slots[d.slot.value].name, d.pipe)] else slots
  }

  predicate Departed(slot: Slot, alive: set<nat>) { slot.connected && slot.pid !in alive }

  /** The table after the slots before n have been checked for departed processes. */
  function Swept(slots: seq<Slot>, n: nat, alive: set<nat>): (r: seq<Slot>)
    requires n <= |slots|
    ensures |r| == |slots|
    ensures forall k :: 0 <= k < |slots| ==> r[k] == if k < n && Departed(slots[k], alive) then slots[k].(connected := false) else slots[k]
  {
    if n == 0 then slots
    else if Departed(slots[n - 1], alive) then Off(Swept(slots, n - 1, alive), n - 1)
    else Swept(slots, n - 1, alive)
  }

  /** The process ids of the departed clients in the first n slots, in slot order. */
  function Gone(slots: seq<Slot>, n: nat, alive: set<nat>): (r: seq<nat>)
    requires n <= |slots|
    ensures forall p :: p in r <==> exists k :: 0 <= k < n && Departed(slots[k], alive) && slots[k].pid == p
  {
    if n == 0 then []
    else if Departed(slots[n - 1], alive) then Gone(slots, n - 1, alive) + [slots[n - 1].pid]
    else Gone(slots, n - 1, alive)
  }

  /** The response FIFOs of the departed clients in the first n slots. */
  function GoneNames(slots: seq<Slot>, n: nat, alive: set<nat>): (r: set<nat>)
    requires n <= |slots|
    ensures forall p :: p in r <==> exists k :: 0 <= k < n && Departed(slots[k], alive) && slots[k].name == p
  {
    if n == 0 then {}
    else if Departed(slots[n - 1], alive) then GoneNames(slots, n - 1, alive) + {slots[n - 1].name}
    else GoneNames(slots, n - 1, alive)
  }
}

module LadClients {
  import opened Options
  import opened LadSlots

  /** The daemon's parallel arrays, and the response FIFO files there are. */
  class Clients {
    const clientConnected: array<bool>
    const clientPID: array<nat>
    const clientFIFOName: array<nat>
    const responseFIFOFilePtr: array<nat>
    var files: map<nat, nat>

    ghost predicate Valid()
      reads this
    {
      && clientConnected.Length == MAXNUMCLIENTS
      && clientPID.Length == MAXNUMCLIENTS
      && clientFIFOName.Length == MAXNUMCLIENTS
      && responseFIFOFilePtr.Length == MAXNUMCLIENTS
      && clientPID != clientFIFOName && clientPID != responseFIFOFilePtr && clientFIFOName != responseFIFOFilePtr
    }

    ghost function Slots(): (r: seq<Slot>)
      requires Valid()
      reads this, clientConnected, clientPID, clientFIFOName, responseFIFOFilePtr
      ensures |r| == MAXNUMCLIENTS
    {
      seq(MAXNUMCLIENTS, k requires 0 <= k < MAXNUMCLIENTS && Valid()
                           reads this, clientConnected, clientPID, clientFIFOName, responseFIFOFilePtr =>
        Slot(clientConnected[k], clientPID[k], clientFIFOName[k], responseFIFOFilePtr[k]))
    }

    /** No client is connected. */
    constructor ()
      ensures Valid() && fresh(clientConnected) && fresh(clientPID) && fresh(clientFIFOName) && fresh(responseFIFOFilePtr)
      ensures files == map[]
      ensures forall name :: NameFree(Slots(), name)
    {
      clientConnected := new bool[MAXNUMCLIENTS](_ => false);
      clientPID := new nat[MAXNUMCLIENTS](_ => 0);
      clientFIFOName := new nat[MAXNUMCLIENTS](_ => 0);
      responseFIFOFilePtr := new nat[MAXNUMCLIENTS](_ => 0);
      files := map[];
    }

    /** The lowest open slot, or -1. */
    method AssignClientId() returns (clientId: int)
      requires Valid()
      ensures clientId == match LowestOpen(Slots(), 0) case Some(k) => k case None => -1
      ensures clientId >= 0 ==> IsLowestOpen(Slots(), clientId)
    {
      clientId := -1;
      var i := 0;
      while i < MAXNUMCLIENTS
        invariant 0 <= i <= MAXNUMCLIENTS
        invariant forall j :: 0 <= j < i ==> Slots()[j].connected
        invariant clientId == -1
      {
        if !clientConnected[i] {
          clientId := i;
          assert !Slots()[i].connected;
          break;
        }
        i := i + 1;
      }
    }

    /** Close slot clientId and remove its FIFO. */
    method DoDisconnect(clientId: nat)
      requires Valid() && clientId < MAXNUMCLIENTS
      modifies this`files, clientConnected
      ensures Valid()
      ensures Slots() == Off(old(Slots()), clientId)
      ensures files == old(files) - {old(Slots())[clientId].name}
    {
      clientConnected[clientId] := false;
      files := files - {clientFIFOName[clientId]};
    }

    /** connectToLAD up to the opening of the response FIFO; pipe is what mkfifo makes. It makes none when a file of that
      * name is there, and then no answer is sent. */
    method BeginConnect(name: nat, pid: nat, version: bool, pipe: nat) returns (daemon: Daemon)
      requires Valid()
      modifies this`files, clientFIFOName
      ensures Valid()
      ensures Slots() == Named(old(Slots()), version, name)
      ensures files == if name in old(files) then old(files) else old(files)[name := pipe]
      ensures var (slot, status) := Grant(old(Slots()), version);
              daemon == if name in old(files) then Ready else Opening(name, pid, pipe, slot, status)
    {
      var clientId := -1;
      var status := SUCCESS;
      if !version {
        status := INVALIDVERSION;
      } else {
        clientId := AssignClientId();
        if clientId == -1 {
          status := ACCESSDENIED;
        } else {
          clientFIFOName[clientId] := name;
        }
      }
      if name in files { return Ready; }
      files := files[name := pipe];
      daemon := Opening(name, pid, pipe, if clientId == -1 then None else Some(clientId), status);
    }

    /** connectToLAD once the response FIFO is open: take the slot, or remove the FIFO of a refused client, which has
      * been sent its answer before. */
    method EndConnect(daemon: Daemon)
      requires Valid() && daemon.Opening?
      requires daemon.status == SUCCESS ==> daemon.slot.Some? && daemon.slot.value < MAXNUMCLIENTS
      modifies this`files, clientConnected, clientPID, responseFIFOFilePtr
      ensures Valid()
      ensures Slots() == Taken(old(Slots()), daemon)
      ensures files == if daemon.status == SUCCESS then old(files) else old(files) - {daemon.name}
    {
      if daemon.status == SUCCESS {
        Take(daemon.slot.value, daemon.pid, daemon.pipe);
      } else {
        files := files - {daemon.name};
      }
    }

    /** The client owns slot clientId from now on. */
    method Take(clientId: nat, pid: nat, pipe: nat)
      requires Valid() && clientId < MAXNUMCLIENTS
      modifies clientConnected, clientPID, responseFIFOFilePtr
      ensures Valid()
      ensures Slots() == old(Slots())[clientId := Slot(true, pid, old(Slots())[clientId].name, pipe)]
    {
      responseFIFOFilePtr[clientId] := pipe;
      clientPID[clientId] := pid;
      clientConnected[clientId] := true;
    }

    /** Disconnect every client whose process is gone; departed lists their process ids in slot order, each then handed to
      * MessageQ_cleanupOwner. */
    method CleanupDeparted(alive: set<nat>) returns (departed: seq<nat>)
      requires Valid()
      modifies this`files, clientConnected
      ensures Valid()
      ensures Slots() == Swept(old(Slots()), MAXNUMCLIENTS, alive)
      ensures departed == Gone(old(Slots()), MAXNUMCLIENTS, alive)
      ensures files == old(files) - GoneNames(old(Slots()), MAXNUMCLIENTS, alive)
    {
      departed := [];
      ghost var was := Slots();
      var i := 0;
      while i < MAXNUMCLIENTS
        invariant 0 <= i <= MAXNUMCLIENTS && Valid()
        invariant was == old(Slots())
        invariant Slots() == Swept(was, i, alive)
        invariant departed == Gone(was, i, alive)
        invariant files == old(files) - GoneNames(was, i, alive)
      {
        assert Slots()[i] == was[i];
        if clientConnected[i] && clientPID[i] !in alive {
          DoDisconnect(i);
          departed := departed + [clientPID[i]];
        }
        i := i + 1;
      }
    }
  }
}
