// A client process's own table of connections, as the C code keeps it.

module LadInfo {
  import opened Options
  import opened LadSlots
  import opened LadRpc

  class ClientInfo {
    const connectedToLAD: array<bool>
    const PID: array<nat>
    const responseFIFOFilePtr: array<Option<nat>>     // NULL or closed, or an open file of this pipe

    ghost predicate Valid()
      reads this
    {
      && connectedToLAD.Length == MAXNUMCLIENTS && PID.Length == MAXNUMCLIENTS && responseFIFOFilePtr.Length == MAXNUMCLIENTS
    }

    /** The entries as the calling process with this id sees them. */
    ghost function Entries(pid: nat): (r: seq<Info>)
      requires Valid()
      reads this, connectedToLAD, PID, responseFIFOFilePtr
      ensures |r| == MAXNUMCLIENTS
    {
      seq(MAXNUMCLIENTS, k requires 0 <= k < MAXNUMCLIENTS && Valid() reads this, connectedToLAD, PID, responseFIFOFilePtr =>
        Info(connectedToLAD[k] && PID[k] == pid, responseFIFOFilePtr[k].Some?,
             match responseFIFOFilePtr[k] case Some(pipe) => pipe case None => 0))
    }

    /** initWrappers. */
    constructor ()
      ensures Valid() && fresh(connectedToLAD) && fresh(PID) && fresh(responseFIFOFilePtr)
      ensures forall pid, k :: 0 <= k < MAXNUMCLIENTS ==> !Entries(pid)[k].connected && !Entries(pid)[k].open
    {
      connectedToLAD := new bool[MAXNUMCLIENTS](_ => false);
      PID := new nat[MAXNUMCLIENTS](_ => 0);
      responseFIFOFilePtr := new Option<nat>[MAXNUMCLIENTS](_ => None);
    }

    /** LAD_findHandle: the first entry this process is connected through, or LAD_MAXNUMCLIENTS. */
    method FindClient(pid: nat) returns (i: nat)
      requires Valid()
      ensures i == match FindHandle(Entries(pid), 0) case Some(k) => k case None => MAXNUMCLIENTS
    {
      i := 0;
      while i < MAXNUMCLIENTS && !(PID[i] == pid && connectedToLAD[i])
        invariant i <= MAXNUMCLIENTS
        invariant FindHandle(Entries(pid), 0) == FindHandle(Entries(pid), i)
      {
        assert !Entries(pid)[i].connected;
        i := i + 1;
      }
      assert i == MAXNUMCLIENTS || Entries(pid)[i].connected;
    }

    /** The end of a successful LAD_connect. */
    method SetUp(assignedId: nat, pid: nat, pipe: nat)
      requires Valid() && assignedId < MAXNUMCLIENTS
      modifies connectedToLAD, PID, responseFIFOFilePtr
      ensures Entries(pid) == old(Entries(pid))[assignedId := Info(true, true, pipe)]
    {
      PID[assignedId] := pid;
      responseFIFOFilePtr[assignedId] := Some(pipe);
      connectedToLAD[assignedId] := true;
    }

    /** The end of LAD_disconnect. */
    method Reset(handle: nat, pid: nat)
      requires Valid() && handle < MAXNUMCLIENTS
      modifies connectedToLAD
      ensures Entries(pid) == old(Entries(pid))[handle := old(Entries(pid))[handle].(connected := false)]
    {
      connectedToLAD[handle] := false;
    }
  }
}
