// What every step of the daemon and its clients keeps, as long as the
// processes keep the calling rule.

module LadInvariant {
  import opened Options
  import opened LadSlots
  import opened LadRpc

  // ----- one process by itself -----

  /** The thread has the mutex. */
  ghost predicate Holds<C, R>(pc: Pc<C, R>) { pc.Writing? || pc.Waiting? || pc.Polling? || pc.Reading? || pc.Closing? }

  /** The thread's command is written and the thread is not done with it. */
  ghost predicate Active<C, R>(pc: Pc<C, R>) { pc.Waiting? || pc.Polling? || pc.Reading? || pc.Closing? || pc.Vanishing? }

  /** The mutex is held exactly by the thread that is between its lock and its unlock. */
  ghost predicate GateOk<C, R>(pr: Proc<C, R>) {
    && (forall t :: 0 <= t < |pr.threads| && Holds(pr.threads[t]) ==> pr.gate == Some(t))
    && (pr.gate.Some? ==> pr.gate.value < |pr.threads| && Holds(pr.threads[pr.gate.value]))
  }

  /** Entry k is connected and its file open. */
  ghost predicate Usable(info: seq<Info>, k: nat) { k < |info| && info[k].connected && info[k].open }

  ghost predicate NoFlag(info: seq<Info>) { forall k :: 0 <= k < |info| ==> !info[k].connected }

  ghost predicate OpFits<C>(info: seq<Info>, op: Op<C>) {
    match op
    case Join => NoFlag(info)
    case Leave(k) => Usable(info, k)
    case Invoke(k, _) => Usable(info, k)
  }

  ghost predicate PcFits<C, R>(info: seq<Info>, pc: Pc<C, R>) {
    match pc
    case WantGate(op) => OpFits(info, op)
    case Writing(op) => OpFits(info, op)
    case Waiting(k, _, _) => Usable(info, k)
    case Polling(_) => NoFlag(info)
    case Reading(_, _) => NoFlag(info)
    case Closing(k, _) => Usable(info, k)
    case Vanishing(k, _) => k < |info| && info[k].connected && !info[k].open
    case _ => true
  }

  /** What two threads of one process cannot be doing together. */
  ghost predicate PairOk<C, R>(a: Pc<C, R>, b: Pc<C, R>) {
    !(Leaves(a) && (Leaves(b) || Calls(b))) && !(Joins(a) && Joins(b))
  }

  ghost predicate PairsOk<C, R>(threads: seq<Pc<C, R>>) {
    forall t, u :: 0 <= t < |threads| && 0 <= u < |threads| && t != u ==> PairOk(threads[t], threads[u])
  }

  /** At most one entry is connected, and only in a process of the right version. */
  ghost predicate InfoOk(info: seq<Info>, version: bool) {
    && |info| == MAXNUMCLIENTS
    && (forall j, k :: 0 <= j < k < |info| ==> !(info[j].connected && info[k].connected))
    && (NoFlag(info) || version)
  }

  ghost predicate LocalOk<C, R>(pr: Proc<C, R>) {
    && InfoOk(pr.info, pr.version) && PairsOk(pr.threads)
    && (forall t :: 0 <= t < |pr.threads| ==> PcFits(pr.info, pr.threads[t]))
  }

  /** No two threads of a process have a command under way. */
  lemma OneActive<C, R>(pr: Proc<C, R>, t: nat, u: nat)
    requires GateOk(pr) && LocalOk(pr)
    requires t < |pr.threads| && u < |pr.threads| && Active(pr.threads[t]) && (Active(pr.threads[u]) || Holds(pr.threads[u]))
    ensures t == u
  {
    assert PcFits(pr.info, pr.threads[t]) && PcFits(pr.info, pr.threads[u]);
    assert t != u ==> PairOk(pr.threads[t], pr.threads[u]) && PairOk(pr.threads[u], pr.threads[t]);
  }

  // ----- a process and the daemon -----

  /** Command id is of process p, and no other command of p is still to be taken. */
  ghost predicate Mine<S, C, R>(s: State<S, C, R>, p: nat, id: nat) {
    && id < |s.sent| && s.sent[id].pid == p
    && forall k :: |s.left| <= k < |s.sent| && k != id ==> !Pending(s, p, k)
  }

  /** Slot k is connected for process p, through this pipe, which holds this data. */
  ghost predicate Attached<S, C, R>(s: State<S, C, R>, p: nat, k: nat, pipe: nat, data: seq<Answer<R>>) {
    Under(s.slots, k, p) && s.slots[k].pipe == pipe && PipeHas(s, p, pipe, data)
  }

  ghost predicate PipeHas<S, C, R>(s: State<S, C, R>, p: nat, pipe: nat, data: seq<Answer<R>>) {
    pipe < |s.pipes| && s.pipes[pipe] == Pipe(p, data)
  }

  /** The answer to a connect request tells the truth about the slot table. */
  ghost predicate ConnectAnswer<S, C, R>(s: State<S, C, R>, p: nat, pipe: nat, version: bool, a: Answer<R>) {
    && a.Status?
    && (a.status == SUCCESS ==> a.handle.Some? && Under(s.slots, a.handle.value, p) && s.slots[a.handle.value].pipe == pipe)
    && (a.status != SUCCESS ==> NameFree(s.slots, p))
    && (a.status == INVALIDVERSION <==> !version)
    && a.status in {SUCCESS, INVALIDVERSION, ACCESSDENIED}
  }

  /** Nobody is connected under p's name, and no refused client's FIFO of that name is left. */
  ghost predicate MayJoin<S, C, R>(s: State<S, C, R>, p: nat) { NameFree(s.slots, p) && !Refuses(s, p) }

  ghost predicate ThreadOk<S, C, R>(s: State<S, C, R>, p: nat, info: seq<Info>, version: bool, pc: Pc<C, R>)
    requires |s.left| == |s.results|
  {
    match pc
    case WantGate(op) => op.Join? ==> MayJoin(s, p)
    case Writing(op) => op.Join? ==> MayJoin(s, p)
    case Waiting(k, c, id) =>
      && Mine(s, p, id) && !Opens(s, p) && k < |info| && s.sent[id].cmd == Call(k, c)
      && (id < |s.left| ==> s.results[id].Some?)
      && Attached(s, p, k, info[k].pipe, if id < |s.left| then [Value(s.results[id].value)] else [])
    case Polling(id) =>
      && Mine(s, p, id) && s.sent[id].cmd == Connect(p, p, version) && MayJoin(s, p)
      && (Opens(s, p) <==> id < |s.left|)
      && (Opens(s, p) ==>
            s.daemon.status in {SUCCESS, INVALIDVERSION, ACCESSDENIED} && (s.daemon.status == INVALIDVERSION <==> !version))
    case Reading(id, pipe) =>
      && Mine(s, p, id) && id < |s.left| && !Opens(s, p)
      && pipe < |s.pipes| && s.pipes[pipe].name == p && |s.pipes[pipe].data| == 1
      && ConnectAnswer(s, p, pipe, version, s.pipes[pipe].data[0])
    case Closing(k, id) => LeaveOk(s, p, info, k, id)
    case Vanishing(k, id) => LeaveOk(s, p, info, k, id)
    case Returned(op, id, answer) => ReturnOk(s, p, version, op, id, answer)
    case _ => true
  }

  ghost predicate LeaveOk<S, C, R>(s: State<S, C, R>, p: nat, info: seq<Info>, k: nat, id: nat) {
    && Mine(s, p, id) && !Opens(s, p) && k < |info| && s.sent[id].cmd == Disconnect(k)
    && if id < |s.left| then NameFree(s.slots, p) else Attached(s, p, k, info[k].pipe, [])
  }

  /** A call has returned the result of the very command it wrote; nothing has failed. */
  ghost predicate ReturnOk<S, C, R>(s: State<S, C, R>, p: nat, version: bool, op: Op<C>, id: nat, answer: Answer<R>)
    requires |s.left| == |s.results|
  {
    match op
    case Invoke(k, c) =>
      && answer.Value? && id < |s.left| && id < |s.sent| && s.sent[id] == Sent(p, Call(k, c))
      && s.results[id] == Some(answer.r)
    case Join =>
      answer.Status? && answer.status in {SUCCESS, INVALIDVERSION, ACCESSDENIED} && (answer.status == INVALIDVERSION <==> !version)
    case Leave(_) => answer == Status(SUCCESS, None)
  }

  /** A process with no command under way. */
  ghost predicate Quiet<S, C, R>(s: State<S, C, R>, p: nat, info: seq<Info>) {
    && NonePending(s, p) && !Opens(s, p)
    && (NoFlag(info) ==> NameFree(s.slots, p))
    && forall k :: 0 <= k < |info| && info[k].connected ==> info[k].open && Attached(s, p, k, info[k].pipe, [])
  }

  ghost predicate NoneActive<C, R>(pr: Proc<C, R>) {
    forall t :: 0 <= t < |pr.threads| ==> !Active(pr.threads[t])
  }

  ghost predicate ThreadsOk<S, C, R>(s: State<S, C, R>, p: nat)
    requires p < |s.procs| && |s.left| == |s.results|
  {
    var pr := s.procs[p];
    forall t :: 0 <= t < |pr.threads| ==> ThreadOk(s, p, pr.info, pr.version, pr.threads[t])
  }

  ghost predicate ProcOk<S, C, R>(s: State<S, C, R>, p: nat)
    requires p < |s.procs| && |s.left| == |s.results|
  {
    var pr := s.procs[p];
    if pr.alive then
      && GateOk(pr) && LocalOk(pr) && ThreadsOk(s, p)
      && (NoneActive(pr) ==> Quiet(s, p, pr.info))
      && (Refuses(s, p) ==> NoFlag(pr.info))
    else
      NonePending(s, p) && !Opens(s, p)
  }

  // ----- the daemon -----

  /** The command FIFO holds what was written and not yet taken, in the order written. */
  ghost predicate Shape<S, C, R>(s: State<S, C, R>) {
    && |s.slots| == MAXNUMCLIENTS && !s.undefined
    && |s.left| == |s.results| <= |s.sent|
    && |s.fifo| == |s.sent| - |s.left|
    && (forall j :: 0 <= j < |s.fifo| ==> s.fifo[j] == s.sent[|s.left| + j].cmd)
    && (forall k :: 0 <= k < |s.sent| ==> s.sent[k].pid < |s.procs|)
  }

  /** Connected slots have distinct names, each the process id of its client. */
  ghost predicate SlotsOk(slots: seq<Slot>, n: nat) {
    && (forall k :: 0 <= k < |slots| && slots[k].connected ==> slots[k].pid == slots[k].name < n)
    && (forall j, k :: 0 <= j < k < |slots| && slots[j].connected && slots[k].connected ==> slots[j].name != slots[k].name)
  }

  /** A client's response FIFO exists exactly when a slot is connected under its name, or the daemon is about to open or to
    * remove it. */
  ghost predicate FilesOk<S, C, R>(s: State<S, C, R>) {
    && (forall name: nat :: name in s.files <==> !NameFree(s.slots, name) || Opens(s, name) || Refuses(s, name))
    && (forall k :: 0 <= k < |s.slots| && s.slots[k].connected && s.slots[k].name in s.files ==>
          s.files[s.slots[k].name] == s.slots[k].pipe)
  }

  /** A connected slot writes to a pipe made under its name. */
  ghost predicate PipesOk<S, C, R>(s: State<S, C, R>) {
    forall k :: 0 <= k < |s.slots| && s.slots[k].connected ==>
      s.slots[k].pipe < |s.pipes| && s.pipes[s.slots[k].pipe].name == s.slots[k].name
  }

  ghost predicate DaemonOk<S, C, R>(s: State<S, C, R>) {
    var d := s.daemon;
    && (!d.Ready? ==> d.name < |s.procs| && NameFree(s.slots, d.name))
    && (d.Opening? ==>
          && d.name == d.pid && d.name in s.files && s.files[d.name] == d.pipe && PipeHas(s, d.name, d.pipe, [])
          && (d.status == SUCCESS ==>
                && d.slot.Some? && d.slot.value < |s.slots|
                && !s.slots[d.slot.value].connected && s.slots[d.slot.value].name == d.name))
  }

  ghost predicate ProcsOk<S, C, R>(s: State<S, C, R>)
    requires |s.left| == |s.results|
  {
    forall p :: 0 <= p < |s.procs| ==> ProcOk(s, p)
  }

  ghost predicate Inv<S, C, R>(s: State<S, C, R>) {
    Shape(s) && SlotsOk(s.slots, |s.procs|) && FilesOk(s) && PipesOk(s) && DaemonOk(s) && ProcsOk(s)
  }

  // ----- what does not touch a process leaves it as it is -----

  /** Nothing that matters to process q is different. */
  ghost predicate Steady<S, C, R>(s: State<S, C, R>, s': State<S, C, R>, q: nat) {
    && q < |s.procs| == |s'.procs|
    && (s.procs[q].alive ==> forall k: nat :: (Under(s.slots, k, q) <==> Under(s'.slots, k, q))
                                              && (Under(s.slots, k, q) ==> s.slots[k] == s'.slots[k]))
    && (Opens(s, q) || Opens(s', q) || Refuses(s, q) || Refuses(s', q) ==> s.daemon == s'.daemon)
    && |s.pipes| <= |s'.pipes| && (forall i :: 0 <= i < |s.pipes| && s.pipes[i].name == q ==> s'.pipes[i] == s.pipes[i])
    && s.sent <= s'.sent && |s.left| <= |s'.left| && s.results <= s'.results
    && forall k: nat :: Pending(s, q, k) <==> Pending(s', q, k)
  }

  lemma SteadyFree(slots: seq<Slot>, slots': seq<Slot>, q: nat)
    requires forall k: nat :: Under(slots, k, q) <==> Under(slots', k, q)
    ensures NameFree(slots, q) <==> NameFree(slots', q)
  {
    if NameFree(slots, q) {
      forall k | 0 <= k < |slots'| ensures !(slots'[k].connected && slots'[k].name == q) {
        assert Under(slots', k, q) <==> Under(slots, k, q);
      }
    }
    if NameFree(slots', q) {
      forall k | 0 <= k < |slots| ensures !(slots[k].connected && slots[k].name == q) {
        assert Under(slots, k, q) <==> Under(slots', k, q);
      }
    }
  }

  lemma SteadyMine<S, C, R>(s: State<S, C, R>, s': State<S, C, R>, q: nat, id: nat)
    requires Steady(s, s', q) && Mine(s, q, id)
    ensures Mine(s', q, id) && (id < |s.left| <==> id < |s'.left|) && s.sent[id] == s'.sent[id]
  {
    assert Pending(s, q, id) <==> Pending(s', q, id);
    forall k | |s'.left| <= k < |s'.sent| && k != id ensures !Pending(s', q, k) {
      assert Pending(s', q, k) <==> Pending(s, q, k);
    }
  }

  lemma SteadyNone<S, C, R>(s: State<S, C, R>, s': State<S, C, R>, q: nat)
    requires Steady(s, s', q)
    ensures NonePending(s, q) <==> NonePending(s', q)
  {
    if NonePending(s, q) {
      forall k | |s'.left| <= k < |s'.sent| ensures !Pending(s', q, k) { assert Pending(s', q, k) <==> Pending(s, q, k); }
    }
    if NonePending(s', q) {
      forall k | |s.left| <= k < |s.sent| ensures !Pending(s, q, k) { assert Pending(s', q, k) <==> Pending(s, q, k); }
    }
  }

  lemma SteadyThread<S, C, R>(s: State<S, C, R>, s': State<S, C, R>, q: nat, info: seq<Info>, version: bool, pc: Pc<C, R>)
    requires Steady(s, s', q) && s.procs[q].alive
    requires |s.left| == |s.results| <= |s.sent| && |s'.left| == |s'.results| && ThreadOk(s, q, info, version, pc)
    ensures ThreadOk(s', q, info, version, pc)
  {
    hide NameFree, Under, Mine, Pending;
    SteadyFree(s.slots, s'.slots, q);
    if Active(pc) { SteadyMine(s, s', q, pc.id); }
  }

  lemma SteadyQuiet<S, C, R>(s: State<S, C, R>, s': State<S, C, R>, q: nat, info: seq<Info>)
    requires Steady(s, s', q) && s.procs[q].alive && Quiet(s, q, info)
    ensures Quiet(s', q, info)
  {
    hide NameFree, Under, Pending;
    SteadyFree(s.slots, s'.slots, q);
    SteadyNone(s, s', q);
  }

  lemma SteadyProc<S, C, R>(s: State<S, C, R>, s': State<S, C, R>, q: nat)
    requires Shape(s) && Shape(s') && Steady(s, s', q) && ProcOk(s, q) && s'.procs[q] == s.procs[q]
    ensures ProcOk(s', q)
  {
    hide ThreadOk, Quiet, GateOk, LocalOk, Pending, NoneActive;
    SteadyNone(s, s', q);
    var pr := s.procs[q];
    if pr.alive {
      forall t | 0 <= t < |pr.threads| ensures ThreadOk(s', q, pr.info, pr.version, pr.threads[t]) {
        SteadyThread(s, s', q, pr.info, pr.version, pr.threads[t]);
      }
      if NoneActive(pr) { SteadyQuiet(s, s', q, pr.info); }
    }
  }
}
