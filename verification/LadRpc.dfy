// Remote calls on the LAD daemon: any number of client processes with any
// number of threads share one command FIFO; the daemon answers each process
// through a response FIFO of its own. A process is known by its index, which
// is its process id and is not used again.
//
// A thread may call, connect and disconnect at any time, also while another
// thread of its process does. The calling rule under which that goes well is
// the predicate Obeyed at the end.
//
// S is the daemon's own state, C a command with its arguments, R a result;
// what a command does is a parameter of every step.

module LadRpc {
  import opened Options
  import opened LadSlots

  datatype Job<C> = DoConnect | DoDisconnect(handle: nat) | DoCall(c: C)

  /** A job past the checks made before the mutex is asked for, with the handle they found. */
  datatype Op<C> = Join | Leave(k: nat) | Invoke(k: nat, c: C)

  datatype Answer<R> = Value(r: R) | Status(status: int, handle: Option<nat>)

  /** Where a thread stands. The number id is the place of its command among all commands ever written. */
  datatype Pc<C, R> =
    | Idle
    | WantGate(op: Op<C>)               // in LAD_putCommand, at the mutex
    | Writing(op: Op<C>)                // has the mutex
    | Waiting(k: nat, c: C, id: nat)    // in LAD_getResponse
    | Polling(id: nat)                  // in LAD_connect, opening the response FIFO
    | Reading(id: nat, pipe: nat)       // in LAD_connect, response FIFO open
    | Closing(k: nat, id: nat)          // in LAD_disconnect, command written
    | Vanishing(k: nat, id: nat)        // in LAD_disconnect, waiting for the FIFO to go, mutex released
    | Returned(op: Op<C>, id: nat, answer: Answer<R>)
    | Turned(status: int)               // returned before asking for the mutex

  /** A clientInfo entry: connectedToLAD, and whether responseFIFOFilePtr is an open file, and of what. */
  datatype Info = Info(connected: bool, open: bool, pipe: nat)

  /** version: its library speaks the daemon's protocol version. */
  datatype Proc<C, R> = Proc(alive: bool, version: bool, info: seq<Info>, gate: Option<nat>, threads: seq<Pc<C, R>>)

  datatype Cmd<C> = Connect(pid: nat, name: nat, version: bool) | Disconnect(clientId: nat) | Call(clientId: nat, c: C)
  datatype Sent<C> = Sent(pid: nat, cmd: Cmd<C>)

  /** What mkfifo once made under a name, and what has been written to it and not read. */
  datatype Pipe<R> = Pipe(name: nat, data: seq<Answer<R>>)

  datatype State<S, C, R> = State(
    procs: seq<Proc<C, R>>,
    fifo: seq<Cmd<C>>, pipes: seq<Pipe<R>>, files: map<nat, nat>,
    slots: seq<Slot>, daemon: Daemon, srv: S,
    // histories: commands written; for each handled one, the departed processes cleaned up before it and its result;
    // and whether any code has used a file it had closed, after which C defines nothing
    sent: seq<Sent<C>>, left: seq<seq<nat>>, results: seq<Option<R>>, undefined: bool)

  /** What the daemon's services do: a command on behalf of a process, and MessageQ_cleanupOwner. */
  datatype Service<!S, !C, !R> = Service(exec: (S, C, nat) -> (S, R), cleanup: (S, nat) -> S)

  datatype Action<C> =
    | Begin(p: nat, t: nat, job: Job<C>)
    | Lock(p: nat, t: nat) | Write(p: nat, t: nat) | Read(p: nat, t: nat)
    | Close(p: nat, t: nat) | Vanish(p: nat, t: nat) | Finish(p: nat, t: nat)
    | Open(p: nat, t: nat)      // client and daemon open a new response FIFO together, the daemon answers the request
    | Reopen(p: nat, t: nat)    // the client opens a response FIFO that the daemon has open already
    | Handle                    // the daemon takes one command
    | Refuse                    // the daemon closes and removes the FIFO of a client it has refused
    | Die(p: nat)

  predicate IsThread<S, C, R>(s: State<S, C, R>, p: nat, t: nat) {
    p < |s.procs| && t < |s.procs[p].threads| && s.procs[p].alive
  }

  function PcOf<S, C, R>(s: State<S, C, R>, p: nat, t: nat): Pc<C, R>
    requires IsThread(s, p, t)
  {
    s.procs[p].threads[t]
  }

  /** Command k was written by process p and the daemon has not taken it yet. */
  predicate Pending<S, C, R>(s: State<S, C, R>, p: nat, k: nat) {
    |s.left| <= k < |s.sent| && s.sent[k].pid == p
  }

  predicate NonePending<S, C, R>(s: State<S, C, R>, p: nat) {
    forall k :: |s.left| <= k < |s.sent| ==> !Pending(s, p, k)
  }

  predicate Opens<S, C, R>(s: State<S, C, R>, p: nat) { s.daemon.Opening? && s.daemon.name == p }

  predicate Refuses<S, C, R>(s: State<S, C, R>, p: nat) { s.daemon.Refusing? && s.daemon.name == p }

  /** The daemon has this pipe open for writing. */
  predicate WriterOpen<S, C, R>(s: State<S, C, R>, i: nat) {
    (s.daemon.Refusing? && s.daemon.pipe == i) || exists k :: 0 <= k < |s.slots| && s.slots[k].connected && s.slots[k].pipe == i
  }

  /** The pipe a reading thread reads from; none if it has closed that file. */
  function Source<C, R>(pr: Proc<C, R>, pc: Pc<C, R>): Option<nat> {
    match pc
    case Waiting(k, _, _) => if k < |pr.info| && pr.info[k].open then Some(pr.info[k].pipe) else None
    case Reading(_, pipe) => Some(pipe)
    case _ => None
  }

  predicate Enabled<S, C, R>(s: State<S, C, R>, a: Action<C>) {
    match a
    case Begin(p, t, job) => IsThread(s, p, t) && PcOf(s, p, t).Idle?
    case Lock(p, t) => IsThread(s, p, t) && PcOf(s, p, t).WantGate? && s.procs[p].gate.None?
    case Write(p, t) => IsThread(s, p, t) && PcOf(s, p, t).Writing?
    case Read(p, t) =>
      // data, or the end of a pipe without writer
      && IsThread(s, p, t) && (PcOf(s, p, t).Waiting? || PcOf(s, p, t).Reading?)
      && (match Source(s.procs[p], PcOf(s, p, t))
          case None => true
          case Some(i) => i < |s.pipes| && (s.pipes[i].data != [] || !WriterOpen(s, i)))
    case Close(p, t) => IsThread(s, p, t) && PcOf(s, p, t).Closing?
    case Vanish(p, t) => IsThread(s, p, t) && PcOf(s, p, t).Vanishing? && p !in s.files
    case Finish(p, t) => IsThread(s, p, t) && (PcOf(s, p, t).Returned? || PcOf(s, p, t).Turned?)
    case Open(p, t) =>
      && IsThread(s, p, t) && PcOf(s, p, t).Polling?
      && Opens(s, p) && s.daemon.pipe < |s.pipes|
      && (s.daemon.status == SUCCESS ==> s.daemon.slot.Some? && s.daemon.slot.value < |s.slots|)
    case Reopen(p, t) => IsThread(s, p, t) && PcOf(s, p, t).Polling? && p in s.files && WriterOpen(s, s.files[p])
    case Handle => CanHandle(s)
    case Refuse => s.daemon.Refusing?
    // a process does not die while a command of its own is with the daemon
    case Die(p) => p < |s.procs| && s.procs[p].alive && NonePending(s, p) && !Opens(s, p)
  }

  /** The daemon is at its fread, and the command names a slot there is. */
  predicate CanHandle<S, C, R>(s: State<S, C, R>) {
    && s.daemon.Ready? && s.fifo != []
    && (match s.fifo[0]
        case Connect(_, _, _) => true
        case Disconnect(k) => k < |s.slots|
        case Call(k, _) => k < |s.slots| && s.slots[k].pipe < |s.pipes|)
  }

  function SetPc<S, C, R>(s: State<S, C, R>, p: nat, t: nat, pc: Pc<C, R>): State<S, C, R>
    requires IsThread(s, p, t)
  {
    s.(procs := s.procs[p := s.procs[p].(threads := s.procs[p].threads[t := pc])])
  }

  function SetInfo<S, C, R>(s: State<S, C, R>, p: nat, k: nat, info: Info): State<S, C, R>
    requires p < |s.procs|
  {
    if k < |s.procs[p].info| then s.(procs := s.procs[p := s.procs[p].(info := s.procs[p].info[k := info])]) else s
  }

  function SetGate<S, C, R>(s: State<S, C, R>, p: nat, gate: Option<nat>): State<S, C, R>
    requires p < |s.procs|
  {
    s.(procs := s.procs[p := s.procs[p].(gate := gate)])
  }

  /** fwrite and fflush of one command. */
  function Put<S, C, R>(s: State<S, C, R>, p: nat, cmd: Cmd<C>): State<S, C, R> {
    s.(fifo := s.fifo + [cmd], sent := s.sent + [Sent(p, cmd)])
  }

  function SetData<S, C, R>(s: State<S, C, R>, i: nat, data: seq<Answer<R>>): State<S, C, R>
    requires i < |s.pipes|
  {
    s.(pipes := s.pipes[i := s.pipes[i].(data := data)])
  }

  function Alive<S, C, R>(s: State<S, C, R>): set<nat> {
    set p | 0 <= p < |s.procs| && s.procs[p].alive
  }

  function CleanAll<S, C, R>(sv: Service<S, C, R>, srv: S, pids: seq<nat>): S
    decreases |pids|
  {
    if pids == [] then srv else CleanAll(sv, sv.cleanup(srv, pids[0]), pids[1..])
  }

  /** cleanupDepartedClients. */
  function Cleaned<S, C, R>(sv: Service<S, C, R>, s: State<S, C, R>): (r: State<S, C, R>)
    ensures |r.slots| == |s.slots|
  {
    var gone := Gone(s.slots, |s.slots|, Alive(s));
    s.(slots := Swept(s.slots, |s.slots|, Alive(s)),
       files := s.files - GoneNames(s.slots, |s.slots|, Alive(s)),
       srv := CleanAll(sv, s.srv, gone),
       left := s.left + [gone])
  }

  /** LAD_findHandle: the first connected entry. */
  function FindHandle(info: seq<Info>, from: nat): (r: Option<nat>)
    requires from <= |info|
    ensures r.Some? ==> from <= r.value < |info| && info[r.value].connected
    ensures r.None? <==> forall k :: from <= k < |info| ==> !info[k].connected
    decreases |info| - from
  {
    if from == |info| then None else if info[from].connected then Some(from) else FindHandle(info, from + 1)
  }

  /** The checks before the mutex is asked for. */
  function Entry<S, C, R>(s: State<S, C, R>, p: nat, job: Job<C>): Pc<C, R>
    requires p < |s.procs|
  {
    var info := s.procs[p].info;
    match job
    case DoConnect =>
      // stat: the response FIFO exists already
      if p in s.files then Turned(ACCESSDENIED) else WantGate(Join)
    case DoDisconnect(h) =>
      if h >= |info| then Turned(INVALIDARG) else if !info[h].connected then Turned(NOTCONNECTED) else WantGate(Leave(h))
    case DoCall(c) =>
      match FindHandle(info, 0) case None => Turned(NOTCONNECTED) case Some(k) => WantGate(Invoke(k, c))
  }

  /** The daemon takes no command and computes nothing, and no other process is touched. */
  ghost predicate OnlyClient<S, C, R>(s: State<S, C, R>, r: State<S, C, R>, p: nat) {
    && |r.procs| == |s.procs| && (forall q :: 0 <= q < |s.procs| && q != p ==> r.procs[q] == s.procs[q])
    && s.sent <= r.sent && r.left == s.left && r.results == s.results && r.srv == s.srv
  }

  function WriteStep<S, C, R>(s: State<S, C, R>, p: nat, t: nat): (r: State<S, C, R>)
    requires Enabled(s, Write(p, t))
    ensures OnlyClient(s, r, p)
  {
    var id := |s.sent|;
    match PcOf(s, p, t).op
    case Join => Put(SetPc(s, p, t, Polling(id)), p, Connect(p, p, s.procs[p].version))
    case Leave(k) => Put(SetPc(s, p, t, Closing(k, id)), p, Disconnect(k))
    case Invoke(k, c) => Put(SetPc(s, p, t, Waiting(k, c, id)), p, Call(k, c))
  }

  /** fread, and the mutex is released. After a successful connect the clientInfo entry is set up; the threads that look at
    * it in between find the process not connected, as they do before. */
  function ReadStep<S, C, R>(s: State<S, C, R>, p: nat, t: nat): (r: State<S, C, R>)
    requires Enabled(s, Read(p, t))
    ensures OnlyClient(s, r, p)
  {
    var pc := PcOf(s, p, t);
    match Source(s.procs[p], pc)
    case None => Received(SetGate(s, p, None), p, t, Status(IOFAILURE, None)).(undefined := true)
    case Some(i) =>
      if s.pipes[i].data == [] then Received(SetGate(s, p, None), p, t, Status(IOFAILURE, None))
      else Received(SetGate(SetData(s, i, s.pipes[i].data[1..]), p, None), p, t, s.pipes[i].data[0])
  }

  function Received<S, C, R>(s: State<S, C, R>, p: nat, t: nat, answer: Answer<R>): State<S, C, R>
    requires IsThread(s, p, t) && (PcOf(s, p, t).Waiting? || PcOf(s, p, t).Reading?)
  {
    match PcOf(s, p, t)
    case Waiting(k, c, id) => SetPc(s, p, t, Returned(Invoke(k, c), id, answer))
    case Reading(id, pipe) =>
      var s1 := SetPc(s, p, t, Returned(Join, id, answer));
      if answer.Status? && answer.status == SUCCESS && answer.handle.Some?
      then SetInfo(s1, p, answer.handle.value, Info(true, true, pipe)) else s1
  }

  /** fclose of the response FIFO, and the mutex is released. */
  function CloseStep<S, C, R>(s: State<S, C, R>, p: nat, t: nat): (r: State<S, C, R>)
    requires Enabled(s, Close(p, t))
    ensures OnlyClient(s, r, p)
  {
    var Closing(k, id) := PcOf(s, p, t);
    var s1 := SetGate(SetPc(s, p, t, Vanishing(k, id)), p, None);
    if k < |s.procs[p].info| && s.procs[p].info[k].open
    then SetInfo(s1, p, k, s.procs[p].info[k].(open := false)) else s1.(undefined := true)
  }

  function VanishStep<S, C, R>(s: State<S, C, R>, p: nat, t: nat): (r: State<S, C, R>)
    requires Enabled(s, Vanish(p, t))
    ensures OnlyClient(s, r, p)
  {
    var Vanishing(k, id) := PcOf(s, p, t);
    var s1 := SetPc(s, p, t, Returned(Leave(k), id, Status(SUCCESS, None)));
    if k < |s.procs[p].info| then SetInfo(s1, p, k, s.procs[p].info[k].(connected := false)) else s1
  }

  function OpenStep<S, C, R>(s: State<S, C, R>, p: nat, t: nat): (r: State<S, C, R>)
    requires Enabled(s, Open(p, t))
    ensures OnlyClient(s, r, p)
  {
    var d := s.daemon;
    var s1 := SetPc(s, p, t, Reading(PcOf(s, p, t).id, d.pipe));
    var s2 := SetData(s1, d.pipe, s.pipes[d.pipe].data + [Status(d.status, d.slot)]);
    s2.(slots := Taken(s.slots, d), daemon := if d.status == SUCCESS then Ready else Refusing(d.name, d.pipe))
  }

  /** With a file of that name there, mkfifo fails and nothing is answered. */
  function HandleConnect<S, C, R>(s: State<S, C, R>, pid: nat, name: nat, version: bool): State<S, C, R> {
    var (slot, status) := Grant(s.slots, version);
    var s1 := s.(slots := Named(s.slots, version, name), results := s.results + [None]);
    if name in s.files then s1
    else s1.(files := s.files[name := |s.pipes|], pipes := s.pipes + [Pipe(name, [])],
             daemon := Opening(name, pid, |s.pipes|, slot, status))
  }

  function HandleDisconnect<S, C, R>(s: State<S, C, R>, k: nat): State<S, C, R>
    requires k < |s.slots|
  {
    s.(slots := Off(s.slots, k), files := s.files - {s.slots[k].name}, results := s.results + [None],
       undefined := s.undefined || !s.slots[k].connected)
  }

  /** Whoever has the slot now is the one the command is executed for, and gets the answer. */
  function HandleCall<S, C, R>(sv: Service<S, C, R>, s: State<S, C, R>, k: nat, c: C): State<S, C, R>
    requires k < |s.slots| && s.slots[k].pipe < |s.pipes|
  {
    var (srv, r) := sv.exec(s.srv, c, s.slots[k].pid);
    var s1 := s.(srv := srv, results := s.results + [Some(r)]);
    var i := s.slots[k].pipe;
    if s.slots[k].connected then SetData(s1, i, s.pipes[i].data + [Value(r)]) else s1.(undefined := true)
  }

  function HandleStep<S, C, R>(sv: Service<S, C, R>, s: State<S, C, R>): (r: State<S, C, R>)
    requires Enabled(s, Handle)
    ensures |r.procs| == |s.procs|
  {
    var s1 := Cleaned(sv, s).(fifo := s.fifo[1..]);
    match s.fifo[0]
    case Connect(pid, name, version) => HandleConnect(s1, pid, name, version)
    case Disconnect(k) => HandleDisconnect(s1, k)
    case Call(k, c) => HandleCall(sv, s1, k, c)
  }

  function Apply<S, C, R>(sv: Service<S, C, R>, s: State<S, C, R>, a: Action<C>): (r: State<S, C, R>)
    requires Enabled(s, a)
    ensures |r.procs| == |s.procs|
  {
    hide WriteStep, ReadStep, CloseStep, VanishStep, OpenStep, HandleStep, Entry;
    match a
    case Begin(p, t, job) => SetPc(s, p, t, Entry(s, p, job))
    case Lock(p, t) => SetPc(SetGate(s, p, Some(t)), p, t, Writing(PcOf(s, p, t).op))
    case Write(p, t) => WriteStep(s, p, t)
    case Read(p, t) => ReadStep(s, p, t)
    case Close(p, t) => CloseStep(s, p, t)
    case Vanish(p, t) => VanishStep(s, p, t)
    case Finish(p, t) => SetPc(s, p, t, Idle)
    case Open(p, t) => OpenStep(s, p, t)
    case Reopen(p, t) => SetPc(s, p, t, Reading(PcOf(s, p, t).id, s.files[p]))
    case Handle => HandleStep(sv, s)
    case Refuse => s.(daemon := Ready, files := s.files - {s.daemon.name})
    case Die(p) => s.(procs := s.procs[p := s.procs[p].(alive := false)])
  }

  /** No process has connected yet. */
  predicate Init<S, C, R>(s: State<S, C, R>) {
    && (forall p :: 0 <= p < |s.procs| ==> Fresh(s.procs[p]))
    && s.fifo == [] && s.pipes == [] && s.files == map[]
    && |s.slots| == MAXNUMCLIENTS && (forall k :: 0 <= k < |s.slots| ==> !s.slots[k].connected)
    && s.daemon.Ready? && s.sent == [] && s.left == [] && s.results == [] && !s.undefined
  }

  predicate Fresh<C, R>(pr: Proc<C, R>) {
    && pr.alive && pr.gate.None? && |pr.info| == MAXNUMCLIENTS
    && (forall k :: 0 <= k < |pr.info| ==> !pr.info[k].connected)
    && (forall t :: 0 <= t < |pr.threads| ==> pr.threads[t].Idle?)
  }

  predicate CanRun<S, C, R>(sv: Service<S, C, R>, s: State<S, C, R>, actions: seq<Action<C>>)
    decreases |actions|
  {
    actions == [] || (Enabled(s, actions[0]) && CanRun(sv, Apply(sv, s, actions[0]), actions[1..]))
  }

  function Run<S, C, R>(sv: Service<S, C, R>, s: State<S, C, R>, actions: seq<Action<C>>): State<S, C, R>
    requires CanRun(sv, s, actions)
    decreases |actions|
  {
    if actions == [] then s else Run(sv, Apply(sv, s, actions[0]), actions[1..])
  }

  // ----- the calling rule -----

  /** In LAD_connect past its stat, its response FIFO not open yet. */
  predicate Joins<C, R>(pc: Pc<C, R>) { ((pc.WantGate? || pc.Writing?) && pc.op.Join?) || pc.Polling? }

  /** In LAD_disconnect past its check, connectedToLAD not reset yet. */
  predicate Leaves<C, R>(pc: Pc<C, R>) { ((pc.WantGate? || pc.Writing?) && pc.op.Leave?) || pc.Closing? || pc.Vanishing? }

  /** In a call past LAD_findHandle, without the mutex. */
  predicate Calls<C, R>(pc: Pc<C, R>) { pc.WantGate? && pc.op.Invoke? }

  /** The calling rule, as the threads of one process can keep it among themselves. A connect that finds no response FIFO
    * starts only while no other connect is on its way to its own and no disconnect is under way; a disconnect that finds
    * the process connected only while no other disconnect is under way and no call is on its way to the mutex; a call that
    * finds it connected only while no disconnect is under way. */
  predicate Obeyed<S, C, R>(s: State<S, C, R>, a: Action<C>) {
    a.Begin? && a.p < |s.procs| ==>
      var threads := s.procs[a.p].threads;
      match a.job
      case DoConnect => a.p in s.files || forall u :: 0 <= u < |threads| ==> !Joins(threads[u]) && !Leaves(threads[u])
      case DoDisconnect(h) =>
        Entry(s, a.p, a.job).Turned? || forall u :: 0 <= u < |threads| ==> !Leaves(threads[u]) && !Calls(threads[u])
      case DoCall(_) =>
        Entry(s, a.p, a.job).Turned? || forall u :: 0 <= u < |threads| ==> !Leaves(threads[u])
  }

  /** A run in which every process keeps the rule. */
  predicate Obeys<S, C, R>(sv: Service<S, C, R>, s: State<S, C, R>, actions: seq<Action<C>>): (b: bool)
    ensures b ==> CanRun(sv, s, actions)
    decreases |actions|
  {
    actions == [] ||
    (Enabled(s, actions[0]) && Obeyed(s, actions[0]) && Obeys(sv, Apply(sv, s, actions[0]), actions[1..]))
  }
}
