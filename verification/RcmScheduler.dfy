// The RCM server as a transition system: one server thread, any number of
// worker threads in pools, per-pool ready queues with counting semaphores,
// per-job queues, and the finalizing thread.
//
// One action is one atomic step of the C code. Everything done to the job list
// under the instance gate is one action. A List_put on a ready queue and the
// Semaphore_post after it are two actions, and other threads may run between
// them, whether or not the C code holds the gate there.

module RcmScheduler {
  import opened Bags
  import opened Options
  import opened RcmTypes
  import opened RcmJobs

  datatype Role = Server | Worker(pool: nat)

  /** Where a thread stands in its loop. */
  datatype Pc =
    | Idle                                              // server: in MessageQ_get; worker: in Semaphore_pend
    | Woken                                             // worker: back from pend
    | Checked                                           // worker: past the terminate check
    | Got(p: Packet)                                    // server: received, not routed yet
    | Hold(p: Packet)                                   // about to process p
    | Drain(p: Packet, sid: nat, rest: seq<Packet>)     // releasing job sid on behalf of p
    | After(jobId: nat, sid: nat)                       // worker: processed a message of the job, gate not taken yet
    | Put(p: Packet, pool: nat)                         // about to List_put on the pool's ready queue
    | Post(pool: nat)                                   // about to Semaphore_post
    | Exited

  datatype Thread = Thread(role: Role, terminate: bool, pc: Pc)

  /** The progress of RcmServer_Instance_finalize_P once the server thread is joined. */
  datatype Finalizer =
    | Serving | Jobs                      // not begun; emptying the job list
    | Marking(pool: nat)                  // setting the terminate flags of a pool
    | Posting(pool: nat, posted: nat)     // one post per worker, then joining
    | Returning(pool: nat)                // returning what is left on the ready queue
    | Finished

  /** History of one job stream: the messages dispatch accepted for it, who has its turn, and what still waits.
    * What became of the other messages is read off the log `done`. */
  datatype Turn = Free | Flying(p: Packet) | Handing(thread: nat)
  datatype Stage = InList | Draining(thread: nat) | Gone
  datatype Stream = Stream(jobId: nat, stage: Stage, accepted: seq<Packet>, turn: Turn, waiting: seq<Packet>)

  datatype State = State(
    ready: seq<seq<Packet>>, sem: seq<nat>,
    jobs: seq<Job>, tracker: nat,
    threads: seq<Thread>,
    shutdown: bool, fin: Finalizer,
    // histories
    received: set<Packet>,
    done: seq<(Packet, Outcome)>,
    streams: seq<Stream>,
    owner: map<Packet, nat>)

  // ----- what is where -----

  function PutOf(pc: Pc): Option<Packet> {
    match pc
    case Got(p) => Some(p)
    case Hold(p) => Some(p)
    case Drain(p, _, _) => Some(p)
    case Put(p, _) => Some(p)
    case _ => None
  }

  function InHand(th: Thread, x: Packet): nat { if PutOf(th.pc) == Some(x) then 1 else 0 }

  function InRest(th: Thread, x: Packet): nat { if th.pc.Drain? then Occurs(th.pc.rest, x) else 0 }

  function InQueue(j: Job, x: Packet): nat { Occurs(j.msgQue, x) }

  function InLog(d: (Packet, Outcome), x: Packet): nat { One(d.0, x) }

  /** How often x is on a ready queue or in some thread's hands. */
  function Flight(s: State, x: Packet): nat {
    Count(s.ready, Occurs, x) + Count(s.threads, InHand, x)
  }

  /** How often x is on a job queue, or on the queue of a job being released. */
  function Waiting(s: State, x: Packet): nat {
    Count(s.jobs, InQueue, x) + Count(s.threads, InRest, x)
  }

  /** How often x is anywhere: with the server, or answered or freed. */
  function Everywhere(s: State, x: Packet): nat {
    Flight(s, x) + Waiting(s, x) + Count(s.done, InLog, x)
  }

  /** The messages of stream sid that left the server by being processed, in that order. */
  function Processed(done: seq<(Packet, Outcome)>, owner: map<Packet, nat>, sid: nat): seq<Packet> {
    if done == [] then []
    else
      var (p, o) := done[|done| - 1];
      Processed(done[..|done| - 1], owner, sid)
      + if p in owner && owner[p] == sid && o != Answered(Unprocessed) then [p] else []
  }

  /** The messages of stream sid that were sent back unprocessed, in that order. */
  function SentBack(done: seq<(Packet, Outcome)>, owner: map<Packet, nat>, sid: nat): seq<Packet> {
    if done == [] then []
    else
      var (p, o) := done[|done| - 1];
      SentBack(done[..|done| - 1], owner, sid)
      + if p in owner && owner[p] == sid && o == Answered(Unprocessed) then [p] else []
  }

  // ----- counting threads -----

  /** Worker of pool i that has taken a semaphore count and not reached the terminate check, or has left. */
  predicate WokenOrGone(th: Thread, i: nat) { th.role == Worker(i) && (th.pc.Woken? || th.pc.Exited?) }

  /** Worker of pool i about to pop, or any thread about to post to pool i. */
  predicate PoppingOrPosting(th: Thread, i: nat) {
    (th.role == Worker(i) && th.pc.Checked?) || th.pc == Post(i)
  }

  predicate InPool(th: Thread, i: nat) { th.role == Worker(i) }

  datatype Class = WG | PP | IP

  predicate Counts(th: Thread, i: nat, c: Class) {
    match c
    case WG => WokenOrGone(th, i)
    case PP => PoppingOrPosting(th, i)
    case IP => InPool(th, i)
  }

  function Tally(ths: seq<Thread>, i: nat, c: Class): nat {
    if ths == [] then 0 else (if Counts(ths[0], i, c) then 1 else 0) + Tally(ths[1..], i, c)
  }

  // ----- the steps -----

  datatype Action =
    | Receive(p: Packet)                  // server: MessageQ_get returns p
    | Route                               // server: in-band, or RcmServer_dispatch_P up to the put
    | Pend(t: nat) | Check(t: nat) | Pop(t: nat)
    | Exec(t: nat, r: ExecResult)         // RcmServer_process_P for the function and query messages
    | AcquireJob(t: nat)                  // ... for JOB_ACQ
    | ReleaseJob(t: nat)                  // ... for JOB_REL: the gated removal
    | DrainOne(t: nat) | DrainEnd(t: nat) // ... returning the released job's messages, then replying
    | HandOver(t: nat)                    // worker: the gated hand-over
    | PutReady(t: nat) | PostSem(t: nat)
    | Shutdown | ServerExit
    | FinBegin | FinJob | FinMark(t: nat) | FinMarked | FinPost | FinJoined | FinReturn

  /** The pc a thread takes up when it is finished with packet p. */
  function Finish(th: Thread, p: Packet, owner: map<Packet, nat>): Pc {
    if th.role.Server? || p.jobId == DISCRETE_JOB_ID then Idle
    else After(p.jobId, if p in owner then owner[p] else 0)
  }

  /** Only thread t moved; ready queues, semaphores, finalizer and the received set are as before. */
  predicate OnlyThread(s: State, s': State, t: nat) {
    && s'.ready == s.ready && s'.sem == s.sem && s'.fin == s.fin && s'.received == s.received
    && t < |s.threads| == |s'.threads|
    && s'.threads == s.threads[t := s.threads[t].(pc := s'.threads[t].pc)]
  }

  function SetPc(s: State, t: nat, pc: Pc): (s': State)
    requires t < |s.threads|
    ensures OnlyThread(s, s', t) && s'.threads[t].pc == pc
  {
    s.(threads := s.threads[t := s.threads[t].(pc := pc)])
  }

  /** Thread t is done with p, which has left the server. If p is a message of a job, its turn passes to t
    * (a worker that goes on to the hand-over). */
  function Complete(s: State, t: nat, p: Packet, o: Outcome): (s': State)
    requires t < |s.threads|
    ensures OnlyThread(s, s', t) && s'.threads[t].pc == Finish(s.threads[t], p, s.owner) && s'.jobs == s.jobs
  {
    var s1 := SetPc(s, t, Finish(s.threads[t], p, s.owner)).(done := s.done + [(p, o)]);
    if p in s.owner && s.owner[p] < |s.streams| then
      var st := s.streams[s.owner[p]];
      s1.(streams := s.streams[s.owner[p] := st.(turn := Handing(t))])
    else s1
  }

  /** Every packet of a job must go to a worker: the scope of this model. */
  predicate ScopedPacket(s: State, p: Packet) {
    && 0x8000 <= p.poolId < 0x1_0000
    && p.jobId <= MAX_JOB_ID
    && (InBand(s, p) ==> p.jobId == DISCRETE_JOB_ID)
  }

  /** The server thread itself processes default-pool packets when the default pool has no threads. */
  predicate InBand(s: State, p: Packet) {
    p.poolId == DEFAULT_POOL_ID && Tally(s.threads, 0, IP) == 0
  }

  /** The id is carried by a message on a ready queue or in a thread's hands, or by a hand-over not done yet. */
  predicate InFlight(s: State, jobId: nat) {
    exists sid :: 0 <= sid < |s.streams| && s.streams[sid].jobId == jobId && s.streams[sid].turn != Free
  }

  predicate UsesJobs(p: Packet) { p.jobId != DISCRETE_JOB_ID || p.kind.JobAcq? || p.kind.JobRel? }

  /** No job message, and no job-list request, is in flight. */
  predicate Settled(s: State) {
    && (forall t :: 0 <= t < |s.threads| ==>
         match s.threads[t].pc
         case Idle => true case Woken => true case Checked => true case Exited => true
         case Hold(p) => !UsesJobs(p)
         case _ => false)
    && (forall i, k :: 0 <= i < |s.ready| && 0 <= k < |s.ready[i]| ==> !UsesJobs(s.ready[i][k]))
  }

  predicate IsWorker(s: State, t: nat) {
    t < |s.threads| && s.threads[t].role.Worker? && s.threads[t].role.pool < |s.ready| == |s.sem|
  }

  predicate AllExited(s: State, i: nat) {
    forall t :: 0 <= t < |s.threads| && s.threads[t].role == Worker(i) ==> s.threads[t].pc.Exited?
  }

  predicate AllMarked(s: State, i: nat) {
    forall t :: 0 <= t < |s.threads| && s.threads[t].role == Worker(i) ==> s.threads[t].terminate
  }

  predicate Enabled(s: State, a: Action) {
    |s.threads| > 0 && |s.sem| == |s.ready| &&
    match a
    case Receive(p) => s.threads[0].pc.Idle? && s.fin.Serving? && p !in s.received && ScopedPacket(s, p)
    case Route => s.threads[0].pc.Got?
    case Pend(t) => IsWorker(s, t) && s.threads[t].pc.Idle? && s.sem[s.threads[t].role.pool] > 0
    case Check(t) => IsWorker(s, t) && s.threads[t].pc.Woken?
    case Pop(t) => IsWorker(s, t) && s.threads[t].pc.Checked?
    case Exec(t, r) => t < |s.threads| && s.threads[t].pc.Hold? && !s.threads[t].pc.p.kind.JobAcq? && !s.threads[t].pc.p.kind.JobRel?
    case AcquireJob(t) =>
      && t < |s.threads| && s.threads[t].pc.Hold? && s.threads[t].pc.p.kind.JobAcq?
      // scope: a released id is not given out again while a message carrying it is in flight
      && !InFlight(s, AcquireId(s.jobs, s.tracker).0)
    case ReleaseJob(t) => t < |s.threads| && s.threads[t].pc.Hold? && s.threads[t].pc.p.kind.JobRel?
    case DrainOne(t) => t < |s.threads| && s.threads[t].pc.Drain? && s.threads[t].pc.rest != []
    case DrainEnd(t) => t < |s.threads| && s.threads[t].pc.Drain? && s.threads[t].pc.rest == []
    case HandOver(t) => IsWorker(s, t) && s.threads[t].pc.After?
    case PutReady(t) => t < |s.threads| && s.threads[t].pc.Put? && s.threads[t].pc.pool < |s.ready|
    case PostSem(t) => t < |s.threads| && s.threads[t].pc.Post? && s.threads[t].pc.pool < |s.ready|
    case Shutdown => !s.shutdown
    case ServerExit => s.shutdown && s.threads[0].pc.Idle?
    // scope: finalize goes past the join of the server thread only when nothing in flight needs the job list
    case FinBegin => s.fin.Serving? && s.threads[0].pc.Exited? && Settled(s)
    case FinJob => s.fin.Jobs?
    case FinMark(t) => s.fin.Marking? && t < |s.threads| && s.threads[t].role == Worker(s.fin.pool) && !s.threads[t].terminate
    case FinMarked => s.fin.Marking? && s.fin.pool < |s.ready| && AllMarked(s, s.fin.pool)
    case FinPost => s.fin.Posting? && s.fin.pool < |s.ready| && s.fin.posted < Tally(s.threads, s.fin.pool, IP)
    case FinJoined => s.fin.Posting? && s.fin.posted == Tally(s.threads, s.fin.pool, IP) && AllExited(s, s.fin.pool)
    case FinReturn => s.fin.Returning? && s.fin.pool < |s.ready|
  }

  /** RcmServer_dispatch_P for packet p, up to the put on a ready queue; an error is answered at once. */
  function Dispatch(s: State, p: Packet): (s': State)
    requires |s.threads| > 0
    ensures OnlyThread(s, s', 0)
    ensures s'.threads[0].pc.Idle?
            || (s'.threads[0].pc.Put? && s'.threads[0].pc.p == p && Resolve(p.poolId, |s.ready|) == Some(s'.threads[0].pc.pool))
  {
    var pool := Resolve(p.poolId, |s.ready|);
    if pool.None? then
      SetPc(s, 0, Idle).(done := s.done + [(p, Answered(PoolNotFound))])
    else if p.jobId == DISCRETE_JOB_ID then
      SetPc(s, 0, Put(p, pool.value))
    else
      var (route, jobs) := Admit(s.jobs, p);
      match route
      case NoJob => SetPc(s, 0, Idle).(done := s.done + [(p, Answered(JobNotFound))])
      case ToReady(sid) =>
        SetPc(s, 0, Put(p, pool.value)).(jobs := jobs, owner := s.owner[p := sid],
          streams := if sid < |s.streams| then
            s.streams[sid := s.streams[sid].(accepted := s.streams[sid].accepted + [p], turn := Flying(p))]
          else s.streams)
      case ToJob(sid) =>
        SetPc(s, 0, Idle).(jobs := jobs, owner := s.owner[p := sid],
          streams := if sid < |s.streams| then
            s.streams[sid := s.streams[sid].(accepted := s.streams[sid].accepted + [p],
                                             waiting := s.streams[sid].waiting + [p])]
          else s.streams)
  }

  /** JOB_ACQ: a new job stream at the end of the list, or an error reply. */
  function Acquire(s: State, t: nat, p: Packet): (s': State)
    requires t < |s.threads|
    ensures OnlyThread(s, s', t) && s'.threads[t].pc == Finish(s.threads[t], p, s.owner)
  {
    var (id, tracker) := AcquireId(s.jobs, s.tracker);
    if id == DISCRETE_JOB_ID then Complete(s.(tracker := tracker), t, p, Answered(Error))
    else
      Complete(s.(tracker := tracker,
                  jobs := s.jobs + [Job(id, true, [], |s.streams|)],
                  streams := s.streams + [Stream(id, InList, [], Free, [])]),
               t, p, Answered(Success))
  }

  /** JOB_REL: the job leaves the list, and its queue is thread t's to return; or an error reply. */
  function Release(s: State, t: nat, p: Packet): (s': State)
    requires t < |s.threads| && p.kind.JobRel?
    ensures OnlyThread(s, s', t)
    ensures s'.threads[t].pc == Finish(s.threads[t], p, s.owner) || (s'.threads[t].pc.Drain? && s'.threads[t].pc.p == p)
  {
    var (job, jobs) := Unlist(s.jobs, p.kind.target);
    match job
    case None => Complete(s, t, p, Answered(JobNotFound))
    case Some(j) =>
      SetPc(s, t, Drain(p, j.sid, j.msgQue)).(jobs := jobs,
        streams := if j.sid < |s.streams| then s.streams[j.sid := s.streams[j.sid].(stage := Draining(t))]
                   else s.streams)
  }

  /** One message of the released job goes back unprocessed. */
  function ReturnNext(s: State, t: nat): (s': State)
    requires t < |s.threads| && s.threads[t].pc.Drain? && s.threads[t].pc.rest != []
    ensures OnlyThread(s, s', t) && s'.threads[t].pc == s.threads[t].pc.(rest := s.threads[t].pc.rest[1..])
  {
    var Drain(p, sid, rest) := s.threads[t].pc;
    SetPc(s, t, Drain(p, sid, rest[1..])).(done := s.done + [(rest[0], Answered(Unprocessed))],
      streams := if sid < |s.streams| then
          s.streams[sid := s.streams[sid].(waiting := rest[1..])]
        else s.streams)
  }

  function EndRelease(s: State, t: nat): (s': State)
    requires t < |s.threads| && s.threads[t].pc.Drain?
    ensures OnlyThread(s, s', t) && s'.threads[t].pc == Finish(s.threads[t], s.threads[t].pc.p, s.owner)
  {
    var Drain(p, sid, _) := s.threads[t].pc;
    Complete(s.(streams := if sid < |s.streams| then s.streams[sid := s.streams[sid].(stage := Gone)]
                           else s.streams),
             t, p, Answered(Success))
  }

  /** The worker passes the job's turn on: to its next message, or back to the idle job. A queued message whose
    * pool does not resolve is answered and then, with `packet` still set, processed by the same worker. */
  function HandTurn(s: State, t: nat, jobId: nat, sid: nat): (s': State)
    requires t < |s.threads|
    ensures OnlyThread(s, s', t)
    ensures var pc := s'.threads[t].pc;
            pc.Idle? || pc.Hold? || (pc.Put? && Resolve(pc.p.poolId, |s.ready|) == Some(pc.pool))
  {
    var (next, jobs) := HandOn(s.jobs, jobId);
    match next
    case None => SetPc(s, t, Idle).(jobs := jobs,
        streams := if sid < |s.streams| then s.streams[sid := s.streams[sid].(turn := Free)] else s.streams)
    case Some(q) =>
      var pool := Resolve(q.poolId, |s.ready|);
      var s1 := s.(jobs := jobs,
        streams := if sid < |s.streams| && s.streams[sid].waiting != [] then
            s.streams[sid := s.streams[sid].(turn := Flying(q), waiting := s.streams[sid].waiting[1..])]
          else s.streams);
      if pool.None? then SetPc(s1, t, Hold(q)).(done := s.done + [(q, Answered(PoolNotFound))])
      else SetPc(s1, t, Put(q, pool.value))
  }

  function Apply(s: State, a: Action): State
    requires Enabled(s, a)
  {
    match a
    case Receive(p) => SetPc(s, 0, Got(p)).(received := s.received + {p})
    case Route =>
      var p := s.threads[0].pc.p;
      if InBand(s, p) then SetPc(s, 0, Hold(p)) else Dispatch(s, p)
    case Pend(t) =>
      var i := s.threads[t].role.pool;
      SetPc(s, t, Woken).(sem := s.sem[i := s.sem[i] - 1])
    case Check(t) => SetPc(s, t, if s.threads[t].terminate then Exited else Checked)
    case Pop(t) =>
      var i := s.threads[t].role.pool;
      if s.ready[i] == [] then SetPc(s, t, Idle)
      else SetPc(s, t, Hold(s.ready[i][0])).(ready := s.ready[i := s.ready[i][1..]])
    case Exec(t, r) => Complete(s, t, s.threads[t].pc.p, Reply(s.threads[t].pc.p.kind, r))
    case AcquireJob(t) => Acquire(s, t, s.threads[t].pc.p)
    case ReleaseJob(t) => Release(s, t, s.threads[t].pc.p)
    case DrainOne(t) => ReturnNext(s, t)
    case DrainEnd(t) => EndRelease(s, t)
    case HandOver(t) => HandTurn(s, t, s.threads[t].pc.jobId, s.threads[t].pc.sid)
    case PutReady(t) =>
      var Put(p, i) := s.threads[t].pc;
      SetPc(s, t, Post(i)).(ready := s.ready[i := s.ready[i] + [p]])
    case PostSem(t) =>
      var i := s.threads[t].pc.pool;
      SetPc(s, t, Idle).(sem := s.sem[i := s.sem[i] + 1])
    case Shutdown => s.(shutdown := true)
    case ServerExit => SetPc(s, 0, Exited)
    case FinBegin => s.(fin := Jobs)
    case FinJob =>
      if s.jobs == [] then s.(fin := Marking(0))
      else if s.jobs[0].msgQue == [] then
        s.(jobs := s.jobs[1..],
           streams := if s.jobs[0].sid < |s.streams| then
               s.streams[s.jobs[0].sid := s.streams[s.jobs[0].sid].(stage := Gone)] else s.streams)
      else
        var q := s.jobs[0].msgQue;
        s.(jobs := s.jobs[0 := s.jobs[0].(msgQue := q[1..])], done := s.done + [(q[0], Answered(Unprocessed))],
           streams := if s.jobs[0].sid < |s.streams| then
               s.streams[s.jobs[0].sid := s.streams[s.jobs[0].sid].(waiting := q[1..])] else s.streams)
    case FinMark(t) => s.(threads := s.threads[t := s.threads[t].(terminate := true)])
    case FinMarked => s.(fin := Posting(s.fin.pool, 0))
    case FinPost => s.(sem := s.sem[s.fin.pool := s.sem[s.fin.pool] + 1], fin := Posting(s.fin.pool, s.fin.posted + 1))
    case FinJoined => s.(fin := Returning(s.fin.pool))
    case FinReturn =>
      var i := s.fin.pool;
      if s.ready[i] != [] then
        s.(ready := s.ready[i := s.ready[i][1..]], done := s.done + [(s.ready[i][0], Answered(Unprocessed))])
      else s.(fin := if i + 1 < |s.ready| then Marking(i + 1) else Finished)
  }

  // ----- runs -----

  /** RcmServer_POOL_MAP_LEN bounds the default pool and the worker pools together. */
  const MAX_POOLS: nat := 4

  /** A server just created: the server thread, then the workers of the pools, all waiting. */
  predicate Init(s: State) {
    && 1 <= |s.ready| == |s.sem| <= MAX_POOLS
    && (forall i :: 0 <= i < |s.ready| ==> s.ready[i] == [] && s.sem[i] == 0)
    && s.jobs == [] && s.tracker == MAX_JOB_ID
    && |s.threads| > 0 && s.threads[0].role.Server?
    && (forall t :: 0 <= t < |s.threads| ==> s.threads[t].pc.Idle? && !s.threads[t].terminate)
    && (forall t :: 1 <= t < |s.threads| ==> s.threads[t].role.Worker? && s.threads[t].role.pool < |s.ready|)
    && !s.shutdown && s.fin.Serving?
    && s.received == {} && s.done == [] && s.streams == [] && s.owner == map[]
  }

  /** s can be followed by these actions, one after the other. */
  predicate CanRun(s: State, actions: seq<Action>)
    decreases |actions|
  {
    actions == [] || (Enabled(s, actions[0]) && CanRun(Apply(s, actions[0]), actions[1..]))
  }

  function Run(s: State, actions: seq<Action>): State
    requires CanRun(s, actions)
    decreases |actions|
  {
    if actions == [] then s else Run(Apply(s, actions[0]), actions[1..])
  }
}
