// Progress of the RCM server: without new arrivals every step of the server
// and its workers lowers a measure, and they are never stuck before the work
// is done.

module RcmProgress {
  import opened Bags
  import opened Options
  import opened RcmTypes
  import opened RcmJobs
  import opened RcmScheduler
  import opened RcmInvariant
  import opened RcmMoves
  import opened RcmPools
  import opened RcmStreams
  import opened RcmTheorems

  /** The steps the server and its workers take by themselves. */
  predicate Internal(a: Action) {
    a.Route? || a.Pend? || a.Check? || a.Pop? || a.Exec? || a.AcquireJob? || a.ReleaseJob? || a.DrainOne? || a.DrainEnd?
    || a.HandOver? || a.PutReady? || a.PostSem?
  }

  // ----- the measure: how many steps are still owed, at most -----

  function ThreadWork(th: Thread, u: ()): nat {
    match th.pc
    case Idle => 0 case Exited => 0 case Woken => 2 case Checked => 1 case Got(_) => 11 case Hold(_) => 4
    case Drain(_, _, rest) => 3 + 10 * |rest| case After(_, _) => 1 case Put(_, _) => 9 case Post(_) => 4
  }

  function ReadyWork(q: seq<Packet>, u: ()): nat { 4 * |q| }

  function SemWork(n: nat, u: ()): nat { 3 * n }

  function JobWork(j: Job, u: ()): nat { 10 * |j.msgQue| }

  function Work(s: State): nat {
    Count(s.threads, ThreadWork, ()) + Count(s.ready, ReadyWork, ()) + Count(s.sem, SemWork, ()) + Count(s.jobs, JobWork, ())
  }

  lemma ThreadWorkMove(s: State, s': State, t: nat)
    requires t < |s.threads| == |s'.threads| && s'.threads == s.threads[t := s'.threads[t]]
    ensures Count(s'.threads, ThreadWork, ()) + ThreadWork(s.threads[t], ()) == Count(s.threads, ThreadWork, ()) + ThreadWork(s'.threads[t], ())
  {
    CountUpdate(s.threads, t, s'.threads[t], ThreadWork, ());
  }

  lemma DispatchWorks(s: State, p: Packet)
    requires |s.threads| > 0 && s.threads[0].pc == Got(p)
    ensures Work(Dispatch(s, p)) < Work(s)
  {
    hide Count, Resolve;
    var s' := Dispatch(s, p);
    ThreadWorkMove(s, s', 0);
    var k := Find(s.jobs, p.jobId);
    if s'.jobs != s.jobs {
      assert s'.jobs == s.jobs[k := s'.jobs[k]];
      CountUpdate(s.jobs, k, s'.jobs[k], JobWork, ());
    }
  }

  lemma HandTurnWorks(s: State, t: nat, jobId: nat, sid: nat)
    requires t < |s.threads| && s.threads[t].pc == After(jobId, sid)
    ensures Work(HandTurn(s, t, jobId, sid)) < Work(s)
  {
    hide Count, Resolve;
    var s' := HandTurn(s, t, jobId, sid);
    ThreadWorkMove(s, s', t);
    var k := Find(s.jobs, jobId);
    if k < |s.jobs| {
      assert s'.jobs == s.jobs[k := s'.jobs[k]];
      CountUpdate(s.jobs, k, s'.jobs[k], JobWork, ());
    }
  }

  lemma ReleaseWorks(s: State, t: nat, p: Packet)
    requires t < |s.threads| && s.threads[t].pc == Hold(p) && p.kind.JobRel?
    ensures Work(Release(s, t, p)) < Work(s)
  {
    hide Count;
    var s' := Release(s, t, p);
    ThreadWorkMove(s, s', t);
    var k := Find(s.jobs, p.kind.target);
    if k < |s.jobs| {
      assert s'.jobs == s.jobs[..k] + s.jobs[k + 1..];
      CountDrop(s.jobs, k, JobWork, ());
    }
  }

  lemma AcquireWorks(s: State, t: nat, p: Packet)
    requires t < |s.threads| && s.threads[t].pc == Hold(p)
    ensures Work(Acquire(s, t, p)) < Work(s)
  {
    hide Count, SearchId;
    var s' := Acquire(s, t, p);
    ThreadWorkMove(s, s', t);
    if s'.jobs != s.jobs {
      assert s'.jobs == s.jobs + [s'.jobs[|s.jobs|]];
      CountAppend(s.jobs, s'.jobs[|s.jobs|], JobWork, ());
    }
  }

  lemma QueueWorks(s: State, a: Action)
    requires Enabled(s, a) && (a.Pend? || a.Pop? || a.PutReady? || a.PostSem?)
    ensures Work(Apply(s, a)) < Work(s)
  {
    hide Count, Settled, InFlight, AllMarked, AllExited, Tally, SearchId, Find;
    var s' := Apply(s, a);
    var t := Actor(a);
    ThreadWorkMove(s, s', t);
    match a
    case Pend(_) =>
      CountUpdate(s.sem, s.threads[t].role.pool, s.sem[s.threads[t].role.pool] - 1, SemWork, ());
    case Pop(_) =>
      var i := s.threads[t].role.pool;
      if s.ready[i] != [] { CountUpdate(s.ready, i, s.ready[i][1..], ReadyWork, ()); }
    case PutReady(_) =>
      var Put(p, i) := s.threads[t].pc;
      CountUpdate(s.ready, i, s.ready[i] + [p], ReadyWork, ());
    case PostSem(_) =>
      CountUpdate(s.sem, s.threads[t].pc.pool, s.sem[s.threads[t].pc.pool] + 1, SemWork, ());
  }

  /** The steps that change no queue and no count. */
  lemma ThreadOnlyWorks(s: State, s': State, t: nat)
    requires s'.ready == s.ready && s'.sem == s.sem && s'.jobs == s.jobs
    requires t < |s.threads| == |s'.threads| && s'.threads == s.threads[t := s'.threads[t]]
    requires ThreadWork(s'.threads[t], ()) < ThreadWork(s.threads[t], ())
    ensures Work(s') < Work(s)
  {
    hide Count;
    ThreadWorkMove(s, s', t);
  }

  /** Every internal step lowers the measure. */
  lemma WorkDrops(s: State, a: Action)
    requires Enabled(s, a) && Internal(a)
    ensures Work(Apply(s, a)) < Work(s)
  {
    hide Count, Work, Settled, InFlight, AllMarked, AllExited, Tally, SearchId, Dispatch, Acquire, Release, HandTurn, Find;
    var s' := Apply(s, a);
    match a
    case Route => if InBand(s, s.threads[0].pc.p) { ThreadOnlyWorks(s, s', 0); } else { DispatchWorks(s, s.threads[0].pc.p); }
    case AcquireJob(t) => AcquireWorks(s, t, s.threads[t].pc.p);
    case ReleaseJob(t) => ReleaseWorks(s, t, s.threads[t].pc.p);
    case HandOver(t) => HandTurnWorks(s, t, s.threads[t].pc.jobId, s.threads[t].pc.sid);
    case Check(t) => ThreadOnlyWorks(s, s', t);
    case Exec(t, _) => ThreadOnlyWorks(s, s', t);
    case DrainOne(t) => ThreadOnlyWorks(s, s', t);
    case DrainEnd(t) => ThreadOnlyWorks(s, s', t);
    case _ => QueueWorks(s, a);
  }

  /** A run without arrivals is no longer than the measure of the state it starts in. */
  lemma {:induction false} InternalRunsEnd(s: State, actions: seq<Action>)
    requires CanRun(s, actions) && forall a :: a in actions ==> Internal(a)
    ensures |actions| <= Work(s)
    decreases |actions|
  {
    hide Work, Enabled, Apply;
    if actions != [] {
      assert actions[0] in actions;
      WorkDrops(s, actions[0]);
      InternalRunsEnd(Apply(s, actions[0]), actions[1..]);
    }
  }

  // ----- never stuck -----

  /** Nothing left to do without new arrivals. */
  ghost predicate Stuck(s: State) {
    forall a :: Internal(a) ==> !Enabled(s, a)
  }

  /** Scope: the acquisitions under way do not meet an id that is still in flight. */
  ghost predicate AcquisitionsFree(s: State) {
    forall t :: 0 <= t < |s.threads| && s.threads[t].pc.Hold? && s.threads[t].pc.p.kind.JobAcq? ==>
      !InFlight(s, AcquireId(s.jobs, s.tracker).0)
  }

  predicate Staffed(s: State) {
    forall i :: 0 <= i < |s.ready| ==> exists t :: 0 <= t < |s.threads| && s.threads[t].role == Worker(i)
  }

  /** A thread that is neither waiting nor gone can take its next step. */
  lemma CanStep(s: State, t: nat) returns (a: Action)
    requires Shape(s) && AcquisitionsFree(s) && t < |s.threads|
    requires !s.threads[t].pc.Idle? && !s.threads[t].pc.Exited?
    ensures Internal(a) && Enabled(s, a)
  {
    hide Tally, InFlight, SearchId, Settled, Resolve;
    assert PcOk(s, t) && PcOk(s, 0);
    match s.threads[t].pc
    case Woken => a := Check(t);
    case Checked => a := Pop(t);
    case Got(_) => a := Route;
    case Hold(p) => a := if p.kind.JobAcq? then AcquireJob(t) else if p.kind.JobRel? then ReleaseJob(t) else Exec(t, FxnOk);
    case Drain(_, _, rest) => a := if rest == [] then DrainEnd(t) else DrainOne(t);
    case After(_, _) => a := HandOver(t);
    case Put(_, _) => a := PutReady(t);
    case Post(_) => a := PostSem(t);
  }

  /** When stuck, every thread is waiting or gone. */
  lemma StuckIdle(s: State, t: nat)
    requires Shape(s) && Stuck(s) && AcquisitionsFree(s) && t < |s.threads|
    ensures s.threads[t].pc.Idle? || s.threads[t].pc.Exited?
  {
    hide Shape, AcquisitionsFree, Enabled;
    if !s.threads[t].pc.Idle? && !s.threads[t].pc.Exited? {
      var a := CanStep(s, t);
    }
  }

  /** When stuck, a waiting worker has no count to take. */
  lemma StuckSem(s: State, t: nat)
    requires Shape(s) && Stuck(s) && IsWorker(s, t) && s.threads[t].pc.Idle?
    ensures s.sem[s.threads[t].role.pool] == 0
  {
    assert Internal(Pend(t)) && !Enabled(s, Pend(t));
  }

  /** When stuck, the ready queues are empty: an unserved packet would have its semaphore count. */
  lemma StuckReadyEmpty(s: State, i: nat)
    requires Reachable(s) && s.fin.Serving? && Stuck(s) && AcquisitionsFree(s) && Staffed(s) && i < |s.ready|
    ensures s.ready[i] == []
  {
    hide Reachable, Conserved, JobStreams, Tally, InFlight, SearchId, Settled, Stuck, AcquisitionsFree;
    ReachableInv(s);
    assert OpenPool(s, i) && SemOk(s, i);
    forall t | 0 <= t < |s.threads| ensures !Counts(s.threads[t], i, WG) && !Counts(s.threads[t], i, PP) {
      StuckIdle(s, t);
      if s.threads[t].role.Worker? { WorkersStayWhileServing(s, t); }
    }
    TallyZero(s.threads, i, WG);
    TallyZero(s.threads, i, PP);
    var t :| 0 <= t < |s.threads| && s.threads[t].role == Worker(i);
    StuckIdle(s, t);
    WorkersStayWhileServing(s, t);
    StuckSem(s, t);
  }

  // ----- workers leave only once marked -----

  ghost predicate LeaveOnlyMarked(s: State) {
    forall t :: 0 <= t < |s.threads| && s.threads[t].role.Worker? && s.threads[t].pc.Exited? ==> s.threads[t].terminate
  }

  lemma LeaveOnlyMarkedKept(s: State, a: Action)
    requires Shape(s) && LeaveOnlyMarked(s) && Enabled(s, a)
    ensures LeaveOnlyMarked(Apply(s, a))
  {
    hide Tally, Settled, InFlight, ScopedPacket, SearchId, Find, Dispatch, Acquire, Release, ReturnNext, EndRelease, HandTurn, Complete;
    ThreadsStay(s, a);
    assert PcOk(s, 0);
    if JobStep(a) && !a.FinMark? { JobStepFrame(s, a); }
  }

  lemma {:induction false} LeaveOnlyMarkedRun(s: State, actions: seq<Action>)
    requires Inv(s) && LeaveOnlyMarked(s) && CanRun(s, actions)
    ensures LeaveOnlyMarked(Run(s, actions))
    decreases |actions|
  {
    hide Conserved, JobStreams, PoolsOk, FinOk, Enabled, Apply, LeaveOnlyMarked;
    if actions != [] {
      InvKept(s, actions[0]);
      LeaveOnlyMarkedKept(s, actions[0]);
      LeaveOnlyMarkedRun(Apply(s, actions[0]), actions[1..]);
    }
  }

  lemma WorkersStayWhileServing(s: State, t: nat)
    requires Reachable(s) && s.fin.Serving? && t < |s.threads| && s.threads[t].role.Worker?
    ensures !s.threads[t].pc.Exited?
  {
    hide Shape, Conserved, JobStreams, PoolsOk, Enabled, Apply, Run, CanRun;
    var s0, actions :| Init(s0) && CanRun(s0, actions) && s == Run(s0, actions);
    InitInv(s0);
    LeaveOnlyMarkedRun(s0, actions);
    ReachableInv(s);
  }

  // ----- the work gets done -----

  /** Stuck means done: every packet received was answered or freed, once; every listed job is idle with an empty
    * queue; and each job's accepted messages are exactly those processed or sent back, in order. */
  lemma StuckMeansDone(s: State)
    requires Reachable(s) && s.fin.Serving? && Stuck(s) && AcquisitionsFree(s) && Staffed(s)
    ensures forall x :: Count(s.done, InLog, x) == if x in s.received then 1 else 0
    ensures forall k :: 0 <= k < |s.jobs| ==> s.jobs[k].empty && s.jobs[k].msgQue == []
    ensures forall sid :: 0 <= sid < |s.streams| ==>
              s.streams[sid].accepted == Processed(s.done, s.owner, sid) + SentBack(s.done, s.owner, sid)
  {
    hide Count, Reachable, Processed, SentBack, PoolsOk, FinOk, Stuck, AcquisitionsFree, Staffed, Shape;
    ReachableInv(s);
    forall t | 0 <= t < |s.threads| ensures s.threads[t].pc.Idle? || s.threads[t].pc.Exited? { StuckIdle(s, t); }
    forall i | 0 <= i < |s.ready| ensures s.ready[i] == [] { StuckReadyEmpty(s, i); }
    SettledIdle(s);
    forall sid | 0 <= sid < |s.streams|
      ensures s.streams[sid].accepted == Processed(s.done, s.owner, sid) + SentBack(s.done, s.owner, sid)
    {
      assert Ordered(s, sid) && StageOk(s, sid);
      if s.streams[sid].stage.InList? {
        var k :| 0 <= k < |s.jobs| && s.jobs[k].sid == sid;
        assert JobOk(s, k);
      }
    }
    forall x ensures Count(s.done, InLog, x) == Everywhere(s, x) { StuckNowhereElse(s, x); }
  }

  lemma StuckNowhereElse(s: State, x: Packet)
    requires forall t :: 0 <= t < |s.threads| ==> s.threads[t].pc.Idle? || s.threads[t].pc.Exited?
    requires forall k :: 0 <= k < |s.jobs| ==> s.jobs[k].msgQue == []
    requires forall i :: 0 <= i < |s.ready| ==> s.ready[i] == []
    ensures Flight(s, x) == 0 && Waiting(s, x) == 0
  {
    if Count(s.ready, Occurs, x) > 0 { var i := UptoMember(s.ready, |s.ready|, Occurs, x); }
    if Count(s.threads, InHand, x) > 0 { var t := UptoMember(s.threads, |s.threads|, InHand, x); }
    if Count(s.threads, InRest, x) > 0 { var t := UptoMember(s.threads, |s.threads|, InRest, x); }
    if Count(s.jobs, InQueue, x) > 0 { var k := UptoMember(s.jobs, |s.jobs|, InQueue, x); }
  }
}
