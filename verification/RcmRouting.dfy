// Where the RCM server sends each packet, and what it answers: for every
// reachable state, in terms of the packets, the job list and the log alone.

module RcmRouting {
  import opened Bags
  import opened Options
  import opened RcmTypes
  import opened RcmJobs
  import opened RcmScheduler
  import opened RcmInvariant
  import opened RcmMoves
  import opened RcmPools
  import opened RcmTheorems

  // ----- pools -----

  /** A packet on its way to a pool, or with one of its workers, names that pool in bits 7:0 of its pool id. */
  predicate ThreadRouted(th: Thread) {
    && (th.pc.Put? ==> th.pc.p.poolId % 0x100 == th.pc.pool)
    && (th.role.Worker? && (th.pc.Hold? || th.pc.Drain?) ==> th.pc.p.poolId % 0x100 == th.role.pool)
  }

  predicate Routed(s: State) {
    && (forall i, k :: 0 <= i < |s.ready| && 0 <= k < |s.ready[i]| ==> s.ready[i][k].poolId % 0x100 == i)
    && (forall t :: 0 <= t < |s.threads| ==> ThreadRouted(s.threads[t]))
  }

  /** A step of one thread, the ready queues staying as they are. */
  lemma RoutedThread(s: State, s': State, t: nat)
    requires Routed(s) && OnlyThread(s, s', t) && ThreadRouted(s'.threads[t])
    ensures Routed(s')
  {
    forall u | 0 <= u < |s'.threads| ensures ThreadRouted(s'.threads[u]) {
      if u != t { assert s'.threads[u] == s.threads[u]; }
    }
  }

  lemma DispatchRouted(s: State, p: Packet)
    requires |s.threads| > 0 && s.threads[0].role.Server? && Routed(s)
    ensures Routed(Dispatch(s, p))
  {
    hide Find;
    RoutedThread(s, Dispatch(s, p), 0);
  }

  lemma HandTurnRouted(s: State, t: nat, jobId: nat, sid: nat)
    requires t < |s.threads| && Routed(s)
    requires forall k :: 0 <= k < |s.jobs| && s.jobs[k].msgQue != [] ==> Resolve(s.jobs[k].msgQue[0].poolId, |s.ready|).Some?
    ensures Routed(HandTurn(s, t, jobId, sid))
  {
    hide Find;
    RoutedThread(s, HandTurn(s, t, jobId, sid), t);
  }

  lemma QueueRouted(s: State, a: Action)
    requires Enabled(s, a) && Routed(s)
    requires a.Pend? || a.Check? || a.Pop? || a.PutReady? || a.PostSem?
    ensures Routed(Apply(s, a))
  {
    hide Tally;
    var s' := Apply(s, a);
    var t := Actor(a);
    assert ThreadRouted(s.threads[t]);
    forall u | 0 <= u < |s'.threads| ensures ThreadRouted(s'.threads[u]) {
      if u != t { assert s'.threads[u] == s.threads[u]; }
    }
  }

  lemma FinRouted(s: State, a: Action)
    requires Enabled(s, a) && Routed(s)
    requires a.Shutdown? || a.FinBegin? || a.FinJob? || a.FinMark? || a.FinMarked? || a.FinPost? || a.FinJoined? || a.FinReturn?
    ensures Routed(Apply(s, a))
  {
    hide Tally, Settled;
    var s' := Apply(s, a);
    forall u | 0 <= u < |s'.threads| ensures ThreadRouted(s'.threads[u]) {
      assert ThreadRouted(s.threads[u]);
    }
  }

  lemma RoutedKept(s: State, a: Action)
    requires Inv(s) && Enabled(s, a) && Routed(s)
    ensures Routed(Apply(s, a))
  {
    hide Count, Tally, Settled, InFlight, AcquireId, Unlist, Dispatch, HandTurn, Conserved, JobStreams, PoolsOk, FinOk, Routed;
    var s' := Apply(s, a);
    match a
    case Route =>
      assert PcOk(s, 0);
      if InBand(s, s.threads[0].pc.p) { RoutedThread(s, s', 0); } else { DispatchRouted(s, s.threads[0].pc.p); }
    case HandOver(t) =>
      QueuesResolve(s);
      HandTurnRouted(s, t, s.threads[t].pc.jobId, s.threads[t].pc.sid);
    case Receive(_) =>
      assert PcOk(s, 0);
      var s1 := SetPc(s, 0, s'.threads[0].pc);
      RoutedThread(s, s1, 0);
      SameRouted(s1, s');
    case ServerExit => RoutedThread(s, s', 0);
    case Exec(t, _) => RoutedThread(s, s', t);
    case AcquireJob(t) => RoutedThread(s, s', t);
    case ReleaseJob(t) =>
      HeldRouted(s, t);
      RoutedThread(s, s', t);
    case DrainOne(t) =>
      HeldRouted(s, t);
      RoutedThread(s, s', t);
    case DrainEnd(t) => RoutedThread(s, s', t);
    case Pend(_) => QueueRouted(s, a);
    case Check(_) => QueueRouted(s, a);
    case Pop(_) => QueueRouted(s, a);
    case PutReady(_) => QueueRouted(s, a);
    case PostSem(_) => QueueRouted(s, a);
    case _ => FinRouted(s, a);
  }

  lemma SameRouted(s: State, s': State)
    requires Routed(s) && s'.threads == s.threads && s'.ready == s.ready
    ensures Routed(s')
  {
  }

  lemma HeldRouted(s: State, t: nat)
    requires Routed(s) && t < |s.threads|
    ensures ThreadRouted(s.threads[t])
  {
  }

  lemma {:induction false} RunRouted(s: State, actions: seq<Action>)
    requires Inv(s) && Routed(s) && CanRun(s, actions)
    ensures Routed(Run(s, actions))
    decreases |actions|
  {
    hide Inv, Enabled, Apply, Routed;
    if actions != [] {
      InvKept(s, actions[0]);
      RoutedKept(s, actions[0]);
      RunRouted(Apply(s, actions[0]), actions[1..]);
    }
  }

  /** Each packet goes to the pool its pool id names: on the ready queues, with the workers, and on the way there. */
  lemma PacketsKeepToTheirPool(s: State)
    requires Reachable(s)
    ensures forall i, k :: 0 <= i < |s.ready| && 0 <= k < |s.ready[i]| ==> s.ready[i][k].poolId % 0x100 == i
    ensures forall t :: 0 <= t < |s.threads| && s.threads[t].role.Worker? && (s.threads[t].pc.Hold? || s.threads[t].pc.Drain?) ==>
              s.threads[t].pc.p.poolId % 0x100 == s.threads[t].role.pool
    ensures forall t :: 0 <= t < |s.threads| && s.threads[t].pc.Put? ==>
              s.threads[t].pc.p.poolId % 0x100 == s.threads[t].pc.pool
  {
    hide Inv, Run, CanRun;
    var s0, actions :| Init(s0) && CanRun(s0, actions) && s == Run(s0, actions);
    InitInv(s0);
    assert Routed(s0);
    RunRouted(s0, actions);
    assert forall t :: 0 <= t < |s.threads| ==> ThreadRouted(s.threads[t]);
  }

  /** No thread serves the default pool, and the packet asks for it: the server thread processes it itself. */
  predicate ServedByServer(s: State, p: Packet) {
    p.poolId == 0x8000 && forall t :: 0 <= t < |s.threads| ==> s.threads[t].role != Worker(0)
  }

  lemma InBandExact(s: State, p: Packet)
    ensures InBand(s, p) <==> ServedByServer(s, p)
  {
    if t: nat :| t < |s.threads| && s.threads[t].role == Worker(0) {
      TallyUpdate(s.threads, t, s.threads[t], 0, IP);
    } else {
      TallyZero(s.threads, 0, IP);
    }
  }

  /** In reachable states a job id is on the list once: the search comes to the one job that has it. */
  lemma FindExact(s: State, k: nat)
    requires Inv(s) && k < |s.jobs|
    ensures Find(s.jobs, s.jobs[k].jobId) == k
  {
    hide Shape, Conserved, StreamsOk, OwnersOk, PoolsOk, FinOk, JobOk;
    var f := Find(s.jobs, s.jobs[k].jobId);
    assert f <= k;
  }

  /** The server thread's routing of the packet received, case by case. */
  lemma RouteExact(s: State)
    requires Reachable(s) && Enabled(s, Route)
    ensures var p := s.threads[0].pc.p; var pool := p.poolId % 0x100; var s' := Apply(s, Route); var pc := s'.threads[0].pc;
            if ServedByServer(s, p) then pc == Hold(p) && s'.done == s.done && s'.jobs == s.jobs
            else if pool >= |s.ready| then pc == Idle && s'.done == s.done + [(p, Answered(PoolNotFound))] && s'.jobs == s.jobs
            else if p.jobId == 0 then pc == Put(p, pool) && s'.done == s.done && s'.jobs == s.jobs
            else if !Listed(s.jobs, p.jobId) then pc == Idle && s'.done == s.done + [(p, Answered(JobNotFound))] && s'.jobs == s.jobs
            else
              && s'.done == s.done && |s'.jobs| == |s.jobs|
              && forall k :: 0 <= k < |s.jobs| ==>
                   if s.jobs[k].jobId != p.jobId then s'.jobs[k] == s.jobs[k]
                   else if s.jobs[k].empty then pc == Put(p, pool) && s'.jobs[k] == s.jobs[k].(empty := false)
                   else pc == Idle && s'.jobs[k] == s.jobs[k].(msgQue := s.jobs[k].msgQue + [p])
  {
    hide Reachable, Inv, Find, Tally;
    ReachableInv(s);
    var p := s.threads[0].pc.p;
    InBandExact(s, p);
    if Listed(s.jobs, p.jobId) {
      var k: nat :| k < |s.jobs| && s.jobs[k].jobId == p.jobId;
      forall m: nat | m < |s.jobs| && s.jobs[m].jobId == p.jobId ensures m == Find(s.jobs, p.jobId) { FindExact(s, m); }
    }
  }

  /** The hand-over after a message of a job, case by case; a queued message always goes to the pool it names. */
  lemma HandOverExact(s: State, t: nat)
    requires Reachable(s) && Enabled(s, HandOver(t))
    ensures var jobId := s.threads[t].pc.jobId; var s' := Apply(s, HandOver(t)); var pc := s'.threads[t].pc;
            && s'.done == s.done && |s'.jobs| == |s.jobs|
            && (!Listed(s.jobs, jobId) ==> pc == Idle && s'.jobs == s.jobs)
            && forall k :: 0 <= k < |s.jobs| ==>
                 if s.jobs[k].jobId != jobId then s'.jobs[k] == s.jobs[k]
                 else if s.jobs[k].msgQue == [] then pc == Idle && s'.jobs[k] == s.jobs[k].(empty := true)
                 else
                   var q := s.jobs[k].msgQue[0];
                   pc == Put(q, q.poolId % 0x100) && s'.jobs[k] == s.jobs[k].(msgQue := s.jobs[k].msgQue[1..])
  {
    hide Reachable, Inv, Find;
    ReachableInv(s);
    QueuesResolve(s);
    var jobId := s.threads[t].pc.jobId;
    forall m: nat | m < |s.jobs| && s.jobs[m].jobId == jobId ensures m == Find(s.jobs, jobId) { FindExact(s, m); }
  }

  // ----- release and acquire -----

  /** The jobs with an id other than jobId, in their order. */
  function Others(jobs: seq<Job>, jobId: nat): seq<Job> {
    if jobs == [] then []
    else (if jobs[0].jobId == jobId then [] else [jobs[0]]) + Others(jobs[1..], jobId)
  }

  lemma {:induction false} OthersAll(jobs: seq<Job>, jobId: nat)
    requires !Listed(jobs, jobId)
    ensures Others(jobs, jobId) == jobs
  {
    if jobs != [] {
      assert !Listed(jobs[1..], jobId);
      OthersAll(jobs[1..], jobId);
    }
  }

  /** With one job of the id, leaving out that job leaves the others. */
  lemma {:induction false} OthersWithout(jobs: seq<Job>, k: nat)
    requires k < |jobs| && forall m :: 0 <= m < |jobs| && m != k ==> jobs[m].jobId != jobs[k].jobId
    ensures Others(jobs, jobs[k].jobId) == jobs[..k] + jobs[k + 1..]
  {
    if k == 0 {
      OthersAll(jobs[1..], jobs[0].jobId);
      assert jobs[..0] + jobs[1..] == jobs[1..];
    } else {
      OthersWithout(jobs[1..], k - 1);
      assert jobs[..k] + jobs[k + 1..] == [jobs[0]] + (jobs[1..][..k - 1] + jobs[1..][k..]);
    }
  }

  /** Others is what its name says. */
  lemma {:induction false} OthersExact(jobs: seq<Job>, jobId: nat)
    ensures !Listed(Others(jobs, jobId), jobId)
    ensures forall j :: j in Others(jobs, jobId) <==> j in jobs && j.jobId != jobId
  {
    if jobs != [] {
      OthersExact(jobs[1..], jobId);
      assert jobs == [jobs[0]] + jobs[1..];
    }
  }

  /** Release answers "job not found" exactly when no job has the id asked for. Otherwise the job with that id, and no
    * other, leaves the list; its queue is with the releasing thread, to be sent back; the other jobs stay as they
    * are and in their order. */
  lemma ReleaseExact(s: State, t: nat)
    requires Reachable(s) && Enabled(s, ReleaseJob(t))
    ensures var p := s.threads[t].pc.p; var id := p.kind.target; var s' := Apply(s, ReleaseJob(t)); var pc := s'.threads[t].pc;
            && s'.jobs == Others(s.jobs, id)
            && !Listed(s'.jobs, id)
            && s'.done == (if !Listed(s.jobs, id) then s.done + [(p, Answered(JobNotFound))] else s.done)
            && forall k :: 0 <= k < |s.jobs| && s.jobs[k].jobId == id ==> pc == Drain(p, s.jobs[k].sid, s.jobs[k].msgQue)
  {
    hide Reachable, Inv, Find, Others;
    ReachableInv(s);
    var id := s.threads[t].pc.p.kind.target;
    OthersExact(s.jobs, id);
    if !Listed(s.jobs, id) {
      OthersAll(s.jobs, id);
    } else {
      var k: nat :| k < |s.jobs| && s.jobs[k].jobId == id;
      forall m: nat | m < |s.jobs| && s.jobs[m].jobId == id ensures m == Find(s.jobs, id) { FindExact(s, m); }
      OthersWithout(s.jobs, k);
    }
  }

  /** The released job's messages go back unprocessed, oldest first; then the release is answered. */
  lemma DrainExact(s: State, t: nat)
    requires Reachable(s) && t < |s.threads| && s.threads[t].pc.Drain?
    ensures var Drain(p, sid, rest) := s.threads[t].pc;
            && (rest != [] ==>
                  && Enabled(s, DrainOne(t))
                  && Apply(s, DrainOne(t)).done == s.done + [(rest[0], Answered(Unprocessed))]
                  && Apply(s, DrainOne(t)).threads[t].pc == Drain(p, sid, rest[1..]))
            && (rest == [] ==>
                  && Enabled(s, DrainEnd(t))
                  && Apply(s, DrainEnd(t)).done == s.done + [(p, Answered(Success))]
                  && !Apply(s, DrainEnd(t)).threads[t].pc.Drain?)
  {
    hide Reachable, Inv;
    ReachableInv(s);
    assert |s.threads| > 0 && |s.sem| == |s.ready| by { ShapeOf(s); }
  }

  lemma ShapeOf(s: State)
    requires Inv(s)
    ensures |s.threads| > 0 && |s.sem| == |s.ready| && s.tracker <= MAX_JOB_ID
  {
  }

  /** Acquisition is answered with an error, the list staying as it is, exactly when all 65535 ids are listed; otherwise
    * with success, and an idle job with an id nobody had is at the end of the list. */
  lemma AcquireExact(s: State, t: nat)
    requires Reachable(s) && Enabled(s, AcquireJob(t))
    ensures var p := s.threads[t].pc.p; var s' := Apply(s, AcquireJob(t));
            if forall id :: 1 <= id <= 0xFFFF ==> Listed(s.jobs, id)
            then s'.jobs == s.jobs && s'.done == s.done + [(p, Answered(Error))]
            else
              && |s'.jobs| == |s.jobs| + 1 && s'.jobs[..|s.jobs|] == s.jobs
              && s'.done == s.done + [(p, Answered(Success))]
              && var j := s'.jobs[|s.jobs|];
                 1 <= j.jobId <= 0xFFFF && !Listed(s.jobs, j.jobId) && j.empty && j.msgQue == []
  {
    hide Reachable, Inv, SearchId;
    ReachableInv(s);
    ShapeOf(s);
    AcquireIsSoundAndComplete(s.jobs, s.tracker);
  }

  // ----- answers -----

  /** The server is right to answer p with o (or to free it) in step a. */
  predicate Says(s: State, a: Action, p: Packet, o: Outcome)
    requires Enabled(s, a)
  {
    match a
    case Exec(t, r) => p == s.threads[t].pc.p && Executed(p.kind, r, o)
    case AcquireJob(t) =>
      p == s.threads[t].pc.p
      && o == Answered(if forall id :: 1 <= id <= 0xFFFF ==> Listed(s.jobs, id) then Error else Success)
    case ReleaseJob(t) => p == s.threads[t].pc.p && o == Answered(JobNotFound) && !Listed(s.jobs, p.kind.target)
    case DrainOne(t) => p == s.threads[t].pc.rest[0] && o == Answered(Unprocessed)
    case DrainEnd(t) => p == s.threads[t].pc.p && o == Answered(Success)
    case Route =>
      && p == s.threads[0].pc.p && !ServedByServer(s, p)
      && if p.poolId % 0x100 >= |s.ready| then o == Answered(PoolNotFound)
         else p.jobId != 0 && !Listed(s.jobs, p.jobId) && o == Answered(JobNotFound)
    case FinReturn => s.ready[s.fin.pool] != [] && p == s.ready[s.fin.pool][0] && o == Answered(Unprocessed)
    case _ => false
  }

  /** What a function or query message is answered with: only a command that succeeded is freed. */
  predicate Executed(kind: Kind, r: ExecResult, o: Outcome) {
    match o
    case Freed => kind == Cmd && r == FxnOk
    case Answered(Success) => (kind == RcmMsg && r == FxnOk) || (kind == SymIdx && r != BadIndex)
    case Answered(InvalidFxn) => (kind == RcmMsg || kind == Cmd) && r == BadIndex
    case Answered(MsgFxnErr) => (kind == RcmMsg || kind == Cmd) && r == FxnError
    case Answered(SymbolNotFound) => kind == Dpc || (kind == SymIdx && r == BadIndex)
    case _ => false
  }

  /** Every answer is the right one, and none is left out: a step logs (p, o) exactly when Says says so, at most one. */
  lemma AnswersExact(s: State, a: Action)
    requires Reachable(s) && Enabled(s, a)
    ensures var s' := Apply(s, a);
            && (s'.done == s.done || exists p, o :: s'.done == s.done + [(p, o)])
            && forall p, o :: Says(s, a, p, o) <==> s'.done == s.done + [(p, o)]
  {
    hide Reachable, Inv, Find, Apply, SearchId, Tally, InFlight, Settled;
    LogUnique(s.done, Apply(s, a).done);
    match a
    case Route => RouteExact(s);
    case HandOver(t) => HandOverExact(s, t);
    case ReleaseJob(t) => ReleaseExact(s, t);
    case AcquireJob(t) => AcquireExact(s, t);
    case DrainOne(t) => DrainExact(s, t);
    case DrainEnd(t) => DrainExact(s, t);
    case FinJob => FinJobSilent(s);
    case _ => OtherAnswers(s, a);
  }

  lemma LogUnique(done: seq<(Packet, Outcome)>, done': seq<(Packet, Outcome)>)
    ensures done' == done ==> forall p, o :: done' != done + [(p, o)]
    ensures forall p, o, q, u :: done' == done + [(p, o)] == done + [(q, u)] ==> p == q && o == u
  {
    forall p, o | done' == done + [(p, o)] ensures done'[|done|] == (p, o) { }
  }

  lemma FinJobSilent(s: State)
    requires Reachable(s) && Enabled(s, FinJob)
    ensures Apply(s, FinJob).done == s.done
  {
    hide Reachable;
    FinalizeFindsNoJobMessages(s);
  }

  lemma OtherAnswers(s: State, a: Action)
    requires Enabled(s, a) && !a.Route? && !a.HandOver? && !a.ReleaseJob? && !a.AcquireJob? && !a.DrainOne? && !a.DrainEnd?
    requires !a.FinJob?
    ensures var s' := Apply(s, a);
            && (s'.done == s.done || exists p, o :: s'.done == s.done + [(p, o)])
            && forall p, o :: Says(s, a, p, o) <==> s'.done == s.done + [(p, o)]
  {
    hide Tally, InFlight, Settled;
    var s' := Apply(s, a);
    if s'.done != s.done {
      var d := s'.done[|s.done|];
      assert s'.done == s.done + [(d.0, d.1)];
      assert Says(s, a, d.0, d.1);
    }
  }

  // ----- ready queues -----

  /** What step a puts on ready queue i. */
  function PutOn(s: State, a: Action, i: nat): seq<Packet>
    requires Enabled(s, a)
  {
    if a.PutReady? && s.threads[a.t].pc.pool == i then [s.threads[a.t].pc.p] else []
  }

  /** What a worker holds after popping ready queue i in step a, or what finalize sends back from it. */
  function TakenOff(s: State, a: Action, i: nat): seq<Packet>
    requires Enabled(s, a)
  {
    var s' := Apply(s, a);
    if a.Pop? && s.threads[a.t].role.pool == i && a.t < |s'.threads| && s'.threads[a.t].pc.Hold? then [s'.threads[a.t].pc.p]
    else if a.FinReturn? && s.fin.pool == i && |s'.done| > |s.done| then [s'.done[|s.done|].0]
    else []
  }

  function AllPut(s: State, actions: seq<Action>, i: nat): seq<Packet>
    requires CanRun(s, actions)
    decreases |actions|
  {
    if actions == [] then [] else PutOn(s, actions[0], i) + AllPut(Apply(s, actions[0]), actions[1..], i)
  }

  function AllTaken(s: State, actions: seq<Action>, i: nat): seq<Packet>
    requires CanRun(s, actions)
    decreases |actions|
  {
    if actions == [] then [] else TakenOff(s, actions[0], i) + AllTaken(Apply(s, actions[0]), actions[1..], i)
  }

  lemma ReadyStep(s: State, a: Action, i: nat)
    requires Inv(s) && Enabled(s, a) && i < |s.ready|
    ensures |Apply(s, a).ready| == |s.ready|
    ensures s.ready[i] + PutOn(s, a, i) == TakenOff(s, a, i) + Apply(s, a).ready[i]
  {
    hide Count, Tally, Settled, InFlight, Conserved, JobStreams, PoolsOk, FinOk;
    hide Dispatch, Acquire, Release, ReturnNext, EndRelease, HandTurn, Complete;
    ThreadsStay(s, a);
    var s' := Apply(s, a);
    if a.Pop? && s.threads[a.t].role.pool == i && s.ready[i] != [] {
      assert s.ready[i] == [s.ready[i][0]] + s.ready[i][1..];
    }
    if a.FinReturn? && s.fin.pool == i && s.ready[i] != [] {
      assert s.ready[i] == [s.ready[i][0]] + s.ready[i][1..];
    }
  }

  /** Ready queues are first in, first out: over every run, what was put on one is what was taken off it, in the same
    * order, and then what is still there. */
  lemma {:induction false} ReadyFifo(s: State, actions: seq<Action>, i: nat)
    requires Inv(s) && CanRun(s, actions) && i < |s.ready|
    ensures |Run(s, actions).ready| == |s.ready|
    ensures s.ready[i] + AllPut(s, actions, i) == AllTaken(s, actions, i) + Run(s, actions).ready[i]
    decreases |actions|
  {
    hide Inv, Enabled, Apply, PutOn, TakenOff;
    if actions != [] {
      var s1 := Apply(s, actions[0]);
      InvKept(s, actions[0]);
      ReadyStep(s, actions[0], i);
      ReadyFifo(s1, actions[1..], i);
      var put, taken := PutOn(s, actions[0], i), TakenOff(s, actions[0], i);
      assert s.ready[i] + (put + AllPut(s1, actions[1..], i)) == (s.ready[i] + put) + AllPut(s1, actions[1..], i);
      assert taken + (AllTaken(s1, actions[1..], i) + Run(s1, actions[1..]).ready[i])
          == (taken + AllTaken(s1, actions[1..], i)) + Run(s1, actions[1..]).ready[i];
      assert (taken + s1.ready[i]) + AllPut(s1, actions[1..], i) == taken + (s1.ready[i] + AllPut(s1, actions[1..], i));
    }
  }
}
