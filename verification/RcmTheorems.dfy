// The theorems about the RCM server, over every run from a freshly created
// server: for all pools, workers, messages and interleavings.

module RcmTheorems {
  import opened Bags
  import opened Options
  import opened RcmTypes
  import opened RcmJobs
  import opened RcmScheduler
  import opened RcmInvariant
  import opened RcmMoves
  import opened RcmPools
  import opened RcmStreams

  lemma ShapeKept(s: State, a: Action)
    requires Inv(s) && Enabled(s, a)
    ensures Shape(Apply(s, a))
  {
    hide Count, Tally, Settled, InFlight, SearchId, Find, Dispatch, Acquire, Release, ReturnNext, EndRelease, HandTurn, Complete,
         Conserved, JobStreams, PoolsOk, FinOk, Resolve;
    var s' := Apply(s, a);
    ThreadsStay(s, a);
    TallyRoles(s.threads, s'.threads, 0);
    TrackerKept(s, a);
    if a.HandOver? { QueuesResolve(s); }
    forall t | 0 <= t < |s'.threads| ensures PcOk(s', t) {
      assert PcOk(s, t);
      PcKept(s, a, t);
    }
  }

  lemma TrackerKept(s: State, a: Action)
    requires Shape(s) && Enabled(s, a)
    ensures Apply(s, a).tracker <= MAX_JOB_ID
  {
    hide Count, Tally, Settled, InFlight, SearchId, Find, Resolve, Listed;
    TrackerAfterSearch(s.jobs, s.tracker, MAX_JOB_ID);
  }

  lemma PcKept(s: State, a: Action, t: nat)
    requires Shape(s) && Enabled(s, a) && t < |s.threads|
    requires |Apply(s, a).threads| == |s.threads| && |Apply(s, a).ready| == |s.ready|
    requires Tally(s.threads, 0, IP) == Tally(Apply(s, a).threads, 0, IP)
    requires Apply(s, a).threads[t].role == s.threads[t].role
    ensures PcOk(Apply(s, a), t)
  {
    hide Apply, Enabled, Tally;
    assert PcOk(s, t);
    if JobStep(a) && !a.FinMark? {
      JobStepFrame(s, a);
      if t == Actor(a) { JobPcKept(s, a); }
    } else {
      QueuePcKept(s, a, t);
    }
  }

  lemma QueuePcKept(s: State, a: Action, t: nat)
    requires Shape(s) && Enabled(s, a) && t < |s.threads| && (!JobStep(a) || a.FinMark?)
    requires |Apply(s, a).threads| == |s.threads| && |Apply(s, a).ready| == |s.ready|
    requires Tally(s.threads, 0, IP) == Tally(Apply(s, a).threads, 0, IP)
    requires Apply(s, a).threads[t].role == s.threads[t].role
    ensures PcOk(Apply(s, a), t)
  {
    hide Tally, ScopedPacket, Resolve;
    var s' := Apply(s, a);
    QueuePcMoves(s, a, t);
    assert PcOk(s, t);
    SameScope(s, s');
  }

  /** A packet's pool depends on the number of pools and of the default pool's threads only. */
  lemma SameScope(s: State, s': State)
    requires |s'.ready| == |s.ready| && Tally(s.threads, 0, IP) == Tally(s'.threads, 0, IP)
    ensures forall p :: ScopedPacket(s, p) ==> ScopedPacket(s', p)
  {
    hide Tally;
  }

  /** These steps leave a thread where it is, or waiting or past a check, or with a packet, or at a post to its pool. */
  lemma QueuePcMoves(s: State, a: Action, t: nat)
    requires Shape(s) && Enabled(s, a) && t < |s.threads| == |Apply(s, a).threads| && (!JobStep(a) || a.FinMark?)
    ensures var pc, pc' := s.threads[t].pc, Apply(s, a).threads[t].pc;
            || pc' == pc
            || (s.threads[t].role.Worker? && (pc'.Idle? || pc'.Woken? || pc'.Checked? || pc'.Exited? || pc'.Hold?))
            || pc'.Idle?
            || (pc.Put? && pc' == Post(pc.pool))
  {
    hide Count, Tally, Settled, InFlight, SearchId, Find, Resolve, Dispatch, Acquire, Release, ReturnNext, EndRelease, HandTurn, Complete,
         ScopedPacket, PcOk;
  }

  lemma JobPcKept(s: State, a: Action)
    requires Shape(s) && Enabled(s, a) && JobStep(a) && !a.FinMark?
    requires Actor(a) < |Apply(s, a).threads| == |s.threads| && |Apply(s, a).ready| == |s.ready|
    requires Tally(s.threads, 0, IP) == Tally(Apply(s, a).threads, 0, IP)
    ensures PcOk(Apply(s, a), Actor(a))
  {
    hide Count, Tally, Settled, InFlight, SearchId, Find, Dispatch, Acquire, Release, ReturnNext, EndRelease, HandTurn, Complete, Resolve;
    assert PcOk(s, Actor(a));
  }

  /** Receiving a packet, and routing one in-band, concern no stream. */
  lemma ReceiveKeeps(s: State, a: Action)
    requires Inv(s) && Enabled(s, a)
    requires a.Receive? || (a.Route? && InBand(s, s.threads[0].pc.p))
    ensures JobStreams(Apply(s, a))
  {
    hide Count, Everywhere, Tally, Settled, InFlight, SearchId, Find, JobsOk, StreamsOk, PoolsOk, FinOk, Processed, SentBack;
    var s' := Apply(s, a);
    assert PcOk(s, 0) && ThreadOk(s, 0);
    var pc := if a.Receive? then Got(a.p) else Hold(s.threads[0].pc.p);
    forall x ensures x in s.owner ==> Flight(s', x) == Flight(s, x) { ReceiveMoves(s, pc, x); }
    assert Aside(s, s', 0);
    assert ThreadOk(s', 0);
    AsideKeeps(s, s', 0);
  }

  /** Neither do waiting, popping, putting and posting. */
  lemma QueueStepKeeps(s: State, a: Action)
    requires Inv(s) && Enabled(s, a)
    requires a.Pend? || a.Check? || a.Pop? || a.PutReady? || a.PostSem? || a.ServerExit?
    ensures JobStreams(Apply(s, a))
  {
    hide Inv, Apply, Enabled, Aside, ThreadOk, Flight, JobStreams, OwnersOk, Shape;
    var s' := Apply(s, a);
    var t := Actor(a);
    forall x ensures Flight(s', x) == Flight(s, x) { QueueMoves(s, a, x); }
    InvParts(s);
    QueueThread(s, a);
    QueueAside(s, a);
    AsideKeeps(s, s', t);
  }

  lemma InvParts(s: State)
    requires Inv(s)
    ensures Shape(s) && JobStreams(s) && OwnersOk(s)
  {
  }

  lemma QueueAside(s: State, a: Action)
    requires Shape(s) && Enabled(s, a) && Actor(a) < |s.threads| && ThreadOk(s, Actor(a))
    requires forall x :: Flight(Apply(s, a), x) == Flight(s, x)
    requires a.Pend? || a.Check? || a.Pop? || a.PutReady? || a.PostSem? || a.ServerExit?
    ensures Aside(s, Apply(s, a), Actor(a))
  {
    hide Flight, Everywhere, Tally, Settled, InFlight, SearchId, Find, ScopedPacket;
    assert PcOk(s, Actor(a));
  }

  lemma QueueThread(s: State, a: Action)
    requires Shape(s) && OwnersOk(s) && Enabled(s, a)
    requires a.Pend? || a.Check? || a.Pop? || a.PutReady? || a.PostSem? || a.ServerExit?
    ensures Actor(a) < |s.threads| == |Apply(s, a).threads| && ThreadOk(s, Actor(a)) && ThreadOk(Apply(s, a), Actor(a))
    ensures var s' := Apply(s, a);
            forall i, k :: 0 <= i < |s'.ready| && 0 <= k < |s'.ready[i]| && s'.ready[i][k].jobId != DISCRETE_JOB_ID ==> s'.ready[i][k] in s.owner
  {
    hide Count, Flight, Everywhere, Tally, Settled, InFlight, SearchId, Find, JobsOk, StreamsOk, Processed, SentBack, ScopedPacket;
    assert PcOk(s, Actor(a)) && ThreadOk(s, Actor(a));
  }

  lemma FinReturnKeeps(s: State)
    requires Inv(s) && Enabled(s, FinReturn)
    ensures JobStreams(Apply(s, FinReturn))
  {
    hide Count, Everywhere, Tally, InFlight, SearchId, Find, JobsOk, StreamsOk, PoolsOk, Processed, SentBack;
    var s' := Apply(s, FinReturn);
    assert ThreadOk(s, 0);
    assert Settled(s);
    var i := s.fin.pool;
    if s.ready[i] != [] {
      var p := s.ready[i][0];
      assert !UsesJobs(p) && p !in s.owner;
      assert s'.done == s.done + [(p, Answered(Unprocessed))];
    }
    forall x ensures x in s.owner ==> Flight(s', x) == Flight(s, x) { FinMoves(s, FinReturn, x); }
    assert Aside(s, s', 0);
    AsideKeeps(s, s', 0);
  }

  lemma StreamsKept(s: State, a: Action)
    requires Inv(s) && Enabled(s, a)
    ensures JobStreams(Apply(s, a))
  {
    hide Count, Flight, Everywhere, Tally, Settled, InFlight, SearchId, Find, JobsOk, StreamsOk, OwnersOk, PoolsOk, Conserved;
    match a
    case Route =>
      if InBand(s, s.threads[0].pc.p) { ReceiveKeeps(s, a); } else { DispatchKeeps(s, s.threads[0].pc.p); }
    case Exec(t, r) =>
      assert PcOk(s, t);
      CompleteKeeps(s, t, s.threads[t].pc.p, Reply(s.threads[t].pc.p.kind, r));
    case AcquireJob(t) => AcquireKeeps(s, t, s.threads[t].pc.p);
    case ReleaseJob(t) => ReleaseKeeps(s, t, s.threads[t].pc.p);
    case DrainOne(t) => ReturnNextKeeps(s, t);
    case DrainEnd(t) => EndReleaseKeeps(s, t);
    case HandOver(t) =>
      QueuesResolve(s);
      HandTurnKeeps(s, t, s.threads[t].pc.jobId, s.threads[t].pc.sid);
    case FinJob => FinJobKeeps(s);
    case FinReturn => FinReturnKeeps(s);
    case FinMark(t) => StillKeeps(s, a);
    case Shutdown => StillKeeps(s, a);
    case FinBegin => StillKeeps(s, a);
    case FinMarked => StillKeeps(s, a);
    case FinJoined => StillKeeps(s, a);
    case FinPost => StillKeeps(s, a);
    case Receive(_) => ReceiveKeeps(s, a);
    case _ => QueueStepKeeps(s, a);
  }

  lemma StillKeeps(s: State, a: Action)
    requires Inv(s) && Enabled(s, a)
    requires a.FinMark? || a.Shutdown? || a.FinBegin? || a.FinMarked? || a.FinJoined? || a.FinPost?
    ensures JobStreams(Apply(s, a))
  {
    hide Count, Everywhere, Tally, Settled, InFlight, SearchId, Find, JobsOk, StreamsOk, OwnersOk, PoolsOk, Conserved;
    var s' := Apply(s, a);
    if a.FinMark? { SettledPcs(s); }
    forall x ensures Flight(s', x) == Flight(s, x) { QueueMoves(s, a, x); }
    NeutralKeeps(s, s');
  }

  /** Every step keeps the invariant. */
  lemma InvKept(s: State, a: Action)
    requires Inv(s) && Enabled(s, a)
    ensures Inv(Apply(s, a))
  {
    hide Shape, Conserved, JobStreams, PoolsOk, FinOk, Enabled, Apply;
    ShapeKept(s, a);
    ConservedKept(s, a);
    StreamsKept(s, a);
    PoolsKept(s, a);
    FinKept(s, a);
  }

  // ----- every run -----

  lemma InitInv(s: State)
    requires Init(s)
    ensures Inv(s)
  {
    forall x ensures Everywhere(s, x) == 0 {
      if Count(s.ready, Occurs, x) > 0 {
        var i := UptoMember(s.ready, |s.ready|, Occurs, x);
      }
      if Count(s.threads, InHand, x) > 0 {
        var t := UptoMember(s.threads, |s.threads|, InHand, x);
      }
      if Count(s.threads, InRest, x) > 0 {
        var t := UptoMember(s.threads, |s.threads|, InRest, x);
      }
    }
    forall i | 0 <= i < |s.ready| ensures SemOk(s, i) {
      TallyZero(s.threads, i, WG);
      TallyZero(s.threads, i, PP);
    }
  }

  /** The invariant holds after every run of any length. */
  lemma {:induction false} RunInv(s: State, actions: seq<Action>)
    requires Inv(s) && CanRun(s, actions)
    ensures Inv(Run(s, actions))
    decreases |actions|
  {
    hide Inv, Enabled, Apply;
    if actions != [] {
      InvKept(s, actions[0]);
      RunInv(Apply(s, actions[0]), actions[1..]);
    }
  }

  /** s is a state some run of a freshly created server leads to. */
  ghost predicate Reachable(s: State) {
    exists s0, actions :: Init(s0) && CanRun(s0, actions) && s == Run(s0, actions)
  }

  lemma ReachableInv(s: State)
    requires Reachable(s)
    ensures Inv(s)
  {
    hide Inv, Enabled, Apply, Init, Run, CanRun;
    var s0, actions :| Init(s0) && CanRun(s0, actions) && s == Run(s0, actions);
    InitInv(s0);
    RunInv(s0, actions);
  }

  /** Conservation: a packet received is in exactly one place, a packet not received is nowhere. */
  lemma EachPacketInOnePlace(s: State, x: Packet)
    requires Reachable(s)
    ensures Everywhere(s, x) == if x in s.received then 1 else 0
  {
    hide Everywhere, Reachable, Shape, JobStreams, PoolsOk, FinOk;
    ReachableInv(s);
  }

  /** Job order: what dispatch accepted for a job is, in that order, what was processed, the one message in flight
    * (if any), what was sent back on release, and what still waits on the job's queue. */
  lemma JobOrder(s: State, sid: nat)
    requires Reachable(s) && sid < |s.streams|
    ensures var st := s.streams[sid];
            st.accepted == Processed(s.done, s.owner, sid) + Fly(st.turn) + SentBack(s.done, s.owner, sid) + st.waiting
    ensures forall p :: p in s.owner && s.owner[p] == sid && Flight(s, p) > 0 ==> s.streams[sid].turn == Flying(p)
    ensures s.streams[sid].turn.Flying? ==>
              var p := s.streams[sid].turn.p; Flight(s, p) == 1 && p in s.owner && s.owner[p] == sid
    ensures forall k :: 0 <= k < |s.jobs| && s.jobs[k].sid == sid ==> s.jobs[k].msgQue == s.streams[sid].waiting
    ensures forall t :: 0 <= t < |s.threads| && s.threads[t].pc.Drain? && s.threads[t].pc.sid == sid ==>
              s.threads[t].pc.rest == s.streams[sid].waiting
    ensures s.streams[sid].waiting != [] ==>
              HasJob(s.jobs, sid) || exists t :: 0 <= t < |s.threads| && s.threads[t].pc.Drain? && s.threads[t].pc.sid == sid
  {
    hide Count, Reachable, Processed, SentBack, PoolsOk, FinOk;
    ReachableInv(s);
    assert Ordered(s, sid) && TurnOk(s, sid) && StageOk(s, sid);
    if s.streams[sid].turn.Flying? {
      var p := s.streams[sid].turn.p;
      assert Everywhere(s, p) <= 1;
    }
    forall k | 0 <= k < |s.jobs| && s.jobs[k].sid == sid ensures s.jobs[k].msgQue == s.streams[sid].waiting {
      assert JobOk(s, k);
    }
    forall t | 0 <= t < |s.threads| && s.threads[t].pc.Drain? && s.threads[t].pc.sid == sid
      ensures s.threads[t].pc.rest == s.streams[sid].waiting
    {
      assert ThreadOk(s, t);
    }
  }

  /** Two messages of one job are never in flight together, whatever the number of pools and workers. */
  lemma OneInFlight(s: State, p: Packet, q: Packet)
    requires Reachable(s) && p in s.owner && q in s.owner && s.owner[p] == s.owner[q]
    requires Flight(s, p) > 0 && Flight(s, q) > 0
    ensures p == q && Flight(s, p) == 1
  {
    hide Count, Reachable, Processed, SentBack, PoolsOk, FinOk, JobsOk, StreamsOk;
    ReachableInv(s);
    assert Everywhere(s, p) <= 1;
  }

  /** No job is stranded: its flag says idle exactly when nothing of it is queued, on a ready queue, in a thread's
    * hands, or processed with the hand-over still to come. */
  lemma EmptyFlagExact(s: State, k: nat)
    requires Reachable(s) && k < |s.jobs|
    ensures s.jobs[k].empty <==>
              && s.jobs[k].msgQue == []
              && (forall p :: p in s.owner && s.owner[p] == s.jobs[k].sid ==> Flight(s, p) == 0)
              && (forall t :: 0 <= t < |s.threads| ==> !(s.threads[t].pc.After? && s.threads[t].pc.sid == s.jobs[k].sid))
  {
    hide Flight, Reachable, Processed, SentBack, PoolsOk, FinOk, Conserved;
    ReachableInv(s);
    assert JobOk(s, k);
    var sid := s.jobs[k].sid;
    assert TurnOk(s, sid);
    if s.jobs[k].empty {
      forall t | 0 <= t < |s.threads| && s.threads[t].pc.After? ensures s.threads[t].pc.sid != sid { assert ThreadOk(s, t); }
    }
  }

  /** The worker's bad-pool branch is unreachable: a queued message always has a pool to go to. */
  lemma HandOverHasPool(s: State, t: nat)
    requires Reachable(s) && Enabled(s, HandOver(t))
    ensures !Apply(s, HandOver(t)).threads[t].pc.Hold?
  {
    hide Reachable, Shape, Conserved, JobStreams, PoolsOk, FinOk, Find, Resolve;
    ReachableInv(s);
    QueuesResolve(s);
  }

  // ----- semaphores -----

  /** A worker past the terminate check never finds its ready queue empty, finalize or not. */
  lemma PopFindsPacket(s: State, t: nat)
    requires Reachable(s) && Enabled(s, Pop(t))
    ensures s.ready[s.threads[t].role.pool] != []
  {
    hide Reachable, Conserved, JobStreams, FinOk, Tally;
    ReachableInv(s);
    assert PcOk(s, t);
    var i := s.threads[t].role.pool;
    TalliesMove(s.threads, t, s.threads[t], i);
    assert OpenPool(s, i);
  }

  /** Until finalize, the count and the workers it woke never exceed the packets on the ready queue. */
  lemma CountWithinQueue(s: State, i: nat)
    requires Reachable(s) && i < |s.ready| && !s.fin.Posting? && OpenPool(s, i)
    ensures i < |s.sem| && s.sem[i] + Tally(s.threads, i, WG) <= |s.ready[i]|
  {
    hide Reachable, Conserved, JobStreams, FinOk, Tally;
    ReachableInv(s);
    assert SemOk(s, i);
  }

  /** After finalize's posts to a pool none of its workers is blocked: each has left, or can take its next step. */
  lemma PostedCanStep(s: State, t: nat)
    requires Inv(s) && s.fin.Posting? && s.fin.posted == Tally(s.threads, s.fin.pool, IP)
    requires t < |s.threads| && s.threads[t].role == Worker(s.fin.pool) && !s.threads[t].pc.Exited?
    ensures Enabled(s, Pend(t)) || Enabled(s, Check(t)) || Enabled(s, Pop(t)) || Enabled(s, Exec(t, FxnOk))
    ensures s.threads[t].terminate
  {
    hide Conserved, JobStreams, Tally, InFlight, SearchId, ScopedPacket;
    assert PcOk(s, t);
    var i := s.fin.pool;
    assert OpenPool(s, i) && SemOk(s, i);
    TallyBound(s.threads, i);
  }

  /** After finalize every worker has left, holding nothing, and every packet ever received was answered or freed, once. */
  lemma FinishedClean(s: State)
    requires Reachable(s) && s.fin.Finished?
    ensures forall t :: 0 <= t < |s.threads| ==> s.threads[t].pc.Exited?
    ensures s.jobs == [] && forall i :: 0 <= i < |s.ready| ==> s.ready[i] == []
    ensures forall x :: Count(s.done, InLog, x) == if x in s.received then 1 else 0
  {
    hide Reachable, Inv, Count;
    ReachableInv(s);
    CleanWhenFinished(s);
  }

  lemma CleanWhenFinished(s: State)
    requires Inv(s) && s.fin.Finished?
    ensures forall t :: 0 <= t < |s.threads| ==> s.threads[t].pc.Exited?
    ensures s.jobs == [] && forall i :: 0 <= i < |s.ready| ==> s.ready[i] == []
    ensures forall x :: Count(s.done, InLog, x) == if x in s.received then 1 else 0
  {
    hide JobStreams, Tally;
    forall t | 0 <= t < |s.threads| ensures s.threads[t].pc.Exited? {
      assert PcOk(s, t);
      if t > 0 { assert !OpenPool(s, s.threads[t].role.pool) && AllExited(s, s.threads[t].role.pool); }
    }
    forall i | 0 <= i < |s.ready| ensures s.ready[i] == [] { assert !OpenPool(s, i); }
    forall x ensures Count(s.done, InLog, x) == Everywhere(s, x) { NowhereElse(s, x); }
  }

  lemma NowhereElse(s: State, x: Packet)
    requires forall t :: 0 <= t < |s.threads| ==> s.threads[t].pc.Exited?
    requires s.jobs == [] && forall i :: 0 <= i < |s.ready| ==> s.ready[i] == []
    ensures Flight(s, x) == 0 && Waiting(s, x) == 0
  {
    if Count(s.ready, Occurs, x) > 0 { var i := UptoMember(s.ready, |s.ready|, Occurs, x); }
    if Count(s.threads, InHand, x) > 0 { var t := UptoMember(s.threads, |s.threads|, InHand, x); }
    if Count(s.threads, InRest, x) > 0 { var t := UptoMember(s.threads, |s.threads|, InRest, x); }
  }

  /** Finalize's drain of the job list returns nothing: entered with no job message in flight, all queues are empty. */
  lemma FinalizeFindsNoJobMessages(s: State)
    requires Reachable(s) && s.fin.Jobs?
    ensures forall k :: 0 <= k < |s.jobs| ==> s.jobs[k].empty && s.jobs[k].msgQue == []
  {
    hide Reachable, Shape, Conserved, JobStreams, PoolsOk, Settled;
    ReachableInv(s);
    SettledIdle(s);
  }
}
