// The semaphore counts of the pools and the finalizing thread, step by step.

module RcmPools {
  import opened Bags
  import opened Options
  import opened RcmTypes
  import opened RcmJobs
  import opened RcmScheduler
  import opened RcmInvariant
  import opened RcmMoves

  function N(b: bool): nat { if b then 1 else 0 }

  lemma {:induction false} TallyUpdate(ths: seq<Thread>, t: nat, th: Thread, i: nat, c: Class)
    requires t < |ths|
    ensures Tally(ths[t := th], i, c) + N(Counts(ths[t], i, c)) == Tally(ths, i, c) + N(Counts(th, i, c))
    ensures Counts(ths[t], i, c) ==> Tally(ths, i, c) >= 1
  {
    if t == 0 {
      assert ths[0 := th][1..] == ths[1..];
    } else {
      assert ths[t := th][1..] == ths[1..][t - 1 := th];
      TallyUpdate(ths[1..], t - 1, th, i, c);
    }
  }

  /** No pool has more threads woken or gone than it has threads; strictly fewer if one of them is neither. */
  lemma {:induction false} TallyBound(ths: seq<Thread>, i: nat)
    ensures Tally(ths, i, WG) <= Tally(ths, i, IP)
    ensures forall t :: 0 <= t < |ths| && InPool(ths[t], i) && !WokenOrGone(ths[t], i) ==> Tally(ths, i, WG) < Tally(ths, i, IP)
  {
    if ths != [] {
      TallyBound(ths[1..], i);
      forall t | 0 <= t < |ths| && InPool(ths[t], i) && !WokenOrGone(ths[t], i)
        ensures Tally(ths, i, WG) < Tally(ths, i, IP)
      {
        if t > 0 { assert ths[1..][t - 1] == ths[t]; }
      }
    }
  }

  lemma {:induction false} TallyZero(ths: seq<Thread>, i: nat, c: Class)
    requires forall t :: 0 <= t < |ths| ==> !Counts(ths[t], i, c)
    ensures Tally(ths, i, c) == 0
  {
    if ths != [] {
      assert forall t :: 0 <= t < |ths[1..]| ==> ths[1..][t] == ths[t + 1];
      TallyZero(ths[1..], i, c);
    }
  }

  /** One thread moves; the tallies of every pool move with it. */
  lemma TalliesMove(ths: seq<Thread>, t: nat, th: Thread, i: nat)
    requires t < |ths|
    ensures Tally(ths[t := th], i, WG) + N(WokenOrGone(ths[t], i)) == Tally(ths, i, WG) + N(WokenOrGone(th, i))
    ensures Tally(ths[t := th], i, PP) + N(PoppingOrPosting(ths[t], i)) == Tally(ths, i, PP) + N(PoppingOrPosting(th, i))
    ensures Tally(ths[t := th], i, IP) + N(InPool(ths[t], i)) == Tally(ths, i, IP) + N(InPool(th, i))
    ensures WokenOrGone(ths[t], i) ==> Tally(ths, i, WG) >= 1
    ensures PoppingOrPosting(ths[t], i) ==> Tally(ths, i, PP) >= 1
  {
    TallyUpdate(ths, t, th, i, WG);
    TallyUpdate(ths, t, th, i, PP);
    TallyUpdate(ths, t, th, i, IP);
  }

  /** A step of one thread that neither counts before nor after it leaves a pool's balance alone. */
  lemma SemUntouched(s: State, s': State, t: nat, i: nat)
    requires i < |s.ready| == |s.sem| == |s'.ready| == |s'.sem|
    requires SemOk(s, i) && s'.sem[i] == s.sem[i] && s'.ready[i] == s.ready[i] && FinPosts(s', i) == FinPosts(s, i)
    requires t < |s.threads| == |s'.threads| && s'.threads == s.threads[t := s'.threads[t]]
    requires WokenOrGone(s.threads[t], i) == WokenOrGone(s'.threads[t], i)
    requires PoppingOrPosting(s.threads[t], i) == PoppingOrPosting(s'.threads[t], i)
    ensures SemOk(s', i)
  {
    hide Tally;
    TalliesMove(s.threads, t, s'.threads[t], i);
  }

  /** Pend, check, pop, put and post keep every open pool's balance. */
  lemma QueueStepsKeepSem(s: State, a: Action, i: nat)
    requires Shape(s) && FinOk(s) && Enabled(s, a)
    requires a.Pend? || a.Check? || a.Pop? || a.PutReady? || a.PostSem?
    requires i < |s.ready| && SemOk(s, i) && OpenPool(s, i)
    ensures SemOk(Apply(s, a), i)
  {
    hide Tally, Settled, InFlight, ScopedPacket, AcquireId;
    var s' := Apply(s, a);
    var t := Actor(a);
    var th := s'.threads[t];
    assert s'.threads == s.threads[t := th];
    TalliesMove(s.threads, t, th, i);
    assert PcOk(s, t);
    if a.Check? && s.threads[t].role == Worker(i) && !s.threads[t].terminate && s.fin.Posting? {
      assert s.fin.pool != i;
    }
  }

  /** All other thread steps: the thread counts neither before nor after. */
  predicate JobStep(a: Action) {
    a.Receive? || a.Route? || a.Exec? || a.AcquireJob? || a.ReleaseJob? || a.DrainOne? || a.DrainEnd? || a.HandOver?
    || a.ServerExit? || a.FinMark?
  }

  /** What such a step does to its own thread, and that it does nothing to the queues and the other threads. */
  lemma JobStepFrame(s: State, a: Action)
    requires Shape(s) && Enabled(s, a) && JobStep(a) && !a.FinMark?
    ensures var s' := Apply(s, a); var t := Actor(a);
            && s'.ready == s.ready && s'.sem == s.sem && s'.fin == s.fin && t < |s.threads| == |s'.threads|
            && s'.threads == s.threads[t := s.threads[t].(pc := s'.threads[t].pc)]
            && !s.threads[t].pc.Woken? && !s.threads[t].pc.Checked? && !s.threads[t].pc.Exited? && !s.threads[t].pc.Post?
            && var pc := s'.threads[t].pc;
               !pc.Woken? && !pc.Checked? && !pc.Post? && (pc.Exited? ==> t == 0)
  {
    hide Tally, Settled, InFlight, ScopedPacket, AcquireId, Find, Dispatch, Acquire, Release, ReturnNext, EndRelease, HandTurn, Complete;
    assert PcOk(s, Actor(a));
  }

  lemma JobStepsKeepSem(s: State, a: Action, i: nat)
    requires Shape(s) && Enabled(s, a) && JobStep(a) && !a.FinMark?
    requires i < |s.ready| && SemOk(s, i)
    ensures |Apply(s, a).ready| == |Apply(s, a).sem| == |s.ready| && SemOk(Apply(s, a), i)
  {
    hide Tally, Apply, Enabled;
    JobStepFrame(s, a);
    assert PcOk(s, Actor(a));
    assert PcOk(s, 0);
    SemUntouched(s, Apply(s, a), Actor(a), i);
  }

  lemma SemKept(s: State, a: Action, i: nat)
    requires Inv(s) && Enabled(s, a) && i < |s.ready| && OpenPool(Apply(s, a), i)
    ensures |Apply(s, a).ready| == |Apply(s, a).sem| == |s.ready| && SemOk(Apply(s, a), i)
  {
    hide Tally, Settled, InFlight, ScopedPacket, AcquireId, Conserved, JobStreams, Everywhere;
    assert OpenPool(s, i) && SemOk(s, i);
    if a.FinMark? {
      SemUntouched(s, Apply(s, a), a.t, i);
    } else if JobStep(a) {
      JobStepFrame(s, a);
      JobStepsKeepSem(s, a, i);
    } else if a.Pend? || a.Check? || a.Pop? || a.PutReady? || a.PostSem? {
      QueueStepsKeepSem(s, a, i);
    }
  }

  /** Roles, pool counts, and threads that have left do not change. */
  lemma ThreadsStay(s: State, a: Action)
    requires Shape(s) && Enabled(s, a)
    ensures |Apply(s, a).threads| == |s.threads| && |Apply(s, a).ready| == |s.ready| && |Apply(s, a).sem| == |s.sem|
    ensures forall t :: 0 <= t < |s.threads| ==> Apply(s, a).threads[t].role == s.threads[t].role
    ensures forall t :: 0 <= t < |s.threads| && s.threads[t].pc.Exited? ==> Apply(s, a).threads[t].pc.Exited?
    ensures forall t :: 0 <= t < |s.threads| && s.threads[t].terminate ==> Apply(s, a).threads[t].terminate
    ensures !a.FinMark? ==> forall t :: 0 <= t < |s.threads| ==> Apply(s, a).threads[t].terminate == s.threads[t].terminate
  {
    hide Apply, Enabled, Shape;
    if JobStep(a) && !a.FinMark? { JobStepFrame(s, a); } else { OthersStay(s, a); }
  }

  lemma OthersStay(s: State, a: Action)
    requires Shape(s) && Enabled(s, a) && (!JobStep(a) || a.FinMark?)
    ensures |Apply(s, a).threads| == |s.threads| && |Apply(s, a).ready| == |s.ready| && |Apply(s, a).sem| == |s.sem|
    ensures forall t :: 0 <= t < |s.threads| ==> Apply(s, a).threads[t].role == s.threads[t].role
    ensures forall t :: 0 <= t < |s.threads| && s.threads[t].pc.Exited? ==> Apply(s, a).threads[t].pc.Exited?
    ensures forall t :: 0 <= t < |s.threads| && s.threads[t].terminate ==> Apply(s, a).threads[t].terminate
    ensures !a.FinMark? ==> forall t :: 0 <= t < |s.threads| ==> Apply(s, a).threads[t].terminate == s.threads[t].terminate
  {
    hide Tally, Settled, InFlight, ScopedPacket, AcquireId, Find, Dispatch, Acquire, Release, ReturnNext, EndRelease, HandTurn, Complete;
  }

  lemma {:induction false} TallyRoles(ths: seq<Thread>, ths': seq<Thread>, i: nat)
    requires |ths| == |ths'| && forall t :: 0 <= t < |ths| ==> ths'[t].role == ths[t].role
    ensures Tally(ths, i, IP) == Tally(ths', i, IP)
  {
    if ths != [] {
      assert forall t :: 0 <= t < |ths[1..]| ==> ths'[1..][t].role == ths[1..][t].role;
      TallyRoles(ths[1..], ths'[1..], i);
    }
  }

  /** Once finalize is past the server thread, only these steps are left. */
  lemma SettledSteps(s: State, a: Action)
    requires Inv(s) && Enabled(s, a) && !s.fin.Serving?
    ensures a.Pend? || a.Check? || a.Pop? || a.Exec? || a.Shutdown? || a.FinJob? || a.FinMark? || a.FinMarked?
            || a.FinPost? || a.FinJoined? || a.FinReturn?
    ensures a.Exec? ==> s.threads[a.t].pc.p.jobId == DISCRETE_JOB_ID && s.threads[a.t].role.Worker?
    ensures a.Pend? || a.Check? || a.Pop? ==> OpenPool(s, s.threads[a.t].role.pool)
  {
    hide Tally, Conserved, JobStreams;
    if a.Exec? { assert PcOk(s, a.t) && PcOk(s, 0); }
    if a.Pend? || a.Check? || a.Pop? { assert PcOk(s, a.t); }
  }

  lemma SettledKept(s: State, a: Action)
    requires Inv(s) && Enabled(s, a) && (a.FinBegin? || !s.fin.Serving?)
    ensures Settled(Apply(s, a)) && Apply(s, a).threads[0].pc.Exited? && !Apply(s, a).fin.Serving?
  {
    hide Inv, Enabled, Apply, Settled;
    if a.FinBegin? {
      BeginSettled(s, a);
    } else {
      SettledSteps(s, a);
      if a.Exec? { ExecSettled(s, a); } else if a.Pend? || a.Check? || a.Pop? { QueueSettled(s, a); } else { FinSettled(s, a); }
    }
  }

  lemma ExecSettled(s: State, a: Action)
    requires Inv(s) && Enabled(s, a) && a.Exec? && !s.fin.Serving?
    ensures Settled(Apply(s, a)) && Apply(s, a).threads[0].pc.Exited? && !Apply(s, a).fin.Serving?
  {
    hide Tally, Conserved, JobStreams, SemOk, AcquireId, Find, InFlight, AllMarked, AllExited, Reply;
    SettledSteps(s, a);
    assert PcOk(s, 0);
  }

  lemma BeginSettled(s: State, a: Action)
    requires Inv(s) && Enabled(s, a) && a.FinBegin?
    ensures Settled(Apply(s, a)) && Apply(s, a).threads[0].pc.Exited? && !Apply(s, a).fin.Serving?
  {
    hide Tally, Conserved, JobStreams, SemOk, AcquireId, Find, InFlight, AllMarked, AllExited, Reply, PoolsOk, FinOk;
  }

  lemma QueueSettled(s: State, a: Action)
    requires Inv(s) && Enabled(s, a) && (a.Pend? || a.Check? || a.Pop?) && !s.fin.Serving?
    ensures Settled(Apply(s, a)) && Apply(s, a).threads[0].pc.Exited? && !Apply(s, a).fin.Serving?
  {
    hide Tally, Conserved, JobStreams, SemOk, AcquireId, Find, InFlight, AllMarked, AllExited, Reply;
    assert PcOk(s, 0);
  }

  lemma FinSettled(s: State, a: Action)
    requires Inv(s) && Enabled(s, a) && !s.fin.Serving?
    requires a.Shutdown? || a.FinJob? || a.FinMark? || a.FinMarked? || a.FinPost? || a.FinJoined? || a.FinReturn?
    ensures Settled(Apply(s, a)) && Apply(s, a).threads[0].pc.Exited? && !Apply(s, a).fin.Serving?
  {
    hide Tally, Conserved, JobStreams, SemOk, AcquireId, Find, InFlight, AllMarked, AllExited, Reply;
  }

  lemma PoolsKept(s: State, a: Action)
    requires Inv(s) && Enabled(s, a)
    ensures |Apply(s, a).ready| == |Apply(s, a).sem| && PoolsOk(Apply(s, a))
  {
    hide Apply, Enabled, Conserved, JobStreams, SemOk, FinOk, AllExited;
    var s' := Apply(s, a);
    ThreadsStay(s, a);
    forall i | 0 <= i < |s.ready| && OpenPool(s', i) ensures SemOk(s', i) { SemKept(s, a, i); }
    if !s.fin.Serving? { ClosedKept(s, a); } else { ServingOn(s, a); }
  }

  lemma ServingOn(s: State, a: Action)
    requires Shape(s) && Enabled(s, a) && s.fin.Serving?
    ensures Apply(s, a).fin.Serving? || Apply(s, a).fin.Jobs?
  {
    hide Tally, Settled, InFlight, ScopedPacket, AcquireId, Find, Dispatch, Acquire, Release, ReturnNext, EndRelease, HandTurn, Complete;
    if JobStep(a) && !a.FinMark? { JobStepFrame(s, a); }
  }

  /** A pool that finalize has joined stays so, and is returned empty. */
  lemma ClosedKept(s: State, a: Action)
    requires Inv(s) && Enabled(s, a) && !s.fin.Serving?
    ensures |Apply(s, a).ready| == |s.ready| && |Apply(s, a).threads| == |s.threads|
    ensures forall i :: 0 <= i < |s.ready| && !OpenPool(Apply(s, a), i) ==> AllExited(Apply(s, a), i)
    ensures forall i :: 0 <= i < |s.ready| && !OpenPool(Apply(s, a), i) && Apply(s, a).fin != Returning(i) ==> Apply(s, a).ready[i] == []
  {
    hide Tally, Conserved, JobStreams, SemOk, Settled, InFlight, AcquireId, Find, Complete, Shape;
    var s' := Apply(s, a);
    ThreadsStay(s, a);
    SettledSteps(s, a);
    forall i | 0 <= i < |s.ready| && !OpenPool(s', i) ensures AllExited(s', i) {
      if OpenPool(s, i) { assert a.FinJoined?; }
    }
  }

  lemma FinKept(s: State, a: Action)
    requires Inv(s) && Enabled(s, a)
    ensures |Apply(s, a).threads| > 0 && FinOk(Apply(s, a))
  {
    hide Conserved, JobStreams, SemOk, Settled, InFlight, AcquireId, Find, Dispatch, Acquire, Release, ReturnNext, EndRelease, HandTurn, Complete, PoolsOk, Tally;
    var s' := Apply(s, a);
    ThreadsStay(s, a);
    if a.FinBegin? || !s.fin.Serving? {
      SettledKept(s, a);
      if s'.fin.Posting? { TallyRoles(s.threads, s'.threads, s'.fin.pool); }
      if !s.fin.Serving? { SettledSteps(s, a); }
    } else {
      assert s'.fin.Serving?;
    }
  }
}
