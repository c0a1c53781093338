// The end of an RCM server: finalize, once past the server thread, always
// comes to its end, with every worker gone.

module RcmFinalize {
  import opened Bags
  import opened Options
  import opened RcmTypes
  import opened RcmJobs
  import opened RcmScheduler
  import opened RcmInvariant
  import opened RcmMoves
  import opened RcmPools
  import opened RcmTheorems
  import opened RcmProgress

  // ----- the posts to a pool make all its workers leave -----

  /** A worker's or the server's own step leaves finalize where it is. */
  lemma InternalKeepsFin(s: State, a: Action)
    requires Shape(s) && Enabled(s, a) && Internal(a)
    ensures Apply(s, a).fin == s.fin
  {
    hide Tally, Settled, InFlight, ScopedPacket, AcquireId, Find, Dispatch, Acquire, Release, ReturnNext, EndRelease, HandTurn, Complete;
    if JobStep(a) && !a.FinMark? { JobStepFrame(s, a); }
  }

  lemma {:induction false} InternalRun(s: State, actions: seq<Action>)
    requires Inv(s) && CanRun(s, actions) && forall a :: a in actions ==> Internal(a)
    ensures Inv(Run(s, actions)) && Run(s, actions).fin == s.fin
    ensures |Run(s, actions).threads| == |s.threads|
    ensures forall i :: Tally(Run(s, actions).threads, i, IP) == Tally(s.threads, i, IP)
    decreases |actions|
  {
    hide Conserved, JobStreams, PoolsOk, FinOk, Enabled, Apply, Internal, Tally;
    if actions != [] {
      assert actions[0] in actions;
      var s1 := Apply(s, actions[0]);
      InvKept(s, actions[0]);
      InternalKeepsFin(s, actions[0]);
      ThreadsStay(s, actions[0]);
      forall i ensures Tally(s1.threads, i, IP) == Tally(s.threads, i, IP) { TallyRoles(s.threads, s1.threads, i); }
      InternalRun(s1, actions[1..]);
    }
  }

  /** Finalize's one post per worker suffices: from a reachable state with all posts to a pool made, the steps of the
    * workers are bounded in number, and where none is left every worker of the pool has left. */
  lemma PostsSuffice(s: State, actions: seq<Action>)
    requires Reachable(s) && s.fin.Posting? && s.fin.posted == Tally(s.threads, s.fin.pool, IP)
    requires CanRun(s, actions) && forall a :: a in actions ==> Internal(a)
    ensures |actions| <= Work(s)
    ensures var s' := Run(s, actions); Stuck(s') ==> AllExited(s', s.fin.pool)
  {
    hide Reachable, Inv, CanRun, Run, Work, Enabled, Tally, Internal;
    ReachableInv(s);
    InternalRunsEnd(s, actions);
    InternalRun(s, actions);
    var s' := Run(s, actions);
    if Stuck(s') {
      forall t | 0 <= t < |s'.threads| && s'.threads[t].role == Worker(s.fin.pool) ensures s'.threads[t].pc.Exited? {
        if !s'.threads[t].pc.Exited? { PostedCanStep(s', t); WorkerInternal(t); }
      }
    }
  }

  lemma WorkerInternal(t: nat)
    ensures Internal(Pend(t)) && Internal(Check(t)) && Internal(Pop(t)) && Internal(Exec(t, FxnOk))
  {
  }

  // ----- finalize comes to its end -----

  /** A step of the workers, or of finalize past the join of the server thread. */
  predicate Ending(a: Action) {
    Internal(a) || a.FinJob? || a.FinMark? || a.FinMarked? || a.FinPost? || a.FinJoined? || a.FinReturn?
  }

  /** n for each of k pools. */
  function Rounds(k: nat, n: nat): nat { if k == 0 then 0 else n + Rounds(k - 1, n) }

  function Rest(pools: nat, j: nat): nat { if j < pools then pools - j else 0 }

  /** The posts finalize can still make, at most n to a pool. */
  function PostsLeft(f: Finalizer, pools: nat, n: nat): int {
    match f
    case Serving => Rounds(pools, n)
    case Jobs => Rounds(pools, n)
    case Marking(j) => Rounds(Rest(pools, j), n)
    case Posting(j, posted) => Rounds(Rest(pools, j), n) - posted
    case Returning(j) => Rounds(Rest(pools, j + 1), n)
    case Finished => 0
  }

  /** The stages still before it. */
  function StagesLeft(f: Finalizer, pools: nat): int {
    match f
    case Serving => 3 * pools + 3
    case Jobs => 3 * pools + 2
    case Marking(j) => 3 * (pools - j) + 1
    case Posting(j, _) => 3 * (pools - j)
    case Returning(j) => 3 * (pools - j) - 1
    case Finished => 0
  }

  function Unmarked(th: Thread, u: ()): nat { if th.terminate then 0 else 1 }

  /** How many steps are left, at most. */
  function EndWork(s: State): int {
    Work(s) + 4 * PostsLeft(s.fin, |s.ready|, |s.threads|) + Count(s.threads, Unmarked, ()) + |s.jobs| + StagesLeft(s.fin, |s.ready|)
  }

  lemma {:induction false} TallySize(ths: seq<Thread>, i: nat)
    ensures Tally(ths, i, IP) <= |ths|
  {
    if ths != [] { TallySize(ths[1..], i); }
  }

  lemma EndWorkNat(s: State)
    requires Inv(s)
    ensures EndWork(s) >= 0
  {
    hide Conserved, JobStreams, PoolsOk, Work, Count, Tally;
    if s.fin.Posting? { TallySize(s.threads, s.fin.pool); }
  }

  /** A worker's step lowers the measure. */
  lemma InternalEnds(s: State, a: Action)
    requires Inv(s) && Enabled(s, a) && Internal(a) && !s.fin.Serving?
    ensures EndWork(Apply(s, a)) < EndWork(s)
  {
    hide Conserved, JobStreams, PoolsOk, FinOk, Work, Count, Rounds, Settled, Tally, InFlight, AcquireId, Find, HandTurn, Release, Acquire, Dispatch;
    var s' := Apply(s, a);
    WorkDrops(s, a);
    InternalKeepsFin(s, a);
    ThreadsStay(s, a);
    SettledSteps(s, a);
    MarksCount(s.threads, s'.threads);
  }

  lemma MarksCount(ths: seq<Thread>, ths': seq<Thread>)
    requires |ths| == |ths'| && forall t :: 0 <= t < |ths| ==> ths'[t].terminate == ths[t].terminate
    ensures Count(ths', Unmarked, ()) == Count(ths, Unmarked, ())
  {
    MarksSame(ths, ths', |ths|);
  }

  lemma {:induction false} MarksSame(ths: seq<Thread>, ths': seq<Thread>, n: nat)
    requires n <= |ths| == |ths'| && forall t :: 0 <= t < |ths| ==> ths'[t].terminate == ths[t].terminate
    ensures Upto(ths', n, Unmarked, ()) == Upto(ths, n, Unmarked, ())
  {
    if n > 0 { MarksSame(ths, ths', n - 1); }
  }

  /** A step of finalize lowers the measure. */
  lemma FinalizerEnds(s: State, a: Action)
    requires Inv(s) && Enabled(s, a) && Ending(a) && !Internal(a)
    ensures EndWork(Apply(s, a)) < EndWork(s)
  {
    hide Conserved, JobStreams, PoolsOk, Count, Settled, Tally, InFlight, AcquireId, Find, Everywhere, Shape;
    if a.FinJob? { JobEnds(s); } else { StageEnds(s, a); }
  }

  lemma JobEnds(s: State)
    requires Enabled(s, FinJob)
    ensures EndWork(Apply(s, FinJob)) < EndWork(s)
  {
    hide Count, Settled, Tally, InFlight, AcquireId, Find;
    if s.jobs != [] {
      CountDrop(s.jobs, 0, JobWork, ());
      assert s.jobs[..0] + s.jobs[1..] == s.jobs[1..];
      CountUpdate(s.jobs, 0, s.jobs[0].(msgQue := if s.jobs[0].msgQue == [] then [] else s.jobs[0].msgQue[1..]), JobWork, ());
    }
  }

  lemma StageEnds(s: State, a: Action)
    requires |s.threads| > 0 && FinOk(s) && Enabled(s, a) && Ending(a) && !Internal(a) && !a.FinJob?
    ensures EndWork(Apply(s, a)) < EndWork(s)
  {
    hide Count, Settled, Tally, InFlight, AcquireId, Find;
    var s' := Apply(s, a);
    match a
    case FinMark(t) =>
      CountUpdate(s.threads, t, s'.threads[t], Unmarked, ());
      CountUpdate(s.threads, t, s'.threads[t], ThreadWork, ());
    case FinMarked =>
    case FinPost => CountUpdate(s.sem, s.fin.pool, s.sem[s.fin.pool] + 1, SemWork, ());
    case FinJoined => TallySize(s.threads, s.fin.pool);
    case FinReturn =>
      if s.ready[s.fin.pool] != [] { CountUpdate(s.ready, s.fin.pool, s.ready[s.fin.pool][1..], ReadyWork, ()); }
    case _ =>
  }

  lemma StillEnding(s: State, a: Action)
    requires Inv(s) && Enabled(s, a) && Ending(a) && !s.fin.Serving?
    ensures !Apply(s, a).fin.Serving?
  {
    hide Inv, Enabled, Apply, Settled;
    SettledKept(s, a);
  }

  /** Past the join of the server thread, where nothing more can be done finalize is finished. */
  lemma EndingCanStep(s: State) returns (a: Action)
    requires Inv(s) && !s.fin.Serving? && !s.fin.Finished?
    ensures Enabled(s, a) && Ending(a)
  {
    hide Conserved, JobStreams, PoolsOk, Tally, Settled, InFlight;
    match s.fin
    case Jobs => a := FinJob;
    case Marking(i) =>
      if AllMarked(s, i) { a := FinMarked; } else {
        var t :| 0 <= t < |s.threads| && s.threads[t].role == Worker(i) && !s.threads[t].terminate;
        a := FinMark(t);
      }
    case Posting(i, posted) =>
      if posted < Tally(s.threads, i, IP) { a := FinPost; }
      else if AllExited(s, i) { a := FinJoined; }
      else {
        var t :| 0 <= t < |s.threads| && s.threads[t].role == Worker(i) && !s.threads[t].pc.Exited?;
        PostedCanStep(s, t);
        a := if Enabled(s, Pend(t)) then Pend(t) else if Enabled(s, Check(t)) then Check(t)
             else if Enabled(s, Pop(t)) then Pop(t) else Exec(t, FxnOk);
      }
    case Returning(i) => a := FinReturn;
  }

  lemma {:induction false} EndingRun(s: State, actions: seq<Action>)
    requires Inv(s) && !s.fin.Serving? && CanRun(s, actions) && forall a :: a in actions ==> Ending(a)
    ensures |actions| <= EndWork(s)
    ensures Inv(Run(s, actions)) && !Run(s, actions).fin.Serving?
    decreases |actions|
  {
    hide Inv, Enabled, Apply, EndWork, Ending, Internal;
    EndWorkNat(s);
    if actions != [] {
      var a := actions[0];
      assert a in actions;
      InvKept(s, a);
      StillEnding(s, a);
      if Internal(a) { InternalEnds(s, a); } else { FinalizerEnds(s, a); }
      EndingRun(Apply(s, a), actions[1..]);
    }
  }

  /** Finalize always ends: from any reachable state with the server thread joined, the steps of the workers and of finalize
    * are bounded in number, and where none is left finalize has finished: every worker has left, every queue is empty, and
    * every packet ever received was answered or freed, once. */
  lemma FinalizeEnds(s: State, actions: seq<Action>)
    requires Reachable(s) && !s.fin.Serving? && CanRun(s, actions) && forall a :: a in actions ==> Ending(a)
    ensures |actions| <= EndWork(s)
    ensures var s' := Run(s, actions);
            (forall a :: Ending(a) ==> !Enabled(s', a)) ==>
              && s'.fin.Finished?
              && (forall t :: 0 <= t < |s'.threads| ==> s'.threads[t].pc.Exited?)
              && s'.jobs == [] && (forall i :: 0 <= i < |s'.ready| ==> s'.ready[i] == [])
              && (forall x :: Count(s'.done, InLog, x) == if x in s'.received then 1 else 0)
  {
    hide Inv, Enabled, CanRun, Run, EndWork, Ending, Count, Reachable;
    ReachableInv(s);
    EndingRun(s, actions);
    var s' := Run(s, actions);
    if forall a :: Ending(a) ==> !Enabled(s', a) {
      if !s'.fin.Finished? { var a := EndingCanStep(s'); }
      CleanWhenFinished(s');
    }
  }
}
