// How each step moves packets: none is made, lost or copied.
module RcmMoves {
  import opened Bags
  import opened Options
  import opened RcmTypes
  import opened RcmJobs
  import opened RcmScheduler
  import opened RcmInvariant

  /** A thread's new pc exchanges what the thread holds. */
  lemma ThreadMove(ths: seq<Thread>, t: nat, th: Thread, x: Packet)
    requires t < |ths|
    ensures Count(ths[t := th], InHand, x) + InHand(ths[t], x) == Count(ths, InHand, x) + InHand(th, x)
    ensures Count(ths[t := th], InRest, x) + InRest(ths[t], x) == Count(ths, InRest, x) + InRest(th, x)
  {
    CountUpdate(ths, t, th, InHand, x);
    CountUpdate(ths, t, th, InRest, x);
  }

  lemma LogMove(done: seq<(Packet, Outcome)>, d: (Packet, Outcome), x: Packet)
    ensures Count(done + [d], InLog, x) == Count(done, InLog, x) + One(d.0, x)
  {
    CountAppend(done, d, InLog, x);
  }

  // ----- conservation, for an arbitrary packet x -----

  lemma CompleteMoves(s: State, t: nat, p: Packet, o: Outcome, x: Packet)
    requires t < |s.threads| && PutOf(s.threads[t].pc) == Some(p) && InRest(s.threads[t], x) == 0
    ensures var s' := Complete(s, t, p, o);
            Flight(s', x) + One(p, x) == Flight(s, x) && Everywhere(s', x) == Everywhere(s, x)
  {
    hide Count;
    var s' := Complete(s, t, p, o);
    var th := s.threads[t].(pc := Finish(s.threads[t], p, s.owner));
    assert s'.threads == s.threads[t := th] && PutOf(th.pc).None? && InRest(th, x) == 0;
    assert s'.ready == s.ready && s'.jobs == s.jobs && s'.done == s.done + [(p, o)];
    ThreadMove(s.threads, t, th, x);
    LogMove(s.done, (p, o), x);
  }

  lemma DispatchMoves(s: State, p: Packet, x: Packet)
    requires |s.threads| > 0 && s.threads[0].pc == Got(p)
    ensures var s' := Dispatch(s, p);
            && Everywhere(s', x) == Everywhere(s, x)
            && Flight(s', x) + (if s'.threads[0].pc.Put? then 0 else One(p, x)) == Flight(s, x)
  {
    hide Count, Find, Resolve;
    var s' := Dispatch(s, p);
    var th := s'.threads[0];
    assert s'.threads == s.threads[0 := th] && s'.ready == s.ready && InRest(th, x) == 0;
    ThreadMove(s.threads, 0, th, x);
    if th.pc.Put? {
      assert s'.done == s.done;
      var k := Find(s.jobs, p.jobId);
      if s'.jobs != s.jobs {
        assert s'.jobs == s.jobs[k := s.jobs[k].(empty := false)];
        CountUpdate(s.jobs, k, s'.jobs[k], InQueue, x);
      }
    } else if s'.done == s.done {
      var k := Find(s.jobs, p.jobId);
      assert s'.jobs == s.jobs[k := s.jobs[k].(msgQue := s.jobs[k].msgQue + [p])];
      CountUpdate(s.jobs, k, s'.jobs[k], InQueue, x);
      OccursAppend(s.jobs[k].msgQue, p, x);
    } else {
      var d := s'.done[|s.done|];
      assert s'.jobs == s.jobs && d.0 == p && s'.done == s.done + [d];
      LogMove(s.done, d, x);
    }
  }

  lemma HandTurnMoves(s: State, t: nat, jobId: nat, sid: nat, x: Packet)
    requires t < |s.threads| && s.threads[t].pc == After(jobId, sid)
    requires forall k :: 0 <= k < |s.jobs| && s.jobs[k].msgQue != [] ==> Resolve(s.jobs[k].msgQue[0].poolId, |s.ready|).Some?
    ensures var s' := HandTurn(s, t, jobId, sid);
            && Everywhere(s', x) == Everywhere(s, x)
            && Flight(s', x) == Flight(s, x) + InHand(s'.threads[t], x)
  {
    hide Count;
    var s' := HandTurn(s, t, jobId, sid);
    var th := s'.threads[t];
    assert s'.threads == s.threads[t := th] && s'.ready == s.ready && s'.done == s.done && InRest(th, x) == 0;
    ThreadMove(s.threads, t, th, x);
    var k := Find(s.jobs, jobId);
    if k < |s.jobs| {
      assert s'.jobs == s.jobs[k := s'.jobs[k]];
      CountUpdate(s.jobs, k, s'.jobs[k], InQueue, x);
      if s.jobs[k].msgQue != [] {
        OccursTail(s.jobs[k].msgQue, x);
        assert PutOf(th.pc) == Some(s.jobs[k].msgQue[0]) && s'.jobs[k].msgQue == s.jobs[k].msgQue[1..];
      } else {
        assert PutOf(th.pc).None? && s'.jobs[k].msgQue == [];
      }
    } else {
      assert PutOf(th.pc).None? && s'.jobs == s.jobs;
    }
  }

  lemma ReleaseMoves(s: State, t: nat, p: Packet, x: Packet)
    requires t < |s.threads| && s.threads[t].pc == Hold(p) && p.kind.JobRel?
    ensures var s' := Release(s, t, p);
            && Everywhere(s', x) == Everywhere(s, x)
            && Flight(s', x) + (if s'.threads[t].pc.Drain? then 0 else One(p, x)) == Flight(s, x)
  {
    hide Count;
    var (job, jobs) := Unlist(s.jobs, p.kind.target);
    if job.None? {
      CompleteMoves(s, t, p, Answered(JobNotFound), x);
    } else {
      var s' := Release(s, t, p);
      var th := s.threads[t].(pc := Drain(p, job.value.sid, job.value.msgQue));
      assert s'.threads == s.threads[t := th] && s'.ready == s.ready && s'.done == s.done && s'.jobs == jobs;
      ThreadMove(s.threads, t, th, x);
      CountDrop(s.jobs, Find(s.jobs, p.kind.target), InQueue, x);
    }
  }

  lemma AcquireMoves(s: State, t: nat, p: Packet, x: Packet)
    requires t < |s.threads| && s.threads[t].pc == Hold(p)
    ensures var s' := Acquire(s, t, p);
            Everywhere(s', x) == Everywhere(s, x) && Flight(s', x) + One(p, x) == Flight(s, x)
  {
    hide Count;
    var (id, tracker) := AcquireId(s.jobs, s.tracker);
    if id == DISCRETE_JOB_ID {
      CompleteMoves(s.(tracker := tracker), t, p, Answered(Error), x);
    } else {
      var j := Job(id, true, [], |s.streams|);
      var s1 := s.(tracker := tracker, jobs := s.jobs + [j], streams := s.streams + [Stream(id, InList, [], Free, [])]);
      CountAppend(s.jobs, j, InQueue, x);
      CompleteMoves(s1, t, p, Answered(Success), x);
    }
  }

  lemma DrainMoves(s: State, t: nat, x: Packet)
    requires t < |s.threads| && s.threads[t].pc.Drain?
    ensures s.threads[t].pc.rest != [] ==>
              Everywhere(ReturnNext(s, t), x) == Everywhere(s, x) && Flight(ReturnNext(s, t), x) == Flight(s, x)
    ensures s.threads[t].pc.rest == [] ==>
              && Everywhere(EndRelease(s, t), x) == Everywhere(s, x)
              && Flight(EndRelease(s, t), x) + One(s.threads[t].pc.p, x) == Flight(s, x)
  {
    hide Count;
    var Drain(p, sid, rest) := s.threads[t].pc;
    if rest != [] {
      OccursTail(rest, x);
      var s' := ReturnNext(s, t);
      var th := s.threads[t].(pc := Drain(p, sid, rest[1..]));
      assert s'.threads == s.threads[t := th] && s'.ready == s.ready && s'.jobs == s.jobs;
      assert s'.done == s.done + [(rest[0], Answered(Unprocessed))];
      ThreadMove(s.threads, t, th, x);
      LogMove(s.done, (rest[0], Answered(Unprocessed)), x);
    } else {
      var s1 := s.(streams := if sid < |s.streams| then s.streams[sid := s.streams[sid].(stage := Gone)] else s.streams);
      assert EndRelease(s, t) == Complete(s1, t, p, Answered(Success));
      assert InRest(s.threads[t], x) == 0;
      CompleteMoves(s1, t, p, Answered(Success), x);
    }
  }

  /** The thread that takes a step. */
  function Actor(a: Action): nat {
    match a
    case Pend(t) => t case Check(t) => t case Pop(t) => t case Exec(t, _) => t case AcquireJob(t) => t
    case ReleaseJob(t) => t case DrainOne(t) => t case DrainEnd(t) => t case HandOver(t) => t
    case PutReady(t) => t case PostSem(t) => t case FinMark(t) => t
    case _ => 0
  }

  /** Steps that leave job list, histories and log alone. */
  predicate QueueStep(a: Action) {
    a.Pend? || a.Check? || a.Pop? || a.PutReady? || a.PostSem? || a.ServerExit? || a.FinMark?
    || a.Shutdown? || a.FinBegin? || a.FinMarked? || a.FinPost? || a.FinJoined?
  }

  /** A put and a pop move one packet between a thread and a ready queue. */
  lemma ReadyMoves(s: State, t: nat, pc: Pc, i: nat, q: seq<Packet>, p: Packet, x: Packet)
    requires t < |s.threads| && i < |s.ready| && !s.threads[t].pc.Drain? && !pc.Drain?
    requires || (s.ready[i] == [p] + q && PutOf(s.threads[t].pc).None? && PutOf(pc) == Some(p))
             || (q == s.ready[i] + [p] && PutOf(s.threads[t].pc) == Some(p) && PutOf(pc).None?)
    ensures var s' := SetPc(s, t, pc).(ready := s.ready[i := q]);
            Everywhere(s', x) == Everywhere(s, x) && Flight(s', x) == Flight(s, x)
  {
    hide Count;
    ThreadMove(s.threads, t, s.threads[t].(pc := pc), x);
    CountUpdate(s.ready, i, q, Occurs, x);
    if s.ready[i] == [p] + q {
      OccursTail(s.ready[i], x);
      assert s.ready[i][1..] == q;
    } else {
      OccursAppend(s.ready[i], p, x);
    }
  }

  /** A change of pc (or of the terminate flag) that moves no packet. */
  lemma PcMove(s: State, t: nat, th: Thread, x: Packet)
    requires t < |s.threads| && PutOf(s.threads[t].pc) == PutOf(th.pc) && !s.threads[t].pc.Drain? && !th.pc.Drain?
    ensures var s' := s.(threads := s.threads[t := th]);
            Everywhere(s', x) == Everywhere(s, x) && Flight(s', x) == Flight(s, x)
  {
    hide Count;
    ThreadMove(s.threads, t, th, x);
  }

  /** The steps of threads waiting for, taking and posting packets. */
  lemma QueueMoves(s: State, a: Action, x: Packet)
    requires Enabled(s, a) && QueueStep(a)
    requires a.FinMark? ==> !s.threads[a.t].pc.Drain?
    ensures var s' := Apply(s, a);
            Everywhere(s', x) == Everywhere(s, x) && Flight(s', x) == Flight(s, x)
  {
    hide Count, Settled, InFlight, AllMarked, AllExited, Tally, ScopedPacket, AcquireId;
    match a
    case Pop(t) =>
      var i := s.threads[t].role.pool;
      if s.ready[i] != [] {
        var p := s.ready[i][0];
        assert s.ready[i] == [p] + s.ready[i][1..];
        ReadyMoves(s, t, Hold(p), i, s.ready[i][1..], p, x);
      } else {
        PcMove(s, t, s.threads[t].(pc := Idle), x);
      }
    case PutReady(t) =>
      var Put(p, i) := s.threads[t].pc;
      ReadyMoves(s, t, Post(i), i, s.ready[i] + [p], p, x);
    case Pend(t) => PcMove(s, t, s.threads[t].(pc := Woken), x);
    case Check(t) => PcMove(s, t, s.threads[t].(pc := if s.threads[t].terminate then Exited else Checked), x);
    case PostSem(t) => PcMove(s, t, s.threads[t].(pc := Idle), x);
    case ServerExit => PcMove(s, 0, s.threads[0].(pc := Exited), x);
    case FinMark(t) => PcMove(s, t, s.threads[t].(terminate := true), x);
    case _ =>
  }

  lemma FinMoves(s: State, a: Action, x: Packet)
    requires Enabled(s, a) && (a.FinJob? || a.FinReturn?)
    ensures var s' := Apply(s, a);
            && Everywhere(s', x) == Everywhere(s, x)
            && Flight(s, x) == Flight(s', x)
                 + if a.FinReturn? && s.ready[s.fin.pool] != [] then One(s.ready[s.fin.pool][0], x) else 0
  {
    hide Count;
    if a.FinJob? {
      if s.jobs == [] {
      } else if s.jobs[0].msgQue == [] {
        CountDrop(s.jobs, 0, InQueue, x);
        assert s.jobs[..0] + s.jobs[1..] == s.jobs[1..];
      } else {
        var q := s.jobs[0].msgQue;
        CountUpdate(s.jobs, 0, s.jobs[0].(msgQue := q[1..]), InQueue, x);
        OccursTail(q, x);
        LogMove(s.done, (q[0], Answered(Unprocessed)), x);
      }
    } else {
      var i := s.fin.pool;
      if s.ready[i] != [] {
        CountUpdate(s.ready, i, s.ready[i][1..], Occurs, x);
        OccursTail(s.ready[i], x);
        LogMove(s.done, (s.ready[i][0], Answered(Unprocessed)), x);
      }
    }
  }

  /** Receiving p brings p in; routing it in-band keeps it. */
  lemma ReceiveMoves(s: State, pc: Pc, x: Packet)
    requires |s.threads| > 0
    ensures var s' := SetPc(s, 0, pc);
            && Flight(s', x) + InHand(s.threads[0], x) == Flight(s, x) + InHand(s'.threads[0], x)
            && Waiting(s', x) + InRest(s.threads[0], x) == Waiting(s, x) + InRest(s'.threads[0], x)
  {
    hide Count;
    ThreadMove(s.threads, 0, s.threads[0].(pc := pc), x);
  }

  /** Dispatch resolved the pool of every packet before it was queued. */
  lemma QueuesResolve(s: State)
    requires Inv(s)
    ensures forall k :: 0 <= k < |s.jobs| && s.jobs[k].msgQue != [] ==> Resolve(s.jobs[k].msgQue[0].poolId, |s.ready|).Some?
  {
    hide Count;
    forall k | 0 <= k < |s.jobs| && s.jobs[k].msgQue != []
      ensures Resolve(s.jobs[k].msgQue[0].poolId, |s.ready|).Some?
    {
      assert JobOk(s, k);
      assert StageOk(s, s.jobs[k].sid);
      assert Belongs(s, s.jobs[k].sid, s.streams[s.jobs[k].sid].waiting[0]);
    }
  }

  /** During finalize no thread is releasing, handing over or posting. */
  lemma SettledPcs(s: State)
    requires Inv(s) && !s.fin.Serving?
    ensures forall t :: 0 <= t < |s.threads| ==>
              !s.threads[t].pc.Drain? && !s.threads[t].pc.After? && !s.threads[t].pc.Put? && !s.threads[t].pc.Post? && !s.threads[t].pc.Got?
  {
    hide Count;
  }

  /** No step makes, loses or copies a packet; only Receive brings one in. */
  lemma StepMoves(s: State, a: Action, x: Packet)
    requires Inv(s) && Enabled(s, a)
    ensures Everywhere(Apply(s, a), x) == Everywhere(s, x) + if a.Receive? then One(a.p, x) else 0
  {
    hide Count, Settled, InFlight, AllMarked, AllExited, Tally, ScopedPacket, AcquireId, JobStreams, PoolsOk, FinOk;
    match a
    case Receive(p) => ReceiveMoves(s, Got(p), x);
    case Route =>
      var p := s.threads[0].pc.p;
      if InBand(s, p) { ReceiveMoves(s, Hold(p), x); } else { DispatchMoves(s, p, x); }
    case Exec(t, r) => CompleteMoves(s, t, s.threads[t].pc.p, Reply(s.threads[t].pc.p.kind, r), x);
    case AcquireJob(t) => AcquireMoves(s, t, s.threads[t].pc.p, x);
    case ReleaseJob(t) => ReleaseMoves(s, t, s.threads[t].pc.p, x);
    case DrainOne(t) => DrainMoves(s, t, x);
    case DrainEnd(t) => DrainMoves(s, t, x);
    case HandOver(t) =>
      QueuesResolve(s);
      HandTurnMoves(s, t, s.threads[t].pc.jobId, s.threads[t].pc.sid, x);
    case FinJob => FinMoves(s, a, x);
    case FinReturn => FinMoves(s, a, x);
    case FinMark(t) =>
      SettledPcs(s);
      QueueMoves(s, a, x);
    case _ => QueueMoves(s, a, x);
  }

  lemma ConservedKept(s: State, a: Action)
    requires Inv(s) && Enabled(s, a)
    ensures Conserved(Apply(s, a))
  {
    hide Count, Everywhere, JobStreams, PoolsOk, FinOk;
    var s' := Apply(s, a);
    forall x ensures Everywhere(s', x) == if x in s'.received then 1 else 0 {
      StepMoves(s, a, x);
    }
  }
}
