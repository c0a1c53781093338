// Order within each job stream, step by step: a stream has one turn, and the
// turn is taken in the order in which dispatch accepted the messages.

module RcmStreams {
  import opened Bags
  import opened Options
  import opened RcmTypes
  import opened RcmJobs
  import opened RcmScheduler
  import opened RcmInvariant
  import opened RcmMoves
  import opened RcmPools

  // ----- the log -----

  lemma LogAppend(done: seq<(Packet, Outcome)>, p: Packet, o: Outcome, owner: map<Packet, nat>, sid: nat)
    ensures Processed(done + [(p, o)], owner, sid)
            == Processed(done, owner, sid) + if p in owner && owner[p] == sid && o != Answered(Unprocessed) then [p] else []
    ensures SentBack(done + [(p, o)], owner, sid)
            == SentBack(done, owner, sid) + if p in owner && owner[p] == sid && o == Answered(Unprocessed) then [p] else []
  {
    assert (done + [(p, o)])[..|done|] == done;
  }

  /** Accepting p for a stream does not touch what the log says, p not having left yet. */
  lemma {:induction false} LogOwner(done: seq<(Packet, Outcome)>, p: Packet, owner: map<Packet, nat>, to: nat, sid: nat)
    requires p !in owner && forall i :: 0 <= i < |done| ==> done[i].0 != p
    ensures Processed(done, owner[p := to], sid) == Processed(done, owner, sid)
    ensures SentBack(done, owner[p := to], sid) == SentBack(done, owner, sid)
  {
    if done != [] { LogOwner(done[..|done| - 1], p, owner, to, sid); }
  }

  /** A packet some thread holds is held by no other, is on no queue, and is not in the log. */
  lemma HeldOnlyHere(s: State, t: nat, p: Packet)
    requires Conserved(s) && t < |s.threads| && PutOf(s.threads[t].pc) == Some(p)
    ensures Flight(s, p) == 1 && Everywhere(s, p) == 1 && p in s.received
    ensures forall i :: 0 <= i < |s.done| ==> s.done[i].0 != p
  {
    hide Count;
    CountUpdate(s.threads, t, s.threads[t], InHand, p);
    assert Everywhere(s, p) <= 1;
    forall i | 0 <= i < |s.done| ensures s.done[i].0 != p {
      CountUpdate(s.done, i, s.done[i], InLog, p);
    }
  }

  // ----- steps that leave the streams alone -----

  /** s' differs from s in thread t, which takes no part in a release or hand-over, in the ready queues,
    * and in the log by packets of no stream. */
  ghost predicate Aside(s: State, s': State, t: nat) {
    && s'.jobs == s.jobs && s'.streams == s.streams && s'.owner == s.owner && s.received <= s'.received
    && |s'.ready| == |s.ready| && t < |s.threads| == |s'.threads|
    && s'.threads == s.threads[t := s'.threads[t]]
    && (s'.threads[t].pc != s.threads[t].pc ==>
          var pc, pc' := s.threads[t].pc, s'.threads[t].pc;
          !pc.Drain? && !pc.After? && !pc'.Drain? && !pc'.After?)
    && (s'.done == s.done || exists p, o :: p !in s.owner && s'.done == s.done + [(p, o)])
    && (forall p :: p in s.owner ==> Flight(s', p) == Flight(s, p))
  }

  lemma LogAside(s: State, s': State, sid: nat)
    requires s'.owner == s.owner
    requires s'.done == s.done || exists p, o :: p !in s.owner && s'.done == s.done + [(p, o)]
    ensures Processed(s'.done, s'.owner, sid) == Processed(s.done, s.owner, sid)
    ensures SentBack(s'.done, s'.owner, sid) == SentBack(s.done, s.owner, sid)
  {
    if s'.done != s.done {
      var p, o :| p !in s.owner && s'.done == s.done + [(p, o)];
      LogAppend(s.done, p, o, s.owner, sid);
    }
  }

  lemma AsideKeeps(s: State, s': State, t: nat)
    requires JobStreams(s) && Aside(s, s', t) && ThreadOk(s', t)
    requires forall i, k :: 0 <= i < |s'.ready| && 0 <= k < |s'.ready[i]| && s'.ready[i][k].jobId != DISCRETE_JOB_ID ==> s'.ready[i][k] in s.owner
    ensures JobStreams(s')
  {
    hide Flight, Processed, SentBack, Find;
    forall k | 0 <= k < |s'.jobs| ensures JobOk(s', k) { assert JobOk(s, k); }
    forall sid | 0 <= sid < |s'.streams| ensures Ordered(s', sid) && TurnOk(s', sid) && StageOk(s', sid) {
      assert Ordered(s, sid) && TurnOk(s, sid) && StageOk(s, sid);
      LogAside(s, s', sid);
      forall i | 0 <= i < |s'.streams[sid].waiting| ensures Belongs(s', sid, s'.streams[sid].waiting[i]) {
        assert Belongs(s, sid, s.streams[sid].waiting[i]);
      }
    }
    forall u | 0 <= u < |s'.threads| ensures ThreadOk(s', u) { assert ThreadOk(s, u); }
  }

  // ----- steps that touch one stream -----

  ghost predicate StreamOk(s: State, sid: nat)
    requires sid < |s.streams|
  {
    Ordered(s, sid) && TurnOk(s, sid) && StageOk(s, sid)
  }

  ghost predicate OnlyStreamsPc(pc: Pc, sid: nat) {
    (pc.Drain? ==> pc.sid == sid) && (pc.After? ==> pc.sid == sid)
  }

  /** s' differs from s in stream sid, in thread t, which works for sid alone, in the job list as far as sid goes,
    * and in the log and the owners by one packet of sid. */
  ghost predicate OneStream(s: State, s': State, t: nat, sid: nat) {
    && sid < |s.streams| == |s'.streams| && s'.streams == s.streams[sid := s'.streams[sid]]
    && s'.streams[sid].jobId == s.streams[sid].jobId
    && s'.ready == s.ready && s'.received == s.received
    && t < |s.threads| == |s'.threads| && s'.threads == s.threads[t := s'.threads[t]]
    && OnlyStreamsPc(s.threads[t].pc, sid) && OnlyStreamsPc(s'.threads[t].pc, sid)
    && (s'.owner == s.owner
        || (s'.done == s.done
            && exists p :: p !in s.owner && s'.owner == s.owner[p := sid] && forall i :: 0 <= i < |s.done| ==> s.done[i].0 != p))
    && (s'.done == s.done || exists p, o :: p in s.owner && s.owner[p] == sid && s'.done == s.done + [(p, o)])
    && (forall p :: p in s.owner && s.owner[p] != sid ==> Flight(s', p) == Flight(s, p))
    && (forall r :: r != sid && HasJob(s.jobs, r) ==> HasJob(s'.jobs, r))
    && (forall j :: Listed(s'.jobs, j) ==> Listed(s.jobs, j))
  }

  lemma LogElsewhere(s: State, s': State, t: nat, sid: nat, r: nat)
    requires OneStream(s, s', t, sid) && r != sid
    ensures Processed(s'.done, s'.owner, r) == Processed(s.done, s.owner, r)
    ensures SentBack(s'.done, s'.owner, r) == SentBack(s.done, s.owner, r)
  {
    hide Flight, HasJob, Listed;
    if s'.owner != s.owner {
      var p :| p !in s.owner && s'.owner == s.owner[p := sid] && forall i :: 0 <= i < |s.done| ==> s.done[i].0 != p;
      LogOwner(s.done, p, s.owner, sid, r);
    } else if s'.done != s.done {
      var p, o :| p in s.owner && s.owner[p] == sid && s'.done == s.done + [(p, o)];
      LogAppend(s.done, p, o, s.owner, r);
    }
  }

  lemma OthersKeep(s: State, s': State, t: nat, sid: nat, r: nat)
    requires JobStreams(s) && OneStream(s, s', t, sid)
    requires r < |s.streams| && r != sid
    ensures StreamOk(s', r)
  {
    hide Flight, Processed, SentBack, Find, HasJob, Listed, JobsOk;
    assert Ordered(s, r) && TurnOk(s, r) && StageOk(s, r);
    LogElsewhere(s, s', t, sid, r);
    forall i | 0 <= i < |s'.streams[r].waiting| ensures Belongs(s', r, s'.streams[r].waiting[i]) {
      assert Belongs(s, r, s.streams[r].waiting[i]);
    }
  }

  lemma OtherThreadsKeep(s: State, s': State, t: nat, sid: nat, u: nat)
    requires JobStreams(s) && OneStream(s, s', t, sid)
    requires u < |s.threads| && u != t
    requires s.streams[sid].stage != Draining(u) || s'.streams[sid].stage == Draining(u)
    requires s.streams[sid].turn != Handing(u) || s'.streams[sid].turn == Handing(u)
    requires s'.owner == s.owner || !s.threads[u].pc.Got?
    ensures ThreadOk(s', u)
  {
    hide Flight, Processed, SentBack, Find, HasJob, Listed, JobsOk, StreamsOk;
    assert ThreadOk(s, u);
  }

  /** The pieces put together: stream sid and thread t are the step's own business. */
  lemma OneStreamKeeps(s: State, s': State, t: nat, sid: nat)
    requires JobStreams(s) && OneStream(s, s', t, sid)
    requires JobsOk(s') && StreamOk(s', sid) && ThreadOk(s', t)
    requires forall u :: 0 <= u < |s.threads| && u != t ==>
               && (s.streams[sid].stage != Draining(u) || s'.streams[sid].stage == Draining(u))
               && (s.streams[sid].turn != Handing(u) || s'.streams[sid].turn == Handing(u))
               && (s'.owner == s.owner || !s.threads[u].pc.Got?)
    requires forall p :: p in s'.owner ==> p in s.received && p.jobId != DISCRETE_JOB_ID
    requires forall p :: Flight(s', p) > 0 && p in s'.owner && s'.owner[p] == sid ==> s'.streams[sid].turn == Flying(p)
    ensures JobStreams(s')
  {
    hide Flight, Processed, SentBack, Find, HasJob, Listed, JobsOk, ThreadOk, Ordered, TurnOk, StageOk;
    forall r | 0 <= r < |s'.streams| ensures Ordered(s', r) && TurnOk(s', r) && StageOk(s', r) {
      if r != sid { OthersKeep(s, s', t, sid, r); }
    }
    forall u | 0 <= u < |s'.threads| ensures ThreadOk(s', u) {
      if u != t { OtherThreadsKeep(s, s', t, sid, u); }
    }
    forall p | Flight(s', p) > 0 && p in s'.owner ensures s'.streams[s'.owner[p]].turn == Flying(p) {
    }
  }

  // ----- a message is done, and its worker goes on to the hand-over -----

  lemma CompleteKeeps(s: State, t: nat, p: Packet, o: Outcome)
    requires Conserved(s) && JobStreams(s)
    requires t < |s.threads| && s.threads[t].pc == Hold(p) && o != Answered(Unprocessed)
    requires s.threads[t].role.Server? ==> p.jobId == DISCRETE_JOB_ID
    ensures JobStreams(Complete(s, t, p, o))
  {
    hide Flight, Everywhere, Processed, SentBack, Find;
    var s' := Complete(s, t, p, o);
    assert ThreadOk(s, t);
    HeldOnlyHere(s, t, p);
    forall x ensures Flight(s', x) + One(p, x) == Flight(s, x) { CompleteMoves(s, t, p, o, x); }
    if p !in s.owner {
      assert Aside(s, s', t);
      AsideKeeps(s, s', t);
    } else {
      CompleteOwnedKeeps(s, t, p, o);
    }
  }

  lemma CompleteOwnedKeeps(s: State, t: nat, p: Packet, o: Outcome)
    requires Conserved(s) && JobStreams(s)
    requires t < |s.threads| && s.threads[t].pc == Hold(p) && o != Answered(Unprocessed) && p in s.owner
    requires s.threads[t].role.Server? ==> p.jobId == DISCRETE_JOB_ID
    ensures JobStreams(Complete(s, t, p, o))
  {
    hide Flight, Everywhere, Processed, SentBack, Find, HasJob, Listed;
    var s' := Complete(s, t, p, o);
    assert ThreadOk(s, t);
    HeldOnlyHere(s, t, p);
    forall x ensures Flight(s', x) + One(p, x) == Flight(s, x) { CompleteMoves(s, t, p, o, x); }
    var sid := s.owner[p];
    assert s.streams[sid].turn == Flying(p);
    assert TurnOk(s, sid) && Ordered(s, sid) && StageOk(s, sid);
    LogAppend(s.done, p, o, s.owner, sid);
    assert OneStream(s, s', t, sid);
    forall k | 0 <= k < |s'.jobs| ensures JobOk(s', k) { assert JobOk(s, k); }
    assert StageOk(s', sid) by {
      forall i | 0 <= i < |s'.streams[sid].waiting| ensures Belongs(s', sid, s'.streams[sid].waiting[i]) {
        assert Belongs(s, sid, s.streams[sid].waiting[i]);
      }
    }
    assert StreamOk(s', sid);
    OneStreamKeeps(s, s', t, sid);
  }

  /** Belonging survives a step that keeps owners and job ids. */
  lemma WaitingBelongs(s: State, s': State, sid: nat)
    requires sid < |s.streams| == |s'.streams| && StageOk(s, sid) && |s'.ready| == |s.ready|
    requires s'.streams[sid].jobId == s.streams[sid].jobId
    requires forall p :: p in s.owner ==> p in s'.owner && s'.owner[p] == s.owner[p]
    ensures forall i :: 0 <= i < |s.streams[sid].waiting| ==> Belongs(s', sid, s.streams[sid].waiting[i])
  {
    forall i | 0 <= i < |s.streams[sid].waiting| ensures Belongs(s', sid, s.streams[sid].waiting[i]) {
      assert Belongs(s, sid, s.streams[sid].waiting[i]);
    }
  }

  // ----- dispatch -----

  /** What is true of a packet in the server's hands before it is dispatched. */
  lemma GotIsNew(s: State, p: Packet)
    requires Shape(s) && Conserved(s) && JobStreams(s) && s.threads[0].pc == Got(p)
    ensures p !in s.owner && p in s.received && ScopedPacket(s, p) && Flight(s, p) == 1
    ensures forall i :: 0 <= i < |s.done| ==> s.done[i].0 != p
    ensures forall u :: 0 < u < |s.threads| ==> !s.threads[u].pc.Got?
  {
    hide Flight, Everywhere;
    assert PcOk(s, 0) && ThreadOk(s, 0);
    HeldOnlyHere(s, 0, p);
    forall u | 0 < u < |s.threads| ensures !s.threads[u].pc.Got? { assert PcOk(s, u); }
  }

  lemma DispatchKeeps(s: State, p: Packet)
    requires Shape(s) && Conserved(s) && JobStreams(s) && s.threads[0].pc == Got(p)
    ensures JobStreams(Dispatch(s, p))
    ensures var pc := Dispatch(s, p).threads[0].pc; pc.Put? ==> pc.p == p && pc.pool == p.poolId % 0x100
  {
    hide Flight, Everywhere, Processed, SentBack, JobsOk, StreamsOk, Find;
    var s' := Dispatch(s, p);
    GotIsNew(s, p);
    DispatchPool(s, p);
    var (route, jobs) := Admit(s.jobs, p);
    if Resolve(p.poolId, |s.ready|).None? || p.jobId == DISCRETE_JOB_ID || route.NoJob? {
      forall x ensures x in s.owner ==> Flight(s', x) == Flight(s, x) { DispatchMoves(s, p, x); }
      assert ThreadOk(s', 0);
      assert Aside(s, s', 0);
      AsideKeeps(s, s', 0);
    } else if route.ToReady? {
      ToReadyKeeps(s, p);
    } else {
      ToJobKeeps(s, p);
    }
  }

  lemma DispatchPool(s: State, p: Packet)
    requires |s.threads| > 0
    ensures var pc := Dispatch(s, p).threads[0].pc; pc.Put? ==> pc.p == p && pc.pool == p.poolId % 0x100
  {
    hide Dispatch;
  }

  /** An idle job's message gets the job's turn. */
  lemma ToReadyKeeps(s: State, p: Packet)
    requires Shape(s) && Conserved(s) && JobStreams(s) && s.threads[0].pc == Got(p)
    requires Resolve(p.poolId, |s.ready|).Some? && p.jobId != DISCRETE_JOB_ID && Admit(s.jobs, p).0.ToReady?
    ensures JobStreams(Dispatch(s, p))
  {
    hide Flight, Everywhere, Processed, SentBack, HasJob, Listed;
    var s' := Dispatch(s, p);
    GotIsNew(s, p);
    var k := Find(s.jobs, p.jobId);
    var sid := s.jobs[k].sid;
    assert JobOk(s, k) && Ordered(s, sid) && TurnOk(s, sid) && StageOk(s, sid);
    forall x ensures Flight(s', x) == Flight(s, x) { DispatchMoves(s, p, x); }
    LogOwner(s.done, p, s.owner, sid, sid);
    JobsSame(s.jobs, k, s'.jobs[k]);
    forall m | 0 <= m < |s'.jobs| ensures JobOk(s', m) { assert JobOk(s, m); }
    assert JobsOk(s');
    WaitingBelongs(s, s', sid);
    assert Belongs(s', sid, p);
    assert StreamOk(s', sid);
    assert OneStream(s, s', 0, sid);
    OneStreamKeeps(s, s', 0, sid);
  }

  /** A busy job's message waits behind the others. */
  lemma ToJobKeeps(s: State, p: Packet)
    requires Shape(s) && Conserved(s) && JobStreams(s) && s.threads[0].pc == Got(p)
    requires Resolve(p.poolId, |s.ready|).Some? && p.jobId != DISCRETE_JOB_ID && Admit(s.jobs, p).0.ToJob?
    ensures JobStreams(Dispatch(s, p))
  {
    hide Flight, Everywhere, Processed, SentBack, HasJob, Listed;
    var s' := Dispatch(s, p);
    GotIsNew(s, p);
    var k := Find(s.jobs, p.jobId);
    var sid := s.jobs[k].sid;
    assert JobOk(s, k) && Ordered(s, sid) && TurnOk(s, sid) && StageOk(s, sid);
    forall x ensures Flight(s', x) + One(p, x) == Flight(s, x) { DispatchMoves(s, p, x); }
    LogOwner(s.done, p, s.owner, sid, sid);
    JobsSame(s.jobs, k, s'.jobs[k]);
    forall m | 0 <= m < |s'.jobs| ensures JobOk(s', m) { assert JobOk(s, m); }
    assert JobsOk(s');
    WaitingBelongs(s, s', sid);
    assert Belongs(s', sid, p);
    assert StreamOk(s', sid);
    assert OneStream(s, s', 0, sid);
    OneStreamKeeps(s, s', 0, sid);
  }

  /** Changing a job's flag or queue does not change which jobs and ids are listed. */
  lemma JobsSame(jobs: seq<Job>, k: nat, j: Job)
    requires k < |jobs| && j.jobId == jobs[k].jobId && j.sid == jobs[k].sid
    ensures forall r :: HasJob(jobs[k := j], r) <==> HasJob(jobs, r)
    ensures forall i :: Listed(jobs[k := j], i) <==> Listed(jobs, i)
  {
    var jobs' := jobs[k := j];
    forall r ensures HasJob(jobs', r) <==> HasJob(jobs, r) {
      if HasJob(jobs, r) { var m :| 0 <= m < |jobs| && jobs[m].sid == r; assert jobs'[m].sid == r; }
      if HasJob(jobs', r) { var m :| 0 <= m < |jobs| && jobs'[m].sid == r; assert jobs[m].sid == r; }
    }
    forall i ensures Listed(jobs', i) <==> Listed(jobs, i) {
      if Listed(jobs, i) { var m :| 0 <= m < |jobs| && jobs[m].jobId == i; assert jobs'[m].jobId == i; }
      if Listed(jobs', i) { var m :| 0 <= m < |jobs| && jobs'[m].jobId == i; assert jobs[m].jobId == i; }
    }
  }

  // ----- hand-over -----

  /** The hand-over finds the job of the message just processed, or that job has been released. */
  lemma HandOverFinds(s: State, t: nat, jobId: nat, sid: nat)
    requires JobStreams(s) && t < |s.threads| && s.threads[t].pc == After(jobId, sid)
    ensures sid < |s.streams| && s.streams[sid].turn == Handing(t) && s.streams[sid].jobId == jobId
    ensures var k := Find(s.jobs, jobId); k < |s.jobs| ==> s.jobs[k].sid == sid && JobOk(s, k)
  {
    hide Flight, Processed, SentBack, Find;
    assert ThreadOk(s, t) && TurnOk(s, sid) && StageOk(s, sid);
    var k := Find(s.jobs, jobId);
    if k < |s.jobs| {
      assert Listed(s.jobs, jobId) && s.streams[sid].stage.InList?;
      var m :| 0 <= m < |s.jobs| && s.jobs[m].sid == sid;
      assert JobOk(s, m) && JobOk(s, k);
      assert m == k;
    }
  }

  lemma HandTurnKeeps(s: State, t: nat, jobId: nat, sid: nat)
    requires Shape(s) && Conserved(s) && JobStreams(s)
    requires t < |s.threads| && s.threads[t].pc == After(jobId, sid)
    requires forall k :: 0 <= k < |s.jobs| && s.jobs[k].msgQue != [] ==> Resolve(s.jobs[k].msgQue[0].poolId, |s.ready|).Some?
    ensures JobStreams(HandTurn(s, t, jobId, sid))
  {
    hide Flight, Everywhere, Processed, SentBack, HasJob, Listed, Resolve, JobsOk, StreamsOk, OwnersOk;
    var s' := HandTurn(s, t, jobId, sid);
    forall x ensures Flight(s', x) == Flight(s, x) + InHand(s'.threads[t], x) { HandTurnMoves(s, t, jobId, sid, x); }
    var k := Find(s.jobs, jobId);
    if k < |s.jobs| && s.jobs[k].msgQue != [] {
      PassTurn(s, s', t, jobId, sid);
    } else {
      EndTurn(s, s', t, jobId, sid);
    }
  }

  /** Nothing waits, or the job is gone: nobody has the turn. */
  lemma EndTurn(s: State, s': State, t: nat, jobId: nat, sid: nat)
    requires JobStreams(s) && t < |s.threads| && s.threads[t].pc == After(jobId, sid)
    requires var k := Find(s.jobs, jobId); k < |s.jobs| ==> s.jobs[k].msgQue == []
    requires s' == HandTurn(s, t, jobId, sid)
    requires forall x :: Flight(s', x) == Flight(s, x) + InHand(s'.threads[t], x)
    ensures JobStreams(s')
  {
    hide Flight, Processed, SentBack, Find, HasJob, Listed, Resolve;
    HandOverFinds(s, t, jobId, sid);
    var k := Find(s.jobs, jobId);
    assert s'.threads[t].pc.Idle? && s'.streams == s.streams[sid := s.streams[sid].(turn := Free)];
    assert Ordered(s, sid) && TurnOk(s, sid) && StageOk(s, sid);
    WaitingBelongs(s, s', sid);
    if k < |s.jobs| { JobsSame(s.jobs, k, s.jobs[k].(empty := true)); }
    forall m | 0 <= m < |s'.jobs| ensures JobOk(s', m) { assert JobOk(s, m); }
    assert JobsOk(s');
    assert StreamOk(s', sid);
    assert OneStream(s, s', t, sid);
    OneStreamKeeps(s, s', t, sid);
  }

  /** The longest waiting message gets the turn. */
  lemma PassTurn(s: State, s': State, t: nat, jobId: nat, sid: nat)
    requires JobStreams(s) && t < |s.threads| && s.threads[t].pc == After(jobId, sid)
    requires var k := Find(s.jobs, jobId); k < |s.jobs| && s.jobs[k].msgQue != [] && Resolve(s.jobs[k].msgQue[0].poolId, |s.ready|).Some?
    requires s' == HandTurn(s, t, jobId, sid)
    requires forall x :: Flight(s', x) == Flight(s, x) + InHand(s'.threads[t], x)
    ensures JobStreams(s')
  {
    hide Flight, Processed, SentBack, Find, HasJob, Listed, Resolve;
    HandOverFinds(s, t, jobId, sid);
    var k := Find(s.jobs, jobId);
    var q := s.jobs[k].msgQue[0];
    assert Ordered(s, sid) && TurnOk(s, sid) && StageOk(s, sid);
    assert s'.streams == s.streams[sid := s.streams[sid].(turn := Flying(q), waiting := s.streams[sid].waiting[1..])];
    assert PutOf(s'.threads[t].pc) == Some(q);
    assert Belongs(s, sid, s.streams[sid].waiting[0]);
    WaitingBelongs(s, s', sid);
    JobsSame(s.jobs, k, s'.jobs[k]);
    forall m | 0 <= m < |s'.jobs| ensures JobOk(s', m) { assert JobOk(s, m); }
    assert JobsOk(s');
    assert StreamOk(s', sid);
    assert OneStream(s, s', t, sid);
    OneStreamKeeps(s, s', t, sid);
  }

  // ----- release -----

  lemma UnlistSame(jobs: seq<Job>, k: nat)
    requires k < |jobs|
    ensures var jobs' := jobs[..k] + jobs[k + 1..];
            && (forall r :: r != jobs[k].sid && HasJob(jobs, r) ==> HasJob(jobs', r))
            && (forall i :: Listed(jobs', i) ==> Listed(jobs, i))
            && (forall m :: 0 <= m < |jobs'| ==> jobs'[m] == jobs[if m < k then m else m + 1])
  {
    var jobs' := jobs[..k] + jobs[k + 1..];
    forall r | r != jobs[k].sid && HasJob(jobs, r) ensures HasJob(jobs', r) {
      var m :| 0 <= m < |jobs| && jobs[m].sid == r;
      assert jobs'[if m < k then m else m - 1].sid == r;
    }
    forall i | Listed(jobs', i) ensures Listed(jobs, i) {
      var m :| 0 <= m < |jobs'| && jobs'[m].jobId == i;
      assert jobs[if m < k then m else m + 1].jobId == i;
    }
  }

  /** A job leaves the list; stream sid goes on in thread t, or is closed if nothing waits. */
  lemma UnlistKeeps(s: State, s': State, t: nat, k: nat)
    requires JobStreams(s) && k < |s.jobs| && t < |s.threads| == |s'.threads|
    requires var sid := s.jobs[k].sid; var th := s'.threads[t];
             && s'.jobs == s.jobs[..k] + s.jobs[k + 1..] && s'.threads == s.threads[t := th]
             && sid < |s.streams| == |s'.streams|
             && s'.streams == s.streams[sid := s.streams[sid].(stage := s'.streams[sid].stage)]
             && s'.ready == s.ready && s'.received == s.received && s'.done == s.done && s'.owner == s.owner
             && ((s'.streams[sid].stage == Draining(t) && s.threads[t].pc.Hold?
                  && th.pc == Drain(s.threads[t].pc.p, sid, s.jobs[k].msgQue))
                 || (s'.streams[sid].stage.Gone? && s.jobs[k].msgQue == []
                     && th.pc == s.threads[t].pc && !th.pc.Drain? && !th.pc.After?))
    requires forall x :: Flight(s', x) == Flight(s, x)
    ensures JobStreams(s')
  {
    hide Flight, Everywhere, Processed, SentBack, HasJob, Listed, Resolve;
    var sid := s.jobs[k].sid;
    assert JobOk(s, k) && Ordered(s, sid) && TurnOk(s, sid) && StageOk(s, sid) && ThreadOk(s, t);
    UnlistSame(s.jobs, k);
    WaitingBelongs(s, s', sid);
    forall m | 0 <= m < |s'.jobs| ensures JobOk(s', m) { assert JobOk(s, if m < k then m else m + 1); }
    assert JobsOk(s');
    assert !Listed(s'.jobs, s.jobs[k].jobId) by { NotListed(s, k); }
    assert StreamOk(s', sid);
    assert OneStream(s, s', t, sid);
    OneStreamKeeps(s, s', t, sid);
  }

  lemma NotListed(s: State, k: nat)
    requires JobsOk(s) && k < |s.jobs|
    ensures !Listed(s.jobs[..k] + s.jobs[k + 1..], s.jobs[k].jobId)
  {
    hide JobOk;
    var jobs' := s.jobs[..k] + s.jobs[k + 1..];
    forall m | 0 <= m < |jobs'| ensures jobs'[m].jobId != s.jobs[k].jobId {
      assert jobs'[m] == s.jobs[if m < k then m else m + 1];
    }
  }

  /** The job with the id asked for is the one taken, and then none has it. */
  lemma ReleaseTakes(s: State, t: nat, p: Packet)
    requires JobsOk(s) && t < |s.threads| && s.threads[t].pc == Hold(p) && p.kind.JobRel?
    ensures var s' := Release(s, t, p); var pc := s'.threads[t].pc;
            && !Listed(s'.jobs, p.kind.target)
            && (pc.Drain? <==> Listed(s.jobs, p.kind.target))
            && (pc.Drain? ==> pc.sid < |s.streams| && s.streams[pc.sid].jobId == p.kind.target)
  {
    hide Find;
    var k := Find(s.jobs, p.kind.target);
    if k < |s.jobs| {
      assert JobOk(s, k);
      NotListed(s, k);
    }
  }

  lemma ReleaseKeeps(s: State, t: nat, p: Packet)
    requires Shape(s) && Conserved(s) && JobStreams(s)
    requires t < |s.threads| && s.threads[t].pc == Hold(p) && p.kind.JobRel?
    ensures JobStreams(Release(s, t, p))
    ensures var s' := Release(s, t, p); var pc := s'.threads[t].pc;
            && !Listed(s'.jobs, p.kind.target)
            && (pc.Drain? <==> Listed(s.jobs, p.kind.target))
            && (pc.Drain? ==> pc.sid < |s.streams| && s.streams[pc.sid].jobId == p.kind.target)
  {
    hide Flight, Everywhere, Processed, SentBack, HasJob, Listed, Resolve, Find;
    var s' := Release(s, t, p);
    ReleaseTakes(s, t, p);
    var k := Find(s.jobs, p.kind.target);
    assert PcOk(s, t);
    if k == |s.jobs| {
      CompleteKeeps(s, t, p, Answered(JobNotFound));
    } else {
      assert JobOk(s, k);
      forall x ensures Flight(s', x) == Flight(s, x) { ReleaseMoves(s, t, p, x); }
      UnlistKeeps(s, s', t, k);
    }
  }

  lemma ReturnNextKeeps(s: State, t: nat)
    requires Shape(s) && Conserved(s) && JobStreams(s)
    requires t < |s.threads| && s.threads[t].pc.Drain? && s.threads[t].pc.rest != []
    ensures JobStreams(ReturnNext(s, t))
  {
    hide Flight, Everywhere, Processed, SentBack, HasJob, Listed, Resolve, Find;
    var s' := ReturnNext(s, t);
    var Drain(p, sid, rest) := s.threads[t].pc;
    forall x ensures Flight(s', x) == Flight(s, x) { DrainMoves(s, t, x); }
    assert ThreadOk(s, t) && Ordered(s, sid) && TurnOk(s, sid) && StageOk(s, sid);
    ReturnedStream(s, t);
    assert Belongs(s, sid, s.streams[sid].waiting[0]);
    forall m | 0 <= m < |s'.jobs| ensures JobOk(s', m) { assert JobOk(s, m); }
    assert JobsOk(s');
    assert OneStream(s, s', t, sid) by { hide JobOk, ThreadOk, StreamOk, Ordered, TurnOk, StageOk, Belongs; }
    OneStreamKeeps(s, s', t, sid);
  }

  lemma ReturnedStream(s: State, t: nat)
    requires JobStreams(s) && t < |s.threads| && s.threads[t].pc.Drain? && s.threads[t].pc.rest != []
    requires forall x :: Flight(ReturnNext(s, t), x) == Flight(s, x)
    ensures var sid := s.threads[t].pc.sid; sid < |s.streams| == |ReturnNext(s, t).streams| && StreamOk(ReturnNext(s, t), sid)
  {
    hide Flight, Everywhere, Processed, SentBack, HasJob, Listed, Resolve, Find;
    var s' := ReturnNext(s, t);
    var Drain(p, sid, rest) := s.threads[t].pc;
    assert ThreadOk(s, t) && Ordered(s, sid) && TurnOk(s, sid) && StageOk(s, sid);
    assert Belongs(s, sid, s.streams[sid].waiting[0]);
    LogAppend(s.done, rest[0], Answered(Unprocessed), s.owner, sid);
    WaitingBelongs(s, s', sid);
  }

  /** The released job's queue is empty: its stream is closed. */
  lemma CloseStreamKeeps(s: State, s': State, t: nat, sid: nat)
    requires JobStreams(s) && t < |s.threads| && sid < |s.streams|
    requires s.threads[t].pc.Drain? && s.threads[t].pc.sid == sid && s.threads[t].pc.rest == []
    requires s' == SetPc(s, t, Hold(s.threads[t].pc.p)).(streams := s.streams[sid := s.streams[sid].(stage := Gone)])
    requires forall x :: Flight(s', x) == Flight(s, x)
    ensures JobStreams(s')
  {
    hide Flight, Processed, SentBack, HasJob, Listed, Resolve, Find;
    assert ThreadOk(s, t) && Ordered(s, sid) && TurnOk(s, sid) && StageOk(s, sid);
    forall m | 0 <= m < |s'.jobs| ensures JobOk(s', m) { assert JobOk(s, m); }
    assert JobsOk(s');
    assert StreamOk(s', sid);
    assert OneStream(s, s', t, sid);
    OneStreamKeeps(s, s', t, sid);
  }

  lemma ClosingMoves(s: State, s': State, t: nat, x: Packet)
    requires t < |s.threads| && s.threads[t].pc.Drain? && s.threads[t].pc.rest == []
    requires s'.ready == s.ready && s'.jobs == s.jobs && s'.done == s.done
    requires s'.threads == s.threads[t := s.threads[t].(pc := Hold(s.threads[t].pc.p))]
    ensures Flight(s', x) == Flight(s, x) && Everywhere(s', x) == Everywhere(s, x)
  {
    hide Count;
    ThreadMove(s.threads, t, s'.threads[t], x);
  }

  lemma EndReleaseKeeps(s: State, t: nat)
    requires Shape(s) && Conserved(s) && JobStreams(s)
    requires t < |s.threads| && s.threads[t].pc.Drain? && s.threads[t].pc.rest == []
    ensures JobStreams(EndRelease(s, t))
  {
    hide Count, Processed, SentBack, HasJob, Listed, Resolve, Find, JobsOk, StreamsOk;
    var Drain(p, sid, rest) := s.threads[t].pc;
    assert ThreadOk(s, t) && PcOk(s, t);
    var s' := SetPc(s, t, Hold(p)).(streams := s.streams[sid := s.streams[sid].(stage := Gone)]);
    forall x ensures Flight(s', x) == Flight(s, x) && Everywhere(s', x) == Everywhere(s, x) { ClosingMoves(s, s', t, x); }
    hide Flight, Everywhere;
    CloseStreamKeeps(s, s', t, sid);
    CompleteKeeps(s', t, p, Answered(Success));
    assert s'.threads[t := s'.threads[t].(pc := Idle)] == s.threads[t := s.threads[t].(pc := Idle)];
    assert EndRelease(s, t) == Complete(s', t, p, Answered(Success));
  }

  // ----- acquire -----

  /** A fresh stream at the end of the list: its id is listed nowhere and in flight nowhere. */
  lemma NewJobKeeps(s: State, id: nat, tracker: nat)
    requires JobStreams(s) && 1 <= id <= MAX_JOB_ID && !Listed(s.jobs, id) && !InFlight(s, id)
    ensures JobStreams(s.(tracker := tracker, jobs := s.jobs + [Job(id, true, [], |s.streams|)],
                          streams := s.streams + [Stream(id, InList, [], Free, [])]))
  {
    hide Count, Processed, SentBack, Find;
    var s' := s.(tracker := tracker, jobs := s.jobs + [Job(id, true, [], |s.streams|)],
                 streams := s.streams + [Stream(id, InList, [], Free, [])]);
    forall x ensures Flight(s', x) == Flight(s, x) {}
    forall m | 0 <= m < |s'.jobs| ensures JobOk(s', m) { if m < |s.jobs| { assert JobOk(s, m); } }
    forall k, m | 0 <= k < m < |s'.jobs| ensures s'.jobs[k].jobId != s'.jobs[m].jobId && s'.jobs[k].sid != s'.jobs[m].sid {
      assert JobOk(s, k);
    }
    forall r | 0 <= r < |s.streams| ensures Ordered(s', r) && TurnOk(s', r) && StageOk(s', r) {
      assert Ordered(s, r) && TurnOk(s, r) && StageOk(s, r);
      OldStreamKeeps(s, s', r);
    }
    NothingLogged(s, |s.streams|);
    assert s'.jobs[|s.jobs|].sid == |s.streams|;
    assert StreamOk(s', |s.streams|);
    forall u | 0 <= u < |s'.threads| ensures ThreadOk(s', u) { assert ThreadOk(s, u); }
  }

  lemma OldStreamKeeps(s: State, s': State, r: nat)
    requires JobStreams(s) && r < |s.streams| && StreamOk(s, r)
    requires |s'.jobs| == |s.jobs| + 1 && s'.jobs[..|s.jobs|] == s.jobs && !InFlight(s, s'.jobs[|s.jobs|].jobId)
    requires |s'.streams| == |s.streams| + 1 && s'.streams[..|s.streams|] == s.streams
    requires s'.ready == s.ready && s'.threads == s.threads && s'.done == s.done && s'.owner == s.owner
    requires forall x :: Flight(s', x) == Flight(s, x)
    ensures StreamOk(s', r)
  {
    hide Flight, Processed, SentBack, Find;
    assert s'.streams[r] == s.streams[r];
    forall i | 0 <= i < |s'.streams[r].waiting| ensures Belongs(s', r, s'.streams[r].waiting[i]) {
      assert Belongs(s, r, s.streams[r].waiting[i]);
    }
    if HasJob(s.jobs, r) {
      var m :| 0 <= m < |s.jobs| && s.jobs[m].sid == r;
      assert s'.jobs[m].sid == r;
    }
    if Listed(s'.jobs, s.streams[r].jobId) && s.streams[r].turn != Free {
      var m :| 0 <= m < |s'.jobs| && s'.jobs[m].jobId == s.streams[r].jobId;
      assert m < |s.jobs|;
      assert s.jobs[m].jobId == s.streams[r].jobId;
    }
  }

  /** The log knows nothing of a stream that does not exist yet. */
  lemma {:induction false} NothingOwned(done: seq<(Packet, Outcome)>, owner: map<Packet, nat>, sid: nat)
    requires forall p :: p in owner ==> owner[p] != sid
    ensures Processed(done, owner, sid) == [] && SentBack(done, owner, sid) == []
  {
    if done != [] { NothingOwned(done[..|done| - 1], owner, sid); }
  }

  lemma NothingLogged(s: State, sid: nat)
    requires OwnersOk(s) && sid == |s.streams|
    ensures Processed(s.done, s.owner, sid) == [] && SentBack(s.done, s.owner, sid) == []
  {
    hide Flight, ThreadOk;
    NothingOwned(s.done, s.owner, sid);
  }

  lemma AcquireKeeps(s: State, t: nat, p: Packet)
    requires Shape(s) && Conserved(s) && JobStreams(s)
    requires t < |s.threads| && s.threads[t].pc == Hold(p) && !InFlight(s, AcquireId(s.jobs, s.tracker).0)
    ensures JobStreams(Acquire(s, t, p))
  {
    hide Count, Processed, SentBack, Find, JobsOk, StreamsOk, InFlight, SearchId;
    var (id, tracker) := AcquireId(s.jobs, s.tracker);
    assert PcOk(s, t);
    var s1 := s.(tracker := tracker);
    forall x ensures Flight(s1, x) == Flight(s, x) && Everywhere(s1, x) == Everywhere(s, x) {}
    if id == DISCRETE_JOB_ID {
      NeutralKeeps(s, s1);
      CompleteKeeps(s1, t, p, Answered(Error));
    } else {
      AcquireIsSoundAndComplete(s.jobs, s.tracker);
      NewJobKeeps(s, id, tracker);
      var s2 := s.(tracker := tracker, jobs := s.jobs + [Job(id, true, [], |s.streams|)],
                   streams := s.streams + [Stream(id, InList, [], Free, [])]);
      forall x ensures Everywhere(s2, x) == Everywhere(s, x) {
        CountAppend(s.jobs, Job(id, true, [], |s.streams|), InQueue, x);
      }
      CompleteKeeps(s2, t, p, Answered(Success));
    }
  }

  // ----- finalize -----

  /** With no job message in flight every stream is at rest, so every listed job is idle and its queue empty:
    * the queues finalize drains hold nothing. */
  lemma SettledIdle(s: State)
    requires JobStreams(s) && Settled(s)
    ensures forall sid :: 0 <= sid < |s.streams| ==> s.streams[sid].turn.Free?
    ensures forall k :: 0 <= k < |s.jobs| ==> s.jobs[k].empty && s.jobs[k].msgQue == []
  {
    hide Processed, SentBack, Find;
    forall sid | 0 <= sid < |s.streams| ensures s.streams[sid].turn.Free? {
      assert TurnOk(s, sid);
      var turn := s.streams[sid].turn;
      if turn.Flying? {
        var p := turn.p;
        assert Belongs(s, sid, p) && UsesJobs(p);
        if Count(s.ready, Occurs, p) > 0 {
          var i := UptoMember(s.ready, |s.ready|, Occurs, p);
          OccursMember(s.ready[i], p);
        } else {
          var u := UptoMember(s.threads, |s.threads|, InHand, p);
        }
        assert false;
      }
    }
    forall k | 0 <= k < |s.jobs| ensures s.jobs[k].empty && s.jobs[k].msgQue == [] { assert JobOk(s, k); }
  }

  lemma FinJobKeeps(s: State)
    requires Shape(s) && JobStreams(s) && Settled(s) && Enabled(s, FinJob)
    ensures JobStreams(Apply(s, FinJob))
  {
    hide Processed, SentBack, Find, HasJob, Listed;
    var s' := Apply(s, FinJob);
    SettledIdle(s);
    assert Settled(s);
    forall x ensures Flight(s', x) == Flight(s, x) { FinMoves(s, FinJob, x); }
    if s.jobs != [] {
      assert JobOk(s, 0);
      assert s.jobs[..0] + s.jobs[1..] == s.jobs[1..];
      UnlistKeeps(s, s', 0, 0);
    } else {
      NeutralKeeps(s, s');
    }
  }

  /** Shutdown, the finalizer's flags and posts. */
  lemma NeutralKeeps(s: State, s': State)
    requires JobStreams(s) && |s.threads| > 0
    requires s'.jobs == s.jobs && s'.streams == s.streams && s'.owner == s.owner && s'.received == s.received
    requires s'.ready == s.ready && s'.done == s.done && |s'.threads| == |s.threads|
    requires forall t :: 0 <= t < |s.threads| ==> s'.threads[t].pc == s.threads[t].pc
    requires forall x :: Flight(s', x) == Flight(s, x)
    ensures JobStreams(s')
  {
    hide Flight, Processed, SentBack, Find, HasJob, Listed;
    forall m | 0 <= m < |s'.jobs| ensures JobOk(s', m) { assert JobOk(s, m); }
    forall r | 0 <= r < |s.streams| ensures Ordered(s', r) && TurnOk(s', r) && StageOk(s', r) {
      assert Ordered(s, r) && TurnOk(s, r) && StageOk(s, r);
      WaitingBelongs(s, s', r);
    }
    forall u | 0 <= u < |s'.threads| ensures ThreadOk(s', u) { assert ThreadOk(s, u); }
  }
}
