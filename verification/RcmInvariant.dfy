// What holds in every state the RCM server can reach: conservation of packets,
// order within each job stream, semaphore counts, and an orderly finalize.

module RcmInvariant {
  import opened Bags
  import opened Options
  import opened RcmTypes
  import opened RcmJobs
  import opened RcmScheduler

  /** Types of the state: which thread can stand where, and where a put is headed. */
  predicate PcOk(s: State, t: nat)
    requires t < |s.threads|
  {
    var th := s.threads[t];
    && (t == 0 <==> th.role.Server?)
    && (th.role.Server? ==> !th.pc.Woken? && !th.pc.Checked? && !th.pc.After?)
    && (th.role.Server? && (th.pc.Hold? || th.pc.Drain?) ==> th.pc.p.jobId == DISCRETE_JOB_ID)
    && (th.role.Worker? ==> th.role.pool < |s.ready| && !th.pc.Got?)
    && (th.pc.Got? ==> ScopedPacket(s, th.pc.p))
    && (th.pc.Put? ==> Resolve(th.pc.p.poolId, |s.ready|) == Some(th.pc.pool))
    && (th.pc.Post? ==> th.pc.pool < |s.ready|)
    && (th.pc.After? ==> th.pc.jobId != DISCRETE_JOB_ID)
  }

  ghost predicate Shape(s: State) {
    && 1 <= |s.ready| == |s.sem| <= MAX_POOLS
    && |s.threads| > 0
    && s.tracker <= MAX_JOB_ID
    && (forall t :: 0 <= t < |s.threads| ==> PcOk(s, t))
  }

  /** Every packet received is in exactly one place: a ready queue, a job queue, one thread's hands, or the log. */
  ghost predicate Conserved(s: State) {
    forall x :: Everywhere(s, x) == if x in s.received then 1 else 0
  }

  // ----- job streams -----

  function Fly(t: Turn): seq<Packet> { if t.Flying? then [t.p] else [] }

  ghost predicate HasJob(jobs: seq<Job>, sid: nat) {
    exists k :: 0 <= k < |jobs| && jobs[k].sid == sid
  }

  ghost predicate JobOk(s: State, k: nat)
    requires k < |s.jobs|
  {
    var j := s.jobs[k];
    && j.sid < |s.streams|
    && s.streams[j.sid].stage.InList?
    && s.streams[j.sid].jobId == j.jobId
    && s.streams[j.sid].waiting == j.msgQue
    && (j.empty <==> s.streams[j.sid].turn.Free?)
    && (j.empty ==> j.msgQue == [])
  }

  ghost predicate JobsOk(s: State) {
    && (forall k :: 0 <= k < |s.jobs| ==> JobOk(s, k))
    && (forall k, m :: 0 <= k < m < |s.jobs| ==> s.jobs[k].jobId != s.jobs[m].jobId && s.jobs[k].sid != s.jobs[m].sid)
  }

  /** The messages accepted for a stream, in dispatch order: processed, in flight, sent back, still queued. */
  ghost predicate Ordered(s: State, sid: nat)
    requires sid < |s.streams|
  {
    var st := s.streams[sid];
    && st.accepted == Processed(s.done, s.owner, sid) + Fly(st.turn) + SentBack(s.done, s.owner, sid) + st.waiting
    && (st.stage.InList? ==> SentBack(s.done, s.owner, sid) == [])
  }

  ghost predicate Belongs(s: State, sid: nat, q: Packet)
    requires sid < |s.streams|
  {
    q in s.owner && s.owner[q] == sid && q.jobId == s.streams[sid].jobId && Resolve(q.poolId, |s.ready|).Some?
  }

  ghost predicate TurnOk(s: State, sid: nat)
    requires sid < |s.streams|
  {
    var st := s.streams[sid];
    && (st.turn.Flying? ==> Flight(s, st.turn.p) > 0 && Belongs(s, sid, st.turn.p))
    && (st.turn.Handing? ==> st.turn.thread < |s.threads| && s.threads[st.turn.thread].pc == After(st.jobId, sid))
    && (!st.turn.Free? && !st.stage.InList? ==> !Listed(s.jobs, st.jobId))
  }

  ghost predicate StageOk(s: State, sid: nat)
    requires sid < |s.streams|
  {
    var st := s.streams[sid];
    && 1 <= st.jobId <= MAX_JOB_ID
    && (st.stage.InList? ==> HasJob(s.jobs, sid))
    && (st.stage.Draining? ==> st.stage.thread < |s.threads| && s.threads[st.stage.thread].pc.Drain?
                               && s.threads[st.stage.thread].pc.sid == sid && s.threads[st.stage.thread].pc.rest == st.waiting)
    && (st.stage.Gone? ==> st.waiting == [])
    && (forall i :: 0 <= i < |st.waiting| ==> Belongs(s, sid, st.waiting[i]))
  }

  ghost predicate StreamsOk(s: State) {
    && (forall sid :: 0 <= sid < |s.streams| ==> Ordered(s, sid))
    && (forall sid :: 0 <= sid < |s.streams| ==> TurnOk(s, sid))
    && (forall sid :: 0 <= sid < |s.streams| ==> StageOk(s, sid))
  }

  ghost predicate ThreadOk(s: State, t: nat)
    requires t < |s.threads|
  {
    var pc := s.threads[t].pc;
    && (pc.Drain? ==> pc.sid < |s.streams| && s.streams[pc.sid].stage == Draining(t))
    && (pc.After? ==> pc.sid < |s.streams| && s.streams[pc.sid].turn == Handing(t) && s.streams[pc.sid].jobId == pc.jobId)
    && (pc.Got? ==> pc.p !in s.owner)
    && (PutOf(pc).Some? && !pc.Got? && PutOf(pc).value.jobId != DISCRETE_JOB_ID ==> PutOf(pc).value in s.owner)
  }

  ghost predicate OwnersOk(s: State) {
    && (forall t :: 0 <= t < |s.threads| ==> ThreadOk(s, t))
    && (forall i, k :: 0 <= i < |s.ready| && 0 <= k < |s.ready[i]| && s.ready[i][k].jobId != DISCRETE_JOB_ID ==> s.ready[i][k] in s.owner)
    && (forall p :: p in s.owner ==> p in s.received && p.jobId != DISCRETE_JOB_ID && s.owner[p] < |s.streams|)
    // a stream's packet in flight is the one whose turn it is
    && (forall p :: Flight(s, p) > 0 && p in s.owner ==> s.streams[s.owner[p]].turn == Flying(p))
  }

  ghost predicate JobStreams(s: State) {
    JobsOk(s) && StreamsOk(s) && OwnersOk(s)
  }

  // ----- semaphores and finalize -----

  /** The pool has not been joined by finalize. */
  predicate OpenPool(s: State, i: nat) {
    match s.fin
    case Serving => true
    case Jobs => true
    case Marking(j) => j <= i
    case Posting(j, _) => j <= i
    case Returning(j) => j < i
    case Finished => false
  }

  function FinPosts(s: State, i: nat): nat {
    if s.fin.Posting? && s.fin.pool == i then s.fin.posted else 0
  }

  /** Counts and ready queue agree; a worker past the terminate check, or a post still to come, has its packet. */
  ghost predicate SemOk(s: State, i: nat)
    requires i < |s.ready| == |s.sem|
  {
    && s.sem[i] + Tally(s.threads, i, WG) + Tally(s.threads, i, PP) == |s.ready[i]| + FinPosts(s, i)
    && Tally(s.threads, i, PP) <= |s.ready[i]|
  }

  ghost predicate PoolsOk(s: State)
    requires |s.ready| == |s.sem|
  {
    && (forall i :: 0 <= i < |s.ready| && OpenPool(s, i) ==> SemOk(s, i))
    && (forall i :: 0 <= i < |s.ready| && !OpenPool(s, i) ==> AllExited(s, i))
    && (forall i :: 0 <= i < |s.ready| && !OpenPool(s, i) && s.fin != Returning(i) ==> s.ready[i] == [])
  }

  ghost predicate FinOk(s: State)
    requires |s.threads| > 0
  {
    && (!s.fin.Serving? ==> s.threads[0].pc.Exited? && Settled(s))
    && (!s.fin.Serving? && !s.fin.Jobs? ==> s.jobs == [])
    && ((s.fin.Marking? || s.fin.Posting? || s.fin.Returning?) ==> s.fin.pool < |s.ready|)
    && (s.fin.Posting? ==> AllMarked(s, s.fin.pool) && s.fin.posted <= Tally(s.threads, s.fin.pool, IP))
    && (s.fin.Serving? ==> forall t :: 0 <= t < |s.threads| ==> !s.threads[t].terminate)
  }

  ghost predicate Inv(s: State) {
    Shape(s) && Conserved(s) && JobStreams(s) && PoolsOk(s) && FinOk(s)
  }
}
