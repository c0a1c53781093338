// The server's job list as the C code keeps it: job stream objects updated in
// place, searched by walking the list, under the instance gate. Each method is
// one gated section, proved to do to the list exactly what the transition
// system's step does to its value.

module RcmJobList {
  import opened Options
  import opened RcmTypes
  import opened RcmJobs

  class JobStream {
    const jobId: nat
    ghost const sid: nat
    var empty: bool
    var msgQue: seq<Packet>

    constructor (jobId: nat, ghost sid: nat)
      ensures this.jobId == jobId && this.sid == sid && empty && msgQue == []
    {
      this.jobId := jobId;
      this.sid := sid;
      empty := true;
      msgQue := [];
    }

    ghost function View(): Job
      reads this
    {
      Job(jobId, empty, msgQue, sid)
    }
  }

  ghost function Views(jobs: seq<JobStream>): (v: seq<Job>)
    reads jobs
    ensures |v| == |jobs| && forall i :: 0 <= i < |v| ==> v[i] == jobs[i].View()
  {
    seq(|jobs|, i requires 0 <= i < |jobs| reads jobs => jobs[i].View())
  }

  class JobList {
    var jobs: seq<JobStream>
    var tracker: nat          // obj->jobId

    ghost predicate Valid()
      reads this, jobs
    {
      && tracker <= MAX_JOB_ID
      && (forall i, k :: 0 <= i < k < |jobs| ==> jobs[i] != jobs[k])
    }

    /** The list as the transition system sees it. */
    ghost function View(): (v: seq<Job>)
      reads this`jobs, jobs
      ensures |v| == |jobs| && forall i :: 0 <= i < |v| ==> v[i] == jobs[i].View()
    {
      Views(jobs)
    }

    constructor ()
      ensures Valid() && View() == [] && tracker == MAX_JOB_ID
    {
      jobs := [];
      tracker := MAX_JOB_ID;
    }

    /** The search every gated section starts with: the first job with this id, or |jobs|. */
    method FindJob(jobId: nat) returns (k: nat)
      requires Valid()
      ensures k == Find(View(), jobId) && k <= |jobs|
      ensures k < |jobs| ==> jobs[k].jobId == jobId
      ensures forall m :: 0 <= m < k ==> jobs[m].jobId != jobId
    {
      k := 0;
      while k < |jobs| && jobs[k].jobId != jobId
        invariant k <= |jobs|
        invariant forall m :: 0 <= m < k ==> jobs[m].jobId != jobId
      {
        k := k + 1;
      }
      assert k == |jobs| || View()[k].jobId == jobId;
    }

    /** The inner search of RcmServer_acqJobId_P: some job has the id. */
    method IdUsed(jobId: nat) returns (used: bool)
      ensures used <==> Listed(View(), jobId)
    {
      used := false;
      var k := 0;
      while k < |jobs|
        invariant k <= |jobs| && !used
        invariant forall m :: 0 <= m < k ==> jobs[m].jobId != jobId
      {
        if jobId == jobs[k].jobId {
          assert View()[k].jobId == jobId;
          used := true;
          break;
        }
        k := k + 1;
      }
    }

    /** RcmServer_acqJobId_P. */
    method Acquire(ghost sid: nat) returns (id: nat)
      requires Valid()
      modifies this
      ensures Valid()
      ensures (id, tracker) == AcquireId(old(View()), old(tracker))
      ensures View() == if id == DISCRETE_JOB_ID then old(View()) else old(View()) + [Job(id, true, [], sid)]
      ensures id == DISCRETE_JOB_ID ==> jobs == old(jobs)
      ensures id != DISCRETE_JOB_ID ==> fresh(jobs[|old(jobs)|]) && jobs[..|old(jobs)|] == old(jobs)
    {
      hide Listed;
      id := DISCRETE_JOB_ID;
      var count := MAX_JOB_ID;
      while count > 0
        invariant 0 <= count <= MAX_JOB_ID && tracker <= MAX_JOB_ID
        invariant jobs == old(jobs) && View() == old(View())
        invariant id == DISCRETE_JOB_ID
        invariant AcquireId(old(View()), old(tracker)) == SearchId(View(), tracker, count)
      {
        ghost var next := NextId(tracker);
        assert SearchId(View(), tracker, count)
            == if !Listed(View(), next) then (next, next) else SearchId(View(), next, count - 1);
        tracker := if tracker == MAX_JOB_ID then 1 else tracker + 1;
        id := tracker;
        var used := IdUsed(id);
        if used { id := DISCRETE_JOB_ID; }
        if id != DISCRETE_JOB_ID { break; }
        count := count - 1;
      }
      if id == DISCRETE_JOB_ID { return; }
      ghost var listed := View();
      var job := new JobStream(id, sid);
      jobs := jobs + [job];
      assert View() == listed + [Job(id, true, [], sid)];
    }

    /** The gated section of RcmServer_dispatch_P. */
    method AdmitMsg(p: Packet) returns (found: bool, ready: bool)
      requires Valid()
      modifies jobs
      ensures Valid() && tracker == old(tracker) && jobs == old(jobs)
      ensures View() == Admit(old(View()), p).1
      ensures !found <==> Admit(old(View()), p).0.NoJob?
      ensures found ==> (ready <==> Admit(old(View()), p).0.ToReady?)
    {
      var k := FindJob(p.jobId);
      if k == |jobs| { return false, false; }
      if jobs[k].empty {
        jobs[k].empty := false;
        return true, true;
      }
      jobs[k].msgQue := jobs[k].msgQue + [p];
      return true, false;
    }

    /** The gated section of the worker's hand-over, up to the put. */
    method NextMsg(jobId: nat) returns (next: Option<Packet>)
      requires Valid()
      modifies jobs
      ensures Valid() && tracker == old(tracker) && jobs == old(jobs)
      ensures (next, View()) == HandOn(old(View()), jobId)
    {
      var k := FindJob(jobId);
      if k == |jobs| { return None; }
      if jobs[k].msgQue == [] {
        jobs[k].empty := true;
        assert View() == HandOn(old(View()), jobId).1;
        return None;
      }
      next := Some(jobs[k].msgQue[0]);
      jobs[k].msgQue := jobs[k].msgQue[1..];
      assert View() == HandOn(old(View()), jobId).1;
    }

    /** The gated section of RcmServer_relJobId_P. */
    method Remove(jobId: nat) returns (job: JobStream?)
      requires Valid()
      modifies this
      ensures Valid() && tracker == old(tracker)
      ensures View() == Unlist(old(View()), jobId).1
      ensures if job == null then Unlist(old(View()), jobId).0.None? else Unlist(old(View()), jobId).0 == Some(job.View())
      ensures job == null <==> forall m :: 0 <= m < |old(jobs)| ==> old(jobs)[m].jobId != jobId
      ensures job == null ==> jobs == old(jobs)
      ensures job != null ==> job.jobId == jobId && job !in jobs
      ensures job != null ==> exists k :: 0 <= k < |old(jobs)| && old(jobs)[k] == job
                                && (forall m :: 0 <= m < k ==> old(jobs)[m].jobId != jobId)
                                && jobs == old(jobs)[..k] + old(jobs)[k + 1..]
    {
      hide Find;
      var k := FindJob(jobId);
      if k == |jobs| { return null; }
      ghost var before, was := jobs, View();
      job := jobs[k];
      jobs := jobs[..k] + jobs[k + 1..];
      Without(before, k);
      assert View() == was[..k] + was[k + 1..];
    }
  }

  /** Taking out one of different objects. */
  lemma Without(jobs: seq<JobStream>, k: nat)
    requires k < |jobs| && forall i, m :: 0 <= i < m < |jobs| ==> jobs[i] != jobs[m]
    ensures var rest := jobs[..k] + jobs[k + 1..];
            && |rest| == |jobs| - 1 && jobs[k] !in rest
            && (forall i :: 0 <= i < |rest| ==> rest[i] == jobs[if i < k then i else i + 1])
            && forall i, m :: 0 <= i < m < |rest| ==> rest[i] != rest[m]
  {
  }
}
