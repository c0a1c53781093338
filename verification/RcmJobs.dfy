// The packets of the RCM server, its worker-pool numbering, and the job list
// as a value: what dispatch, hand-over, acquire and release do to it.

module RcmTypes {
  import opened Options

  /** The message types the server answers or frees (RcmTypes.h). */
  datatype Kind = RcmMsg | Cmd | Dpc | SymIdx | JobAcq | JobRel(target: nat)

  /** A packet: `id` is its identity as an object, the rest are its fields. */
  datatype Packet = Packet(id: nat, poolId: nat, jobId: nat, kind: Kind)

  /** The server status codes used in replies (RcmTypes.h). */
  datatype Status = Success | InvalidFxn | SymbolNotFound | MsgFxnErr | Error
                  | Unprocessed | JobNotFound | PoolNotFound

  /** How a packet leaves the server: sent back to the client, or freed. */
  datatype Outcome = Answered(status: Status) | Freed

  /** What looking up and calling the message function gave. */
  datatype ExecResult = BadIndex | FxnError | FxnOk

  const DISCRETE_JOB_ID: nat := 0
  const DEFAULT_POOL_ID: nat := 0x8000
  const MAX_JOB_ID: nat := 0xFFFF

  /** RcmServer_getPool_P for a static pool id (bit 15 set): bits 7:0 index the pools. */
  function Resolve(poolId: nat, pools: nat): (r: Option<nat>)
    ensures r.Some? ==> r.value < pools
  {
    if poolId % 0x100 < pools then Some(poolId % 0x100) else None
  }

  /** The reply RcmServer_process_P gives to the messages that run a function or query a symbol.
    * A served DPC reply keeps the request type, 2, in the field the status is read from. */
  function Reply(kind: Kind, r: ExecResult): Outcome
    requires !kind.JobAcq? && !kind.JobRel?
  {
    match kind
    case RcmMsg => Answered(if r.BadIndex? then InvalidFxn else if r.FxnError? then MsgFxnErr else Success)
    case Cmd => if r.FxnOk? then Freed else Answered(if r.BadIndex? then InvalidFxn else MsgFxnErr)
    case Dpc => Answered(SymbolNotFound)
    case SymIdx => Answered(if r.BadIndex? then SymbolNotFound else Success)
  }
}

module RcmJobs {
  import opened Options
  import opened RcmTypes

  /** A job stream object; `sid` is its identity, never reused. */
  datatype Job = Job(jobId: nat, empty: bool, msgQue: seq<Packet>, sid: nat)

  /** Where dispatch sends a job message. */
  datatype Route = NoJob | ToReady(sid: nat) | ToJob(sid: nat)

  /** The position of the first job with the given id, or |jobs|. */
  function Find(jobs: seq<Job>, jobId: nat): (k: nat)
    ensures k <= |jobs|
    ensures k < |jobs| ==> jobs[k].jobId == jobId
    ensures forall m :: 0 <= m < k ==> jobs[m].jobId != jobId
  {
    if jobs == [] || jobs[0].jobId == jobId then 0 else 1 + Find(jobs[1..], jobId)
  }

  predicate Listed(jobs: seq<Job>, jobId: nat) {
    exists k :: 0 <= k < |jobs| && jobs[k].jobId == jobId
  }

  /** The gated part of dispatch: an idle job goes straight to a ready queue, a busy one queues. */
  function Admit(jobs: seq<Job>, p: Packet): (Route, seq<Job>) {
    var k := Find(jobs, p.jobId);
    if k == |jobs| then (NoJob, jobs)
    else if jobs[k].empty then (ToReady(jobs[k].sid), jobs[k := jobs[k].(empty := false)])
    else (ToJob(jobs[k].sid), jobs[k := jobs[k].(msgQue := jobs[k].msgQue + [p])])
  }

  /** The gated part of hand-over: the next message of the job, or the job becomes idle. */
  function HandOn(jobs: seq<Job>, jobId: nat): (Option<Packet>, seq<Job>) {
    var k := Find(jobs, jobId);
    if k == |jobs| then (None, jobs)
    else if jobs[k].msgQue == [] then (None, jobs[k := jobs[k].(empty := true)])
    else (Some(jobs[k].msgQue[0]), jobs[k := jobs[k].(msgQue := jobs[k].msgQue[1..])])
  }

  /** The gated part of release: the job leaves the list. */
  function Unlist(jobs: seq<Job>, jobId: nat): (Option<Job>, seq<Job>) {
    var k := Find(jobs, jobId);
    if k == |jobs| then (None, jobs) else (Some(jobs[k]), jobs[..k] + jobs[k + 1..])
  }

  /** The job id after `tracker`: 1 .. 0xFFFF, cyclically. */
  function NextId(tracker: nat): nat {
    if tracker == MAX_JOB_ID then 1 else tracker + 1
  }

  /** The first of the next `count` ids not on the list (0 if there is none), and the tracker left behind. */
  function SearchId(jobs: seq<Job>, tracker: nat, count: nat): (nat, nat)
    decreases count
  {
    if count == 0 then (DISCRETE_JOB_ID, tracker)
    else if !Listed(jobs, NextId(tracker)) then (NextId(tracker), NextId(tracker))
    else SearchId(jobs, NextId(tracker), count - 1)
  }

  /** RcmServer_acqJobId_P's choice: at most 0xFFFF ids are tried. */
  function AcquireId(jobs: seq<Job>, tracker: nat): (nat, nat) {
    SearchId(jobs, tracker, MAX_JOB_ID)
  }

  /** The id n steps after `tracker`, as one formula. */
  function IdAfter(tracker: nat, n: nat): nat
    requires 1 <= n
  {
    1 + (tracker + n - 1) % MAX_JOB_ID
  }

  lemma NextIdIsIdAfter(tracker: nat, n: nat)
    requires tracker <= MAX_JOB_ID
    ensures IdAfter(tracker, 1) == NextId(tracker)
    ensures IdAfter(NextId(tracker), n + 1) == IdAfter(tracker, n + 2)
  {
    if tracker == MAX_JOB_ID {
      assert (tracker + n + 1) % MAX_JOB_ID == (n + 1) % MAX_JOB_ID;
    }
  }

  /** The search returns the first unlisted id of the next `count`, or 0 when all are listed. */
  lemma {:induction false} SearchFindsFirst(jobs: seq<Job>, tracker: nat, count: nat)
    requires tracker <= MAX_JOB_ID
    ensures var (id, _) := SearchId(jobs, tracker, count);
            if id == DISCRETE_JOB_ID
            then forall n :: 1 <= n <= count ==> Listed(jobs, IdAfter(tracker, n))
            else exists n :: 1 <= n <= count && id == IdAfter(tracker, n) && !Listed(jobs, id)
                             && forall m :: 1 <= m < n ==> Listed(jobs, IdAfter(tracker, m))
    decreases count
  {
    if count != 0 {
      NextIdIsIdAfter(tracker, 0);
      var next := NextId(tracker);
      if !Listed(jobs, next) {
        assert next == IdAfter(tracker, 1);
      } else {
        SearchFindsFirst(jobs, next, count - 1);
        var (id, _) := SearchId(jobs, next, count - 1);
        forall m | 1 <= m < count ensures IdAfter(next, m) == IdAfter(tracker, m + 1) {
          NextIdIsIdAfter(tracker, m - 1);
        }
        if id == DISCRETE_JOB_ID {
          forall n | 1 <= n <= count ensures Listed(jobs, IdAfter(tracker, n)) {
            if n > 1 { assert IdAfter(next, n - 1) == IdAfter(tracker, n); }
          }
        } else {
          var n :| 1 <= n <= count - 1 && id == IdAfter(next, n) && !Listed(jobs, id)
                   && forall m :: 1 <= m < n ==> Listed(jobs, IdAfter(next, m));
          forall m | 1 <= m < n + 1 ensures Listed(jobs, IdAfter(tracker, m)) {
            if m > 1 { assert IdAfter(next, m - 1) == IdAfter(tracker, m); }
          }
          assert id == IdAfter(tracker, n + 1);
        }
      }
    }
  }

  /** From any tracker value, the 0xFFFF tries hit every non-zero id exactly once. */
  lemma EveryIdTriedOnce(tracker: nat, id: nat) returns (n: nat)
    requires tracker <= MAX_JOB_ID && 1 <= id <= MAX_JOB_ID
    ensures 1 <= n <= MAX_JOB_ID && IdAfter(tracker, n) == id
    ensures forall m :: 1 <= m <= MAX_JOB_ID && IdAfter(tracker, m) == id ==> m == n
  {
    n := if id > tracker then id - tracker else id + MAX_JOB_ID - tracker;
    if id <= tracker {
      assert tracker + n - 1 == id - 1 + MAX_JOB_ID;
    }
  }

  /** Acquisition is sound (the id is unused) and complete (it fails exactly when all ids are held),
    * and it takes the first free id in cyclic order after the tracker. */
  lemma AcquireIsSoundAndComplete(jobs: seq<Job>, tracker: nat)
    requires tracker <= MAX_JOB_ID
    ensures var (id, _) := AcquireId(jobs, tracker);
            && (id == DISCRETE_JOB_ID <==> forall j :: 1 <= j <= MAX_JOB_ID ==> Listed(jobs, j))
            && (id != DISCRETE_JOB_ID ==> 1 <= id <= MAX_JOB_ID && !Listed(jobs, id))
            && (id != DISCRETE_JOB_ID ==>
                  exists n :: 1 <= n <= MAX_JOB_ID && id == IdAfter(tracker, n)
                              && forall m :: 1 <= m < n ==> Listed(jobs, IdAfter(tracker, m)))
  {
    SearchFindsFirst(jobs, tracker, MAX_JOB_ID);
    var (id, _) := AcquireId(jobs, tracker);
    if id == DISCRETE_JOB_ID {
      forall j | 1 <= j <= MAX_JOB_ID ensures Listed(jobs, j) {
        var n := EveryIdTriedOnce(tracker, j);
      }
    }
  }

  /** The tracker stays a 16-bit value; after a success it is the id handed out. */
  lemma {:induction false} TrackerAfterSearch(jobs: seq<Job>, tracker: nat, count: nat)
    requires tracker <= MAX_JOB_ID
    ensures var (id, t) := SearchId(jobs, tracker, count);
            t <= MAX_JOB_ID && (id != DISCRETE_JOB_ID ==> t == id)
    decreases count
  {
    if count != 0 && Listed(jobs, NextId(tracker)) {
      TrackerAfterSearch(jobs, NextId(tracker), count - 1);
    }
  }
}
