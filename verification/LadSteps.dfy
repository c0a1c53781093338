// Every step of a client keeps the invariant, one lemma per action.

module LadSteps {
  import opened Options
  import opened LadSlots
  import opened LadRpc
  import opened LadInvariant

  /** Only process p is touched. */
  ghost predicate OthersSteady<S, C, R>(s: State<S, C, R>, s': State<S, C, R>, p: nat) {
    && |s.procs| == |s'.procs|
    && forall q :: 0 <= q < |s.procs| && q != p ==> Steady(s, s', q) && s'.procs[q] == s.procs[q]
  }

  lemma Rebuild<S, C, R>(s: State<S, C, R>, s': State<S, C, R>, p: nat)
    requires Inv(s) && OthersSteady(s, s', p) && p < |s.procs|
    requires Shape(s') && SlotsOk(s'.slots, |s'.procs|) && FilesOk(s') && PipesOk(s') && DaemonOk(s') && ProcOk(s', p)
    ensures Inv(s')
  {
    hide SlotsOk, FilesOk, PipesOk, DaemonOk, ProcOk, Steady;
    forall q | 0 <= q < |s'.procs| ensures ProcOk(s', q) {
      if q != p {
        assert ProcOk(s, q);
        SteadyProc(s, s', q);
      }
    }
  }

  lemma InactiveKept<S, C, R>(s: State<S, C, R>, s': State<S, C, R>, p: nat, info: seq<Info>, info': seq<Info>, version: bool, pc: Pc<C, R>)
    requires |s.left| == |s.results| && |s'.left| == |s'.results|
    requires s.sent <= s'.sent && s.results <= s'.results && !Active(pc) && ThreadOk(s, p, info, version, pc)
    requires Joins(pc) ==> MayJoin(s', p)
    ensures ThreadOk(s', p, info', version, pc)
  {
  }

  /** A step of thread t of process p that touches nothing but its place and the mutex. */
  ghost predicate Inside<S, C, R>(s: State<S, C, R>, s': State<S, C, R>, p: nat, t: nat) {
    && IsThread(s, p, t) && |s'.procs| == |s.procs|
    && s' == s.(procs := s.procs[p := s'.procs[p]])
    && s'.procs[p] == s.procs[p].(gate := s'.procs[p].gate, threads := s.procs[p].threads[t := PcAt(s'.procs[p], t)])
  }

  function PcAt<C, R>(pr: Proc<C, R>, t: nat): Pc<C, R> {
    if t < |pr.threads| then pr.threads[t] else Idle
  }

  lemma InsideKeeps<S, C, R>(s: State<S, C, R>, s': State<S, C, R>, p: nat, t: nat)
    requires Inv(s) && Inside(s, s', p, t)
    requires GateOk(s'.procs[p]) && LocalOk(s'.procs[p])
    requires var pr := s'.procs[p];
             && ThreadOk(s, p, pr.info, pr.version, pr.threads[t])
             && (Active(PcOf(s, p, t)) <==> Active(pr.threads[t]))
    ensures Inv(s')
  {
    hide GateOk, LocalOk, ThreadOk, Quiet, SlotsOk, Mine, NonePending, Active;
    var pr, pr' := s.procs[p], s'.procs[p];
    assert ProcOk(s, p);
    forall u | 0 <= u < |pr'.threads| ensures ThreadOk(s', p, pr'.info, pr'.version, pr'.threads[u]) {
      assert u != t ==> pr'.threads[u] == pr.threads[u];
      SteadyThread(s, s', p, pr'.info, pr'.version, pr'.threads[u]);
    }
    if NoneActive(pr') {
      forall u | 0 <= u < |pr.threads| ensures !Active(pr.threads[u]) { assert !Active(pr'.threads[u]); }
      SteadyQuiet(s, s', p, pr'.info);
    }
    Rebuild(s, s', p);
  }

  lemma PairsKept<C, R>(threads: seq<Pc<C, R>>, t: nat, pc: Pc<C, R>)
    requires PairsOk(threads) && t < |threads|
    requires forall u :: 0 <= u < |threads| && u != t ==> PairOk(pc, threads[u]) && PairOk(threads[u], pc)
    ensures PairsOk(threads[t := pc])
  {
    hide PairOk;
    var threads' := threads[t := pc];
    forall u, v | 0 <= u < |threads'| && 0 <= v < |threads'| && u != v ensures PairOk(threads'[u], threads'[v]) {
      if u != t && v != t { assert PairOk(threads[u], threads[v]); }
    }
  }

  /** What a thread may turn to, with its class of work the same or gone, beside the others. */
  lemma PairsNarrowed<C, R>(threads: seq<Pc<C, R>>, t: nat, pc: Pc<C, R>)
    requires PairsOk(threads) && t < |threads|
    requires Leaves(pc) ==> Leaves(threads[t])
    requires Joins(pc) ==> Joins(threads[t])
    requires Calls(pc) ==> Calls(threads[t])
    ensures PairsOk(threads[t := pc])
  {
    forall u | 0 <= u < |threads| && u != t ensures PairOk(pc, threads[u]) && PairOk(threads[u], pc) {
      assert PairOk(threads[t], threads[u]) && PairOk(threads[u], threads[t]);
    }
    PairsKept(threads, t, pc);
  }

  /** A call, connect or disconnect begun by the rule finds the process as it needs it. */
  lemma BeginFits<S, C, R>(s: State<S, C, R>, p: nat, t: nat, job: Job<C>)
    requires Inv(s) && Enabled(s, Begin(p, t, job)) && Obeyed(s, Begin(p, t, job))
    ensures PairsOk(s.procs[p].threads[t := Entry(s, p, job)]) && PcFits(s.procs[p].info, Entry(s, p, job))
    ensures Entry(s, p, job) == WantGate(Join) ==> MayJoin(s, p)
  {
    hide GateOk, ThreadsOk, SlotsOk, PcFits, PairsOk;
    var pr := s.procs[p];
    var pc := Entry(s, p, job);
    assert ProcOk(s, p);
    forall u | 0 <= u < |pr.threads| && u != t ensures PairOk(pc, pr.threads[u]) && PairOk(pr.threads[u], pc) {}
    PairsKept(pr.threads, t, pc);
    EntryFits(s, p, job);
  }

  lemma EntryFits<S, C, R>(s: State<S, C, R>, p: nat, job: Job<C>)
    requires Inv(s) && p < |s.procs| && s.procs[p].alive && Obeyed(s, Begin(p, 0, job))
    ensures PcFits(s.procs[p].info, Entry(s, p, job))
  {
    var pr := s.procs[p];
    assert ProcOk(s, p);
    if NoneActive(pr) {
      // nothing under way: flags and files agree
    } else {
      var u :| 0 <= u < |pr.threads| && Active(pr.threads[u]);
      assert PcFits(pr.info, pr.threads[u]) && ThreadOk(s, p, pr.info, pr.version, pr.threads[u]);
    }
  }

  // ----- steps without a command -----

  lemma BeginKeeps<S, C, R>(sv: Service<S, C, R>, s: State<S, C, R>, p: nat, t: nat, job: Job<C>)
    requires Inv(s) && Enabled(s, Begin(p, t, job)) && Obeyed(s, Begin(p, t, job))
    ensures Inv(Apply(sv, s, Begin(p, t, job)))
  {
    hide Entry, PairsOk, SlotsOk, FilesOk, DaemonOk, PcFits, ThreadOk, Quiet, Obeyed, InfoOk;
    var s' := Apply(sv, s, Begin(p, t, job));
    BeginFits(s, p, t, job);
    EntryShape(s, p, job);
    assert ProcOk(s, p);
    var pr, pr' := s.procs[p], s'.procs[p];
    EntryThread(s, p, job);
    InsideKeeps(s, s', p, t);
  }

  lemma EntryShape<S, C, R>(s: State<S, C, R>, p: nat, job: Job<C>)
    requires p < |s.procs|
    ensures Entry(s, p, job).WantGate? || Entry(s, p, job).Turned?
  {
  }

  lemma EntryThread<S, C, R>(s: State<S, C, R>, p: nat, job: Job<C>)
    requires p < |s.procs| && |s.left| == |s.results|
    requires Entry(s, p, job) == WantGate(Join) ==> MayJoin(s, p)
    ensures ThreadOk(s, p, s.procs[p].info, s.procs[p].version, Entry(s, p, job))
  {
  }

  lemma LockKeeps<S, C, R>(sv: Service<S, C, R>, s: State<S, C, R>, p: nat, t: nat)
    requires Inv(s) && Enabled(s, Lock(p, t))
    ensures Inv(Apply(sv, s, Lock(p, t)))
  {
    hide PairsOk, SlotsOk, FilesOk, DaemonOk, InfoOk, Quiet;
    var s' := Apply(sv, s, Lock(p, t));
    assert ProcOk(s, p);
    var pr := s.procs[p];
    assert ThreadOk(s, p, pr.info, pr.version, pr.threads[t]) && PcFits(pr.info, pr.threads[t]);
    PairsNarrowed(pr.threads, t, s'.procs[p].threads[t]);
    InsideKeeps(s, s', p, t);
  }

  lemma FinishKeeps<S, C, R>(sv: Service<S, C, R>, s: State<S, C, R>, p: nat, t: nat)
    requires Inv(s) && Enabled(s, Finish(p, t))
    ensures Inv(Apply(sv, s, Finish(p, t)))
  {
    hide PairsOk, SlotsOk, FilesOk, DaemonOk, InfoOk, Quiet;
    var s' := Apply(sv, s, Finish(p, t));
    assert ProcOk(s, p);
    PairsNarrowed(s.procs[p].threads, t, Idle);
    InsideKeeps(s, s', p, t);
  }

  lemma DieKeeps<S, C, R>(sv: Service<S, C, R>, s: State<S, C, R>, p: nat)
    requires Inv(s) && Enabled(s, Die(p))
    ensures Inv(Apply(sv, s, Die(p)))
  {
    hide SlotsOk, Under, NameFree, GateOk, LocalOk, ThreadsOk, Quiet;
    var s' := Apply(sv, s, Die(p));
    assert ProcOk(s, p);
    forall q | 0 <= q < |s.procs| && q != p ensures Steady(s, s', q) && s'.procs[q] == s.procs[q] {
      assert forall k: nat :: Pending(s, q, k) <==> Pending(s', q, k);
    }
    NothingLeft(s, s', p, |s.sent|);
    Rebuild(s, s', p);
  }

  // ----- steps that begin or end a command -----

  /** The process after its thread t, which had the mutex or a command under way, has moved. */
  lemma ProcRebuilt<S, C, R>(s: State<S, C, R>, s': State<S, C, R>, p: nat, t: nat)
    requires Shape(s) && Shape(s') && IsThread(s, p, t) && ProcOk(s, p)
    requires Active(PcOf(s, p, t)) || Holds(PcOf(s, p, t))
    requires |s'.procs| == |s.procs| && s'.procs[p].alive && |s'.procs[p].threads| == |s.procs[p].threads|
    requires s'.procs[p].version == s.procs[p].version
    requires s'.procs[p].threads == s.procs[p].threads[t := s'.procs[p].threads[t]]
    requires s.sent <= s'.sent && s.results <= s'.results
    requires GateOk(s'.procs[p]) && LocalOk(s'.procs[p])
    requires ThreadOk(s', p, s'.procs[p].info, s'.procs[p].version, s'.procs[p].threads[t])
    requires Active(s'.procs[p].threads[t]) || Quiet(s', p, s'.procs[p].info)
    requires Refuses(s', p) ==> NoFlag(s'.procs[p].info)
    requires MayJoin(s, p) ==> MayJoin(s', p) || Joins(s.procs[p].threads[t])
    ensures ProcOk(s', p)
  {
    hide ThreadOk, Quiet, Active, Holds, PcFits, InfoOk, PairsOk, Joins;
    var pr, pr' := s.procs[p], s'.procs[p];
    forall u | 0 <= u < |pr'.threads| ensures ThreadOk(s', p, pr'.info, pr'.version, pr'.threads[u]) {
      if u != t {
        assert pr'.threads[u] == pr.threads[u];
        AloneAt(pr, t, u);
        NotJoining(s, p, t, u);
        InactiveKept(s, s', p, pr.info, pr'.info, pr.version, pr.threads[u]);
      }
    }
  }

  lemma NotJoining<S, C, R>(s: State<S, C, R>, p: nat, t: nat, u: nat)
    requires p < |s.procs| && |s.left| == |s.results| && LocalOk(s.procs[p]) && ThreadsOk(s, p)
    requires t < |s.procs[p].threads| && u < |s.procs[p].threads| && t != u
    ensures Joins(s.procs[p].threads[u]) ==> MayJoin(s, p) && !Joins(s.procs[p].threads[t])
  {
    var pr := s.procs[p];
    assert ThreadOk(s, p, pr.info, pr.version, pr.threads[u]);
    assert PairOk(pr.threads[t], pr.threads[u]);
  }

  lemma AloneAt<C, R>(pr: Proc<C, R>, t: nat, u: nat)
    requires GateOk(pr) && LocalOk(pr) && t < |pr.threads| && u < |pr.threads| && t != u
    requires Active(pr.threads[t]) || Holds(pr.threads[t])
    ensures !Active(pr.threads[u])
  {
    if Active(pr.threads[u]) { OneActive(pr, u, t); }
  }

  /** With the one command of p taken by the daemon, none is left. */
  lemma NothingLeft<S, C, R>(s: State<S, C, R>, s': State<S, C, R>, p: nat, id: nat)
    requires s'.sent == s.sent && s'.left == s.left
    requires (id < |s.left| && Mine(s, p, id)) || NonePending(s, p)
    ensures NonePending(s', p)
  {
    forall k | |s'.left| <= k < |s'.sent| ensures !Pending(s', p, k) { assert !Pending(s, p, k); }
  }

  lemma OnlySelf<S, C, R>(s: State<S, C, R>, s': State<S, C, R>, p: nat)
    requires |s.procs| == |s'.procs| && s'.slots == s.slots && s'.daemon == s.daemon
    requires s'.sent == s.sent && s'.left == s.left && s'.results == s.results
    requires forall q :: 0 <= q < |s.procs| && q != p ==> s'.procs[q] == s.procs[q]
    requires |s'.pipes| == |s.pipes| && forall i :: 0 <= i < |s.pipes| && s.pipes[i].name != p ==> s'.pipes[i] == s.pipes[i]
    ensures OthersSteady(s, s', p)
  {
    forall q | 0 <= q < |s.procs| && q != p ensures Steady(s, s', q) && s'.procs[q] == s.procs[q] {
      assert forall k: nat :: Pending(s, q, k) <==> Pending(s', q, k);
    }
  }

  /** Beside a thread that is leaving and has, or no longer needs, the mutex, no other thread depends on the entries. */
  lemma OthersPlain<C, R>(pr: Proc<C, R>, t: nat, u: nat)
    requires GateOk(pr) && LocalOk(pr) && t < |pr.threads| && u < |pr.threads| && t != u
    requires pr.threads[t].Closing? || pr.threads[t].Vanishing?
    ensures pr.threads[u].Idle? || pr.threads[u].Returned? || pr.threads[u].Turned?
  {
    assert PcFits(pr.info, pr.threads[t]) && PcFits(pr.info, pr.threads[u]) && PairOk(pr.threads[t], pr.threads[u]);
  }

  /** A command of p appended. */
  lemma PutSteady<S, C, R>(s: State<S, C, R>, s': State<S, C, R>, p: nat, cmd: Cmd<C>)
    requires Shape(s) && |s.procs| == |s'.procs| && p < |s.procs|
    requires s' == s.(procs := s'.procs, fifo := s.fifo + [cmd], sent := s.sent + [Sent(p, cmd)])
    requires s'.procs == s.procs[p := s'.procs[p]]
    ensures OthersSteady(s, s', p) && Shape(s')
    ensures NonePending(s, p) ==> Mine(s', p, |s.sent|)
  {
    forall q | 0 <= q < |s.procs| && q != p ensures Steady(s, s', q) && s'.procs[q] == s.procs[q] {
      assert forall k: nat :: Pending(s, q, k) <==> Pending(s', q, k);
    }
    if NonePending(s, p) {
      forall k | |s'.left| <= k < |s'.sent| && k != |s.sent| ensures !Pending(s', p, k) { assert !Pending(s, p, k); }
    }
  }

  lemma WriteKeeps<S, C, R>(s: State<S, C, R>, p: nat, t: nat)
    requires Inv(s) && Enabled(s, Write(p, t))
    ensures Inv(WriteStep(s, p, t))
  {
    hide SlotsOk, Mine, NonePending, NameFree, Under, PairsOk, InfoOk;
    var s' := WriteStep(s, p, t);
    var pr := s.procs[p];
    assert ProcOk(s, p) && GateOk(pr) && LocalOk(pr) && PcFits(pr.info, pr.threads[t]);
    assert ThreadOk(s, p, pr.info, pr.version, pr.threads[t]);
    forall u | 0 <= u < |pr.threads| ensures !Active(pr.threads[u]) {
      if Active(pr.threads[u]) { OneActive(pr, u, t); }
    }
    assert Quiet(s, p, pr.info);
    PutSteady(s, s', p, s'.sent[|s.sent|].cmd);
    PairsNarrowed(pr.threads, t, s'.procs[p].threads[t]);
    ProcRebuilt(s, s', p, t);
    Rebuild(s, s', p);
  }

  /** LAD_getResponse: the answer is there, and it is the result of the call. */
  lemma ReadCallKeeps<S, C, R>(s: State<S, C, R>, p: nat, t: nat)
    requires Inv(s) && Enabled(s, Read(p, t)) && PcOf(s, p, t).Waiting?
    ensures Inv(ReadStep(s, p, t))
  {
    hide SlotsOk, NameFree, PairsOk, InfoOk, Quiet;
    var pr := s.procs[p];
    var Waiting(k, c, id) := pr.threads[t];
    assert ProcOk(s, p) && GateOk(pr) && LocalOk(pr) && PcFits(pr.info, pr.threads[t]);
    assert ThreadOk(s, p, pr.info, pr.version, pr.threads[t]);
    assert WriterOpen(s, pr.info[k].pipe);
    assert id < |s.left|;
    var s' := ReadStep(s, p, t);
    OnlySelf(s, s', p);
    PairsNarrowed(pr.threads, t, s'.procs[p].threads[t]);
    NothingLeft(s, s', p, id);
    QuietAfterCall(s', p, k, pr.info, pr.version);
    ProcRebuilt(s, s', p, t);
    Rebuild(s, s', p);
  }

  lemma QuietAfterCall<S, C, R>(s: State<S, C, R>, p: nat, k: nat, info: seq<Info>, version: bool)
    requires NonePending(s, p) && !Opens(s, p) && Usable(info, k) && InfoOk(info, version)
    requires Attached(s, p, k, info[k].pipe, [])
    ensures Quiet(s, p, info)
  {
    forall j | 0 <= j < |info| && info[j].connected ensures j == k {
      assert !(info[j].connected && info[k].connected) || j == k;
    }
  }

  /** LAD_connect reads that it was refused. */
  lemma ReadRefusalKeeps<S, C, R>(s: State<S, C, R>, p: nat, t: nat)
    requires Inv(s) && Enabled(s, Read(p, t)) && PcOf(s, p, t).Reading? && NameFree(s.slots, p)
    ensures Inv(ReadStep(s, p, t))
  {
    hide SlotsOk, PairsOk, InfoOk, NameFree;
    var pr := s.procs[p];
    var Reading(id, pipe) := pr.threads[t];
    assert ProcOk(s, p) && GateOk(pr) && LocalOk(pr) && PcFits(pr.info, pr.threads[t]);
    assert ThreadOk(s, p, pr.info, pr.version, pr.threads[t]);
    var s' := ReadStep(s, p, t);
    FreeNotUnder(s.slots, p);
    OnlySelf(s, s', p);
    PairsNarrowed(pr.threads, t, s'.procs[p].threads[t]);
    NothingLeft(s, s', p, id);
    ProcRebuilt(s, s', p, t);
    Rebuild(s, s', p);
  }

  lemma FreeNotUnder(slots: seq<Slot>, name: nat)
    ensures NameFree(slots, name) <==> forall k: nat :: !Under(slots, k, name)
  {
    if !NameFree(slots, name) {
      var k :| 0 <= k < |slots| && slots[k].connected && slots[k].name == name;
      assert Under(slots, k, name);
    }
  }

  /** While a connect is answered with success no other thread depends on the entries. */
  lemma JoinedAlone<S, C, R>(s: State<S, C, R>, p: nat, t: nat, u: nat)
    requires Inv(s) && IsThread(s, p, t) && PcOf(s, p, t).Reading? && !NameFree(s.slots, p)
    requires u < |s.procs[p].threads| && u != t
    ensures var pc := s.procs[p].threads[u]; pc.Idle? || pc.Returned? || pc.Turned?
  {
    var pr := s.procs[p];
    assert ProcOk(s, p) && PcFits(pr.info, pr.threads[t]) && PcFits(pr.info, pr.threads[u]);
    NotJoining(s, p, t, u);
  }

  /** LAD_connect reads that it has a slot, and sets up its entry. */
  lemma ReadGrantKeeps<S, C, R>(s: State<S, C, R>, p: nat, t: nat)
    requires Inv(s) && Enabled(s, Read(p, t)) && PcOf(s, p, t).Reading? && !NameFree(s.slots, p)
    ensures Inv(ReadStep(s, p, t))
  {
    hide SlotsOk, NameFree, Active, PairOk;
    var pr := s.procs[p];
    var Reading(id, pipe) := pr.threads[t];
    assert ProcOk(s, p) && GateOk(pr) && LocalOk(pr) && PcFits(pr.info, pr.threads[t]);
    assert ThreadOk(s, p, pr.info, pr.version, pr.threads[t]);
    forall u | 0 <= u < |pr.threads| && u != t ensures pr.threads[u].Idle? || pr.threads[u].Returned? || pr.threads[u].Turned? {
      JoinedAlone(s, p, t, u);
    }
    var s' := ReadStep(s, p, t);
    OnlySelf(s, s', p);
    PairsNarrowed(pr.threads, t, s'.procs[p].threads[t]);
    NothingLeft(s, s', p, id);
    QuietAfterCall(s', p, s.pipes[pipe].data[0].handle.value, s'.procs[p].info, pr.version);
    ProcRebuilt(s, s', p, t);
    Rebuild(s, s', p);
  }

  // ----- disconnecting -----

  lemma CloseKeeps<S, C, R>(s: State<S, C, R>, p: nat, t: nat)
    requires Inv(s) && Enabled(s, Close(p, t))
    ensures Inv(CloseStep(s, p, t))
  {
    hide SlotsOk, NameFree, PairOk, Mine, Quiet;
    var pr := s.procs[p];
    assert ProcOk(s, p) && GateOk(pr) && LocalOk(pr) && PcFits(pr.info, pr.threads[t]);
    assert ThreadOk(s, p, pr.info, pr.version, pr.threads[t]);
    forall u | 0 <= u < |pr.threads| && u != t ensures pr.threads[u].Idle? || pr.threads[u].Returned? || pr.threads[u].Turned? {
      OthersPlain(pr, t, u);
    }
    var s' := CloseStep(s, p, t);
    OnlySelf(s, s', p);
    PairsNarrowed(pr.threads, t, s'.procs[p].threads[t]);
    MineSame(s, s', p, pr.threads[t].id);
    ProcRebuilt(s, s', p, t);
    Rebuild(s, s', p);
  }

  lemma MineSame<S, C, R>(s: State<S, C, R>, s': State<S, C, R>, p: nat, id: nat)
    requires s'.sent == s.sent && |s.left| <= |s'.left| && Mine(s, p, id)
    ensures Mine(s', p, id)
  {
    forall k | |s'.left| <= k < |s'.sent| && k != id ensures !Pending(s', p, k) { assert !Pending(s, p, k); }
  }

  lemma VanishKeeps<S, C, R>(s: State<S, C, R>, p: nat, t: nat)
    requires Inv(s) && Enabled(s, Vanish(p, t))
    ensures Inv(VanishStep(s, p, t))
  {
    hide SlotsOk, PairOk;
    var pr := s.procs[p];
    assert ProcOk(s, p) && GateOk(pr) && LocalOk(pr) && PcFits(pr.info, pr.threads[t]);
    assert ThreadOk(s, p, pr.info, pr.version, pr.threads[t]);
    forall u | 0 <= u < |pr.threads| && u != t ensures pr.threads[u].Idle? || pr.threads[u].Returned? || pr.threads[u].Turned? {
      OthersPlain(pr, t, u);
    }
    var s' := VanishStep(s, p, t);
    OnlySelf(s, s', p);
    PairsNarrowed(pr.threads, t, s'.procs[p].threads[t]);
    NothingLeft(s, s', p, pr.threads[t].id);
    FlagGone(pr.info, s'.procs[p].info, pr.threads[t].k);
    ProcRebuilt(s, s', p, t);
    Rebuild(s, s', p);
  }

  lemma FlagGone(info: seq<Info>, info': seq<Info>, k: nat)
    requires k < |info| && info[k].connected && info' == info[k := info[k].(connected := false)]
    requires forall i, j :: 0 <= i < j < |info| ==> !(info[i].connected && info[j].connected)
    ensures NoFlag(info')
  {
    assert info'[k] == info[k].(connected := false);
  }
}
