// What follows a connect begun against the rule: beside a disconnect whose FIFO
// is gone, or beside another connect on its way to its FIFO.

module LadRejoin {
  import opened Options
  import opened LadSlots
  import opened LadRpc
  import opened LadInvariant
  import opened LadSteps
  import opened LadDaemon
  import opened LadTheorems
  import opened LadProgress
  import opened LadPaths
  import opened LadRule

  /** Between these states only thread t of p has moved, and perhaps another process has died. */
  ghost predicate Moved<S, C, R>(s: State<S, C, R>, s': State<S, C, R>, p: nat, t: nat) {
    && |s'.procs| == |s.procs| && IsThread(s, p, t) && IsThread(s', p, t)
    && s'.procs[p].threads == s.procs[p].threads[t := s'.procs[p].threads[t]]
    && forall q :: 0 <= q < |s.procs| && q != p ==> s'.procs[q] == s.procs[q] || s'.procs[q] == s.procs[q].(alive := false)
  }

  /** The daemon waits, with nothing to take. */
  ghost predicate Waits<S, C, R>(s: State<S, C, R>) { s.fifo == [] && s.daemon.Ready? && |s.left| == |s.sent| }

  /** A connect request will find a slot. */
  ghost predicate Room<S, C, R>(s: State<S, C, R>) {
    exists k :: 0 <= k < |s.slots| && (!s.slots[k].connected || Departed(s.slots[k], Alive(s)))
  }

  /** Thread t writes its connect request. */
  lemma Ask<S, C, R>(sv: Service<S, C, R>, s: State<S, C, R>, p: nat, t: nat) returns (xs: seq<Action<C>>, s': State<S, C, R>)
    requires IsThread(s, p, t) && PcOf(s, p, t) == WantGate(Join) && s.procs[p].gate.None? && Waits(s)
    ensures InnerPath(sv, s, xs, s') && Moved(s, s', p, t) && PcOf(s', p, t) == Polling(|s.sent|)
    ensures s'.fifo == [Connect(p, p, s.procs[p].version)] && s' == s.(procs := s'.procs, fifo := s'.fifo, sent := s'.sent)
    ensures s'.procs[p].info == s.procs[p].info && s'.procs[p].version == s.procs[p].version && s'.procs[p].gate == Some(t)
    ensures Alive(s') == Alive(s)
  {
    hide Run, CanRun, WriterOpen, NonePending;
    Nothing(sv, s);
    xs, s' := LadRule.Step(sv, s, [], s, Lock(p, t));
    xs, s' := LadRule.Step(sv, s, xs, s', Write(p, t));
  }

  /** If no slot will be found, one of the clients that have them dies. */
  lemma MakeRoom<S, C, R>(sv: Service<S, C, R>, s: State<S, C, R>, p: nat, t: nat) returns (xs: seq<Action<C>>, s': State<S, C, R>)
    requires IsThread(s, p, t) && Waits(s) && |s.slots| > 0 && SlotsOk(s.slots, |s.procs|) && NameFree(s.slots, p)
    ensures Path(sv, s, xs, s') && Moved(s, s', p, t) && Room(s')
    ensures s' == s.(procs := s'.procs) && s'.procs[p] == s.procs[p]
  {
    Nothing(sv, s);
    xs, s' := [], s;
    var q := s.slots[0].pid;
    if s.slots[0].connected && q in Alive(s) {
      hide Run, CanRun;
      Then(sv, s, [], s, Die(q));
      xs, s' := [] + [Die(q)], Apply(sv, s, Die(q));
      assert Departed(s'.slots[0], Alive(s'));
    } else {
      assert !s.slots[0].connected || Departed(s.slots[0], Alive(s));
    }
  }

  /** The daemon takes the request and grants it. */
  lemma Admit<S, C, R>(sv: Service<S, C, R>, s: State<S, C, R>, p: nat)
    requires s.fifo == [Connect(p, p, true)] && s.daemon.Ready? && p !in s.files && Room(s)
    ensures Enabled(s, Handle)
    ensures var s' := HandleStep(sv, s);
            && s'.procs == s.procs && s'.fifo == [] && p in s'.files && s'.files[p] == |s.pipes|
            && s'.pipes == s.pipes + [Pipe(p, [])] && |s'.slots| == |s.slots|
            && s'.daemon.Opening? && s'.daemon.name == p && s'.daemon.pipe == |s.pipes| && s'.daemon.status == SUCCESS
            && s'.daemon.slot.Some? && s'.daemon.slot.value < |s.slots|
            && s'.sent == s.sent && |s'.left| == |s.left| + 1
  {
    hide Gone, GoneNames, CleanAll, Named, Swept, Alive;
    var k :| 0 <= k < |s.slots| && (!s.slots[k].connected || Departed(s.slots[k], Alive(s)));
    var m := Cleaned(sv, s).slots;
    assert !m[k].connected;
    assert LowestOpen(m, 0).Some?;
  }

  /** The granted client reads its answer and returns. */
  lemma Enter<S, C, R>(sv: Service<S, C, R>, s: State<S, C, R>, p: nat, t: nat) returns (xs: seq<Action<C>>, s': State<S, C, R>)
    requires IsThread(s, p, t) && PcOf(s, p, t).Polling? && Opens(s, p) && s.daemon.status == SUCCESS
    requires s.daemon.slot.Some? && s.daemon.slot.value < |s.slots|
    requires s.daemon.pipe < |s.pipes| && s.pipes[s.daemon.pipe].data == []
    ensures InnerPath(sv, s, xs, s') && Moved(s, s', p, t) && PcOf(s', p, t).Idle?
    ensures s'.fifo == s.fifo && s'.daemon.Ready? && s'.files == s.files
  {
    hide Run, CanRun, WriterOpen, NonePending, Taken;
    Nothing(sv, s);
    xs, s' := LadRule.Step(sv, s, [], s, Open(p, t));
    xs, s' := LadRule.Step(sv, s, xs, s', Read(p, t));
    xs, s' := LadRule.Step(sv, s, xs, s', Finish(p, t));
  }

  // ----- beside a disconnect -----

  /** A leaving thread whose FIFO is gone is past, or just at, the closing of its file. */
  lemma LeaverLate<S, C, R>(s: State<S, C, R>, p: nat, v: nat)
    requires Inv(s) && IsThread(s, p, v) && Leaves(PcOf(s, p, v)) && p !in s.files
    ensures PcOf(s, p, v).Closing? || PcOf(s, p, v).Vanishing?
    ensures NameFree(s.slots, p) && s.procs[p].version
  {
    hide PipesOk, DaemonOk, GateOk;
    var pr := s.procs[p];
    assert ProcOk(s, p) && PcFits(pr.info, pr.threads[v]) && ThreadOk(s, p, pr.info, pr.version, pr.threads[v]);
    if pr.threads[v].WantGate? || pr.threads[v].Writing? { LinkedIn(s, p, pr.threads[v].op.k); OneLeaver(pr, v); }
  }

  lemma OneLeaver<C, R>(pr: Proc<C, R>, v: nat)
    requires LocalOk(pr) && v < |pr.threads| && Leaves(pr.threads[v]) && !pr.threads[v].Closing?
    ensures forall u :: 0 <= u < |pr.threads| ==> !pr.threads[u].Closing?
  {
    forall u | 0 <= u < |pr.threads| ensures !pr.threads[u].Closing? {
      assert u != v ==> PairOk(pr.threads[v], pr.threads[u]);
    }
  }

  /** Where only the leaving thread is left, its FIFO is gone. */
  lemma LeftAlone<S, C, R>(s: State<S, C, R>, p: nat, v: nat)
    requires Inv(s) && IsThread(s, p, v) && PcOf(s, p, v).Vanishing? && Drained(s, {(p, v)})
    ensures p !in s.files && Waits(s)
  {
    var pr := s.procs[p];
    assert ProcOk(s, p) && ThreadOk(s, p, pr.info, pr.version, pr.threads[v]);
  }

  /** A thread waiting for a FIFO to go that is there again, with nothing else under way, waits forever. */
  lemma WaitsForever<S, C(!new), R>(s: State<S, C, R>, p: nat, v: nat)
    requires IsThread(s, p, v) && PcOf(s, p, v).Vanishing? && p in s.files && s.fifo == [] && s.daemon.Ready?
    requires forall q: nat, x: nat :: IsThread(s, q, x) && (q, x) != (p, v) ==> PcOf(s, q, x).Idle?
    ensures Broken(s)
  {
    forall a: Action<C> | Internal(a) ensures !Enabled(s, a) {
      if !a.Handle? && !a.Refuse? && IsThread(s, a.p, a.t) {
        assert (a.p, a.t) != (p, v) ==> PcOf(s, a.p, a.t).Idle?;
      }
    }
    assert Stuck(s);
  }

  /** All threads but t and v of p are idle. */
  ghost predicate OthersIdle<S, C, R>(s: State<S, C, R>, p: nat, t: nat, v: nat) {
    forall q: nat, x: nat :: IsThread(s, q, x) && (q, x) != (p, t) && (q, x) != (p, v) ==> PcOf(s, q, x).Idle?
  }

  lemma MovedKeeps<S, C, R>(s: State<S, C, R>, s': State<S, C, R>, p: nat, t: nat, v: nat)
    requires Moved(s, s', p, t) && OthersIdle(s, p, t, v) && IsThread(s, p, v) && v != t
    ensures OthersIdle(s', p, t, v) && IsThread(s', p, v) && PcOf(s', p, v) == PcOf(s, p, v)
  {
    forall q: nat, x: nat | IsThread(s', q, x) && (q, x) != (p, t) && (q, x) != (p, v) ensures PcOf(s', q, x).Idle? {
      assert IsThread(s, q, x) && PcOf(s, q, x) == PcOf(s', q, x);
    }
  }

  lemma CloseNow<S, C, R>(sv: Service<S, C, R>, s: State<S, C, R>, p: nat, v: nat) returns (xs: seq<Action<C>>, s': State<S, C, R>)
    requires Inv(s) && IsThread(s, p, v) && PcOf(s, p, v).Closing?
    ensures InnerPath(sv, s, xs, s') && Inv(s') && IsThread(s', p, v) && PcOf(s', p, v).Vanishing?
  {
    hide Run, CanRun, Inv;
    Nothing(sv, s);
    xs, s' := LadRule.Step(sv, s, [], s, Close(p, v));
    StepKeepsInner(sv, s, Close(p, v));
  }

  /** With the daemon waiting and room to be had, thread t connects. */
  lemma Connects<S, C, R>(sv: Service<S, C, R>, s: State<S, C, R>, p: nat, t: nat, v: nat) returns (xs: seq<Action<C>>, s': State<S, C, R>)
    requires IsThread(s, p, t) && PcOf(s, p, t) == WantGate(Join) && s.procs[p].gate.None? && s.procs[p].version
    requires Waits(s) && |s.slots| > 0 && SlotsOk(s.slots, |s.procs|) && NameFree(s.slots, p) && p !in s.files
    requires OthersIdle(s, p, t, v) && IsThread(s, p, v) && v != t
    ensures Path(sv, s, xs, s') && p in s'.files && s'.fifo == [] && s'.daemon.Ready?
    ensures OthersIdle(s', p, t, v) && IsThread(s', p, v) && PcOf(s', p, v) == PcOf(s, p, v)
    ensures IsThread(s', p, t) && PcOf(s', p, t).Idle?
  {
    hide Run, CanRun, SlotsOk, NameFree, Room, OthersIdle, HandleStep, CanHandle, InnerPath, Path;
    var y1, s1 := MakeRoom(sv, s, p, t);
    MovedKeeps(s, s1, p, t, v);
    var y2, s2 := Ask(sv, s1, p, t);
    MovedKeeps(s1, s2, p, t, v);
    SameRoom(s1, s2);
    Admit(sv, s2, p);
    InnerIsPath(sv, s1, y2, s2);
    Then(sv, s1, y2, s2, Handle);
    var s3 := HandleStep(sv, s2);
    SameProcs(s2, s3, p, t, v);
    var y4;
    y4, s' := Enter(sv, s3, p, t);
    MovedKeeps(s3, s', p, t, v);
    InnerIsPath(sv, s3, y4, s');
    Join2(sv, s, y1, s1, y2 + [Handle], s3);
    Join2(sv, s, y1 + (y2 + [Handle]), s3, y4, s');
    xs := y1 + (y2 + [Handle]) + y4;
  }

  lemma SameRoom<S, C, R>(s: State<S, C, R>, s': State<S, C, R>)
    requires Room(s) && s'.slots == s.slots && Alive(s') == Alive(s)
    ensures Room(s')
  {
    var k :| 0 <= k < |s.slots| && (!s.slots[k].connected || Departed(s.slots[k], Alive(s)));
    assert !s'.slots[k].connected || Departed(s'.slots[k], Alive(s'));
  }

  lemma SameProcs<S, C, R>(s: State<S, C, R>, s': State<S, C, R>, p: nat, t: nat, v: nat)
    requires s'.procs == s.procs && OthersIdle(s, p, t, v) && IsThread(s, p, v)
    ensures OthersIdle(s', p, t, v) && IsThread(s', p, v) && PcOf(s', p, v) == PcOf(s, p, v)
  {
    forall q: nat, x: nat | IsThread(s', q, x) && (q, x) != (p, t) && (q, x) != (p, v) ensures PcOf(s', q, x).Idle? {
      assert IsThread(s, q, x) && PcOf(s, q, x) == PcOf(s', q, x);
    }
  }

  /** A connect that finds the FIFO of a leaving connection gone, but comes before the connection's end, makes the
    * disconnect wait forever. */
  lemma BesideLeaver<S, C(!new), R>(sv: Service<S, C, R>, s: State<S, C, R>, p: nat, t: nat, v: nat)
    returns (xs: seq<Action<C>>, s': State<S, C, R>)
    requires Inv(s) && IsThread(s, p, t) && PcOf(s, p, t).Idle? && IsThread(s, p, v) && Leaves(PcOf(s, p, v)) && p !in s.files
    ensures Path(sv, SetPc(s, p, t, WantGate(Join)), xs, s') && Broken(s')
  {
    hide Run, CanRun, Inv, Broken, Enabled, Apply, NameFree, SlotsOk, InnerPath, Path, SetPc, OthersIdle;
    var pc: Pc<C, R> := WantGate(Join);
    LeaverLate(s, p, v);
    Nothing(sv, s);
    var y0, m0 := [], s;
    if PcOf(s, p, v).Closing? { y0, m0 := CloseNow(sv, s, p, v); }
    assert CanKeep(m0, {(p, v)});
    var y1, m := Drain(sv, m0, {(p, v)});
    assert (p, v) in {(p, v)};
    Then2(sv, s, y0, m0, y1, m);
    PathBeside(sv, s, y0 + y1, m, p, t, pc);
    LeftAlone(m, p, v);
    LeaverLate(m, p, v);
    NobodyHolds(m, p, v);
    BesidePc(m, p, t, pc, v);
    var w := SetPc(m, p, t, pc);
    BesideDaemon(m, p, t, pc, v);
    var zs;
    zs, s' := Connects(sv, w, p, t, v);
    InnerIsPath(sv, SetPc(s, p, t, pc), y0 + y1, w);
    Join2(sv, SetPc(s, p, t, pc), y0 + y1, w, zs, s');
    xs := y0 + y1 + zs;
    NowIdle(s', p, t, v);
    WaitsForever(s', p, v);
  }

  lemma BesideDaemon<S, C, R>(m: State<S, C, R>, p: nat, t: nat, pc: Pc<C, R>, v: nat)
    requires Inv(m) && IsThread(m, p, t) && Drained(m, {(p, v)})
    ensures var w := SetPc(m, p, t, pc);
            && w.fifo == m.fifo && w.daemon == m.daemon && w.left == m.left && w.sent == m.sent && w.slots == m.slots && w.files == m.files
            && |w.slots| > 0 && SlotsOk(w.slots, |w.procs|) && OthersIdle(w, p, t, v)
            && w.procs[p].version == m.procs[p].version && w.pipes == m.pipes
  {
    hide SlotsOk;
    var w := SetPc(m, p, t, pc);
    forall q: nat, x: nat | IsThread(w, q, x) && (q, x) != (p, t) && (q, x) != (p, v) ensures PcOf(w, q, x).Idle? {
      assert IsThread(m, q, x) && PcOf(w, q, x) == PcOf(m, q, x);
    }
  }

  lemma NowIdle<S, C, R>(s: State<S, C, R>, p: nat, t: nat, v: nat)
    requires OthersIdle(s, p, t, v) && IsThread(s, p, t) && PcOf(s, p, t).Idle?
    ensures forall q: nat, x: nat :: IsThread(s, q, x) && (q, x) != (p, v) ==> PcOf(s, q, x).Idle?
  {
  }
}
