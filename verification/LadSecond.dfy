// A second connect past its stat before the first one's FIFO is there.

module LadSecond {
  import opened Options
  import opened LadSlots
  import opened LadRpc
  import opened LadInvariant
  import opened LadSteps
  import opened LadDaemon
  import opened LadTheorems
  import opened LadProgress
  import opened LadPaths
  import opened LadRule
  import opened LadRejoin

  // ----- the first connect goes on until the daemon is about to answer it -----

  lemma Drive<S, C, R>(sv: Service<S, C, R>, s: State<S, C, R>, p: nat, u: nat) returns (xs: seq<Action<C>>, s': State<S, C, R>)
    requires Inv(s) && IsThread(s, p, u) && PcOf(s, p, u).Polling?
    ensures InnerPath(sv, s, xs, s') && Inv(s') && IsThread(s', p, u) && PcOf(s', p, u).Polling? && Opens(s', p)
    decreases Work(s)
  {
    hide Inv, Enabled, Apply, Work, Run, CanRun;
    if Opens(s, p) {
      Nothing(sv, s);
      return [], s;
    }
    PollingDue(s, p, u);
    var a := DaemonMoves(s);
    OpensName(s, a);
    WorkDrops(sv, s, a);
    StepKeepsInner(sv, s, a);
    StepBeside(sv, s, a, p, u, PcOf(s, p, u));
    xs, s' := Drive(sv, Apply(sv, s, a), p, u);
    Cons(sv, s, a, xs, s');
    xs := [a] + xs;
  }

  lemma OpensName<S, C, R>(s: State<S, C, R>, a: Action<C>)
    requires Enabled(s, a)
    ensures a.Open? ==> Opens(s, a.p)
  {
  }

  lemma PollingDue<S, C, R>(s: State<S, C, R>, p: nat, u: nat)
    requires Inv(s) && IsThread(s, p, u) && PcOf(s, p, u).Polling? && !Opens(s, p)
    ensures s.fifo != []
  {
    var pr := s.procs[p];
    assert ProcOk(s, p) && ThreadOk(s, p, pr.info, pr.version, pr.threads[u]);
  }

  lemma ToOpening<S, C, R>(sv: Service<S, C, R>, s: State<S, C, R>, p: nat, u: nat) returns (xs: seq<Action<C>>, s': State<S, C, R>)
    requires Inv(s) && IsThread(s, p, u) && Joins(PcOf(s, p, u))
    ensures InnerPath(sv, s, xs, s') && Inv(s') && IsThread(s', p, u) && PcOf(s', p, u).Polling? && Opens(s', p)
  {
    hide Inv, Run, CanRun, Drained;
    Nothing(sv, s);
    var m := s;
    xs := [];
    if PcOf(m, p, u).WantGate? {
      xs, m := Clear(sv, s, p, u);
      StepKeepsInner(sv, m, Lock(p, u));
      xs, m := LadRule.Step(sv, s, xs, m, Lock(p, u));
    }
    if PcOf(m, p, u).Writing? {
      StepKeepsInner(sv, m, Write(p, u));
      xs, m := LadRule.Step(sv, s, xs, m, Write(p, u));
    }
    var ys;
    ys, s' := Drive(sv, m, p, u);
    Then2(sv, s, xs, m, ys, s');
    xs := xs + ys;
  }

  // ----- refused: the second client opens the FIFO that is still there, and reads its end -----

  lemma AfterRefusal<S, C, R>(sv: Service<S, C, R>, s: State<S, C, R>, p: nat, u: nat, t: nat) returns (xs: seq<Action<C>>, s': State<S, C, R>)
    requires IsThread(s, p, u) && PcOf(s, p, u).Polling? && IsThread(s, p, t) && PcOf(s, p, t) == WantGate(Join) && t != u
    requires Opens(s, p) && s.daemon.status != SUCCESS && s.daemon.pipe < |s.pipes| && s.pipes[s.daemon.pipe].data == []
    requires p in s.files && s.files[p] == s.daemon.pipe
    requires forall k :: 0 <= k < |s.slots| && s.slots[k].connected ==> s.slots[k].pipe != s.daemon.pipe
    ensures InnerPath(sv, s, xs, s') && IsThread(s', p, t) && Failed(PcOf(s', p, t))
  {
    hide Run, CanRun, NonePending;
    var i := s.daemon.pipe;
    Nothing(sv, s);
    var m;
    xs, m := LadRule.Step(sv, s, [], s, Open(p, u));
    xs, m := LadRule.Step(sv, s, xs, m, Read(p, u));
    assert IsThread(m, p, t) && PcOf(m, p, t) == WantGate(Join) && m.procs[p].gate.None? && m.pipes[i].data == [];
    assert m.daemon == Refusing(p, i) && m.slots == s.slots && m.files == s.files && |m.pipes| == |s.pipes|;
    var ys;
    ys, s' := SecondReadsEnd(sv, m, p, t, i);
    Then2(sv, s, xs, m, ys, s');
    xs := xs + ys;
  }

  lemma SecondReadsEnd<S, C, R>(sv: Service<S, C, R>, s: State<S, C, R>, p: nat, t: nat, i: nat) returns (xs: seq<Action<C>>, s': State<S, C, R>)
    requires IsThread(s, p, t) && PcOf(s, p, t) == WantGate(Join) && s.procs[p].gate.None?
    requires s.daemon == Refusing(p, i) && p in s.files && s.files[p] == i < |s.pipes| && s.pipes[i].data == []
    requires forall k :: 0 <= k < |s.slots| && s.slots[k].connected ==> s.slots[k].pipe != i
    ensures InnerPath(sv, s, xs, s') && IsThread(s', p, t) && Failed(PcOf(s', p, t))
  {
    hide Run, CanRun, NonePending;
    Nothing(sv, s);
    xs, s' := LadRule.Step(sv, s, [], s, Lock(p, t));
    xs, s' := LadRule.Step(sv, s, xs, s', Write(p, t));
    xs, s' := LadRule.Step(sv, s, xs, s', Reopen(p, t));
    var m := s';
    var ys;
    ys, s' := ReadsEnd(sv, m, p, t, i);
    Then2(sv, s, xs, m, ys, s');
    xs := xs + ys;
  }

  lemma ReadsEnd<S, C, R>(sv: Service<S, C, R>, s: State<S, C, R>, p: nat, t: nat, i: nat) returns (xs: seq<Action<C>>, s': State<S, C, R>)
    requires IsThread(s, p, t) && PcOf(s, p, t).Reading? && PcOf(s, p, t).pipe == i < |s.pipes| && s.pipes[i].data == []
    requires s.daemon == Refusing(p, i)
    requires forall k :: 0 <= k < |s.slots| && s.slots[k].connected ==> s.slots[k].pipe != i
    ensures InnerPath(sv, s, xs, s') && IsThread(s', p, t) && Failed(PcOf(s', p, t))
  {
    hide Run, CanRun, NonePending;
    Nothing(sv, s);
    xs, s' := LadRule.Step(sv, s, [], s, Refuse);
    xs, s' := LadRule.Step(sv, s, xs, s', Read(p, t));
  }

  // ----- granted: mkfifo fails for the second request, and it is never answered -----

  /** The process stays connected through entry k. */
  ghost predicate Stays<S, C, R>(s: State<S, C, R>, p: nat, k: nat) {
    && p < |s.procs| && s.procs[p].alive && Usable(s.procs[p].info, k)
    && forall x :: 0 <= x < |s.procs[p].threads| ==> !Leaves(s.procs[p].threads[x])
  }

  lemma StaysStep<S, C, R>(sv: Service<S, C, R>, s: State<S, C, R>, a: Action<C>, p: nat, k: nat)
    requires Inv(s) && Stays(s, p, k) && Enabled(s, a) && Internal(a)
    ensures Stays(Apply(sv, s, a), p, k)
  {
    hide Inv, HandleStep, CanHandle, WriterOpen, Entry, SetPc, SetGate, WriteStep, ReadStep, CloseStep, VanishStep, OpenStep;
    if a.Handle? { HandleProcs(sv, s); }
    else if a.Refuse? {}
    else if a.p != p { OtherProc(sv, s, a, p); }
    else if a.Read? { StaysRead(s, p, a.t, k); }
    else { StaysOwn(sv, s, a, k); }
  }

  lemma OtherProc<S, C, R>(sv: Service<S, C, R>, s: State<S, C, R>, a: Action<C>, p: nat)
    requires Enabled(s, a) && Internal(a) && !a.Handle? && !a.Refuse? && a.p != p < |s.procs|
    ensures Apply(sv, s, a).procs[p] == s.procs[p]
  {
    hide CanHandle, WriterOpen, Entry, Taken, ReadStep, WriteStep, CloseStep, VanishStep, OpenStep, HandleStep;
  }

  lemma StaysRead<S, C, R>(s: State<S, C, R>, p: nat, t: nat, k: nat)
    requires Inv(s) && Stays(s, p, k) && Enabled(s, Read(p, t))
    ensures Stays(ReadStep(s, p, t), p, k)
  {
    hide WriterOpen, SlotsOk, FilesOk, PipesOk, DaemonOk, ThreadsOk, Quiet, GateOk, PairsOk;
    assert ProcOk(s, p) && PcFits(s.procs[p].info, s.procs[p].threads[t]);
  }

  lemma StaysOwn<S, C, R>(sv: Service<S, C, R>, s: State<S, C, R>, a: Action<C>, k: nat)
    requires Enabled(s, a) && Internal(a) && !a.Handle? && !a.Refuse? && !a.Read? && Stays(s, a.p, k)
    ensures Stays(Apply(sv, s, a), a.p, k)
  {
    hide CanHandle, WriterOpen, Entry, Taken, CloseStep, VanishStep;
    assert !Leaves(s.procs[a.p].threads[a.t]);
  }

  lemma HandleProcs<S, C, R>(sv: Service<S, C, R>, s: State<S, C, R>)
    requires Enabled(s, Handle)
    ensures HandleStep(sv, s).procs == s.procs
  {
    hide Swept, Gone, GoneNames, CleanAll, Named;
  }

  lemma {:induction false} StaysPath<S, C, R>(sv: Service<S, C, R>, s: State<S, C, R>, xs: seq<Action<C>>, s': State<S, C, R>, p: nat, k: nat)
    requires Inv(s) && Stays(s, p, k) && InnerPath(sv, s, xs, s')
    ensures Stays(s', p, k)
    decreases |xs|
  {
    hide Inv, Enabled, Apply, Stays, Internal;
    if xs != [] {
      assert xs[0] in xs;
      StaysStep(sv, s, xs[0], p, k);
      StepKeepsInner(sv, s, xs[0]);
      StaysPath(sv, Apply(sv, s, xs[0]), xs[1..], s', p, k);
    }
  }

  /** The granted client has its entry. */
  lemma Granted<S, C, R>(sv: Service<S, C, R>, s: State<S, C, R>, p: nat, u: nat) returns (xs: seq<Action<C>>, s': State<S, C, R>, k: nat)
    requires Inv(s) && IsThread(s, p, u) && PcOf(s, p, u).Polling? && Opens(s, p) && s.daemon.status == SUCCESS
    ensures InnerPath(sv, s, xs, s') && Inv(s') && Stays(s', p, k)
  {
    hide Run, CanRun, Inv, WriterOpen, NonePending, Taken;
    OpeningFacts(s, p, u);
    k := s.daemon.slot.value;
    Nothing(sv, s);
    StepKeepsInner(sv, s, Open(p, u));
    xs, s' := LadRule.Step(sv, s, [], s, Open(p, u));
    StepKeepsInner(sv, s', Read(p, u));
    xs, s' := LadRule.Step(sv, s, xs, s', Read(p, u));
  }

  lemma OpeningFacts<S, C, R>(s: State<S, C, R>, p: nat, u: nat)
    requires Inv(s) && IsThread(s, p, u) && PcOf(s, p, u).Polling? && Opens(s, p)
    ensures p in s.files && s.files[p] == s.daemon.pipe < |s.pipes| && s.pipes[s.daemon.pipe].data == []
    ensures s.daemon.status == SUCCESS ==> s.daemon.slot.Some? && s.daemon.slot.value < |s.slots| == |s.procs[p].info|
    ensures forall x :: 0 <= x < |s.procs[p].threads| ==> !Leaves(s.procs[p].threads[x])
    ensures forall k :: 0 <= k < |s.slots| && s.slots[k].connected ==> s.slots[k].pipe != s.daemon.pipe
  {
    hide GateOk, PairsOk, ThreadsOk;
    var pr := s.procs[p];
    assert ProcOk(s, p) && PcFits(pr.info, pr.threads[u]);
    forall x | 0 <= x < |pr.threads| ensures !Leaves(pr.threads[x]) { assert PcFits(pr.info, pr.threads[x]); }
  }

  /** A thread reading, alone, from a pipe that is open and empty, waits forever. */
  lemma ReadsForever<S, C(!new), R>(s: State<S, C, R>, p: nat, t: nat, i: nat)
    requires IsThread(s, p, t) && PcOf(s, p, t).Reading? && PcOf(s, p, t).pipe == i < |s.pipes|
    requires s.pipes[i].data == [] && WriterOpen(s, i) && s.fifo == [] && s.daemon.Ready?
    requires forall q: nat, x: nat :: IsThread(s, q, x) && (q, x) != (p, t) ==> PcOf(s, q, x).Idle?
    ensures Stuck(s) && Broken(s)
  {
    forall a: Action<C> | Internal(a) ensures !Enabled(s, a) {
      if !a.Handle? && !a.Refuse? && IsThread(s, a.p, a.t) {
        assert (a.p, a.t) != (p, t) ==> PcOf(s, a.p, a.t).Idle?;
      }
    }
    assert Stuck(s);
  }

  /** Everything at rest, a connected process has its FIFO, open and empty. */
  lemma RestingFifo<S, C, R>(s: State<S, C, R>, p: nat, k: nat)
    requires Inv(s) && Stays(s, p, k) && Drained(s, {})
    ensures p in s.files && s.files[p] < |s.pipes| && s.pipes[s.files[p]].data == []
    ensures Under(s.slots, k, p) && s.slots[k].pipe == s.files[p] && s.slots[k].pid == p
    ensures Waits(s) && s.procs[p].gate.None?
  {
    hide PairsOk, PipesOk;
    var pr := s.procs[p];
    assert ProcOk(s, p);
    forall x | 0 <= x < |pr.threads| ensures pr.threads[x].Idle? { assert IsThread(s, p, x) && PcOf(s, p, x).Idle?; }
    assert NoneActive(pr);
  }

  /** mkfifo fails: the request is dropped, and the FIFO there is stays as it is. */
  lemma Dropped<S, C, R>(sv: Service<S, C, R>, s: State<S, C, R>, p: nat, k: nat)
    requires p < |s.procs| && s.fifo == [Connect(p, p, s.procs[p].version)] && s.daemon.Ready? && p in s.files
    requires p in Alive(s) && Under(s.slots, k, p) && s.slots[k].pid == p && SlotsOk(s.slots, |s.procs|)
    ensures Enabled(s, Handle)
    ensures var s' := HandleStep(sv, s);
            && s'.procs == s.procs && s'.fifo == [] && s'.daemon.Ready? && s'.pipes == s.pipes
            && p in s'.files && s'.files[p] == s.files[p]
            && k < |s'.slots| && s'.slots[k].connected && s'.slots[k].pipe == s.slots[k].pipe
  {
    hide Gone, GoneNames, CleanAll, Named, Swept, Alive;
    var m := Cleaned(sv, s);
    assert p !in GoneNames(s.slots, |s.slots|, Alive(s));
    assert m.slots[k] == s.slots[k];
  }

  lemma AfterGrant<S, C(!new), R>(sv: Service<S, C, R>, m: State<S, C, R>, p: nat, t: nat, k: nat) returns (xs: seq<Action<C>>, s': State<S, C, R>)
    requires Inv(m) && Stays(m, p, k) && Drained(m, {}) && IsThread(m, p, t) && PcOf(m, p, t).Idle?
    ensures InnerPath(sv, SetPc(m, p, t, WantGate(Join)), xs, s') && Broken(s')
    ensures Stuck(s') && IsThread(s', p, t) && PcOf(s', p, t).Reading? && s'.procs[p].gate == Some(t)
  {
    hide Run, CanRun, Inv, SlotsOk, HandleStep, CanHandle, Broken, Drained, Stays, Moved, Stuck;
    RestingFifo(m, p, k);
    var w := SetPc(m, p, t, WantGate(Join));
    var s2;
    AloneDaemon(m, p, t, WantGate(Join));
    xs, s2 := Ask(sv, w, p, t);
    MovedAlone(w, s2, p, t);
    Dropped(sv, s2, p, k);
    var s3 := HandleStep(sv, s2);
    xs, s3 := LadRule.Step(sv, w, xs, s2, Handle);
    assert WriterOpen(s3, s3.files[p]);
    xs, s' := LadRule.Step(sv, w, xs, s3, Reopen(p, t));
    assert WriterOpen(s', s3.files[p]);
    forall q: nat, x: nat | IsThread(s', q, x) && (q, x) != (p, t) ensures PcOf(s', q, x).Idle? {
      assert IsThread(s2, q, x) && PcOf(s2, q, x) == PcOf(s', q, x);
    }
    ReadsForever(s', p, t, s3.files[p]);
  }

  lemma AloneDaemon<S, C, R>(m: State<S, C, R>, p: nat, t: nat, pc: Pc<C, R>)
    requires Inv(m) && IsThread(m, p, t) && Drained(m, {})
    ensures var w := SetPc(m, p, t, pc);
            && w == m.(procs := w.procs) && SlotsOk(w.slots, |w.procs|) && Alive(w) == Alive(m) && p in Alive(m)
            && IsThread(w, p, t) && PcOf(w, p, t) == pc && w.procs[p].gate == m.procs[p].gate
            && forall q: nat, x: nat :: IsThread(w, q, x) && (q, x) != (p, t) ==> PcOf(w, q, x).Idle?
  {
    hide SlotsOk;
    var w := SetPc(m, p, t, pc);
    forall q: nat, x: nat | IsThread(w, q, x) && (q, x) != (p, t) ensures PcOf(w, q, x).Idle? {
      assert IsThread(m, q, x) && PcOf(w, q, x) == PcOf(m, q, x);
    }
  }

  lemma MovedAlone<S, C, R>(s: State<S, C, R>, s': State<S, C, R>, p: nat, t: nat)
    requires Moved(s, s', p, t) && forall q: nat, x: nat :: IsThread(s, q, x) && (q, x) != (p, t) ==> PcOf(s, q, x).Idle?
    ensures IsThread(s', p, t) && |s'.procs| == |s.procs|
    ensures forall q: nat, x: nat :: IsThread(s', q, x) && (q, x) != (p, t) ==> PcOf(s', q, x).Idle?
  {
    forall q: nat, x: nat | IsThread(s', q, x) && (q, x) != (p, t) ensures PcOf(s', q, x).Idle? {
      assert IsThread(s, q, x) && PcOf(s, q, x) == PcOf(s', q, x);
    }
  }

  /** Either way something breaks: the second client waits forever, or reads the end of the refused one's FIFO. */
  lemma BesideJoiner<S, C(!new), R>(sv: Service<S, C, R>, s: State<S, C, R>, p: nat, t: nat, u: nat)
    returns (xs: seq<Action<C>>, s': State<S, C, R>)
    requires Inv(s) && IsThread(s, p, t) && PcOf(s, p, t).Idle? && IsThread(s, p, u) && Joins(PcOf(s, p, u))
    ensures Path(sv, SetPc(s, p, t, WantGate(Join)), xs, s') && Broken(s')
  {
    hide Run, CanRun, Inv, SetPc, Drained, Enabled, Apply, Stuck, AtRest;
    var pc: Pc<C, R> := WantGate(Join);
    var y, m := ToOpening(sv, s, p, u);
    PathBeside(sv, s, y, m, p, t, pc);
    OpeningFacts(m, p, u);
    var z;
    if m.daemon.status == SUCCESS {
      var y1, m1, k := Granted(sv, m, p, u);
      PathBeside(sv, m, y1, m1, p, t, pc);
      var y2, m2 := Drain(sv, m1, {});
      PathBeside(sv, m1, y2, m2, p, t, pc);
      StaysPath(sv, m1, y2, m2, p, k);
      z, s' := AfterGrant(sv, m2, p, t, k);
      Then2(sv, SetPc(m, p, t, pc), y1, SetPc(m1, p, t, pc), y2, SetPc(m2, p, t, pc));
      Then2(sv, SetPc(m, p, t, pc), y1 + y2, SetPc(m2, p, t, pc), z, s');
      z := y1 + y2 + z;
    } else {
      var w := SetPc(m, p, t, pc);
      BesidePc(m, p, t, pc, u);
      SetPcRest(m, p, t, pc);
      z, s' := AfterRefusal(sv, w, p, u, t);
    }
    Then2(sv, SetPc(s, p, t, pc), y, SetPc(m, p, t, pc), z, s');
    xs := y + z;
    InnerIsPath(sv, SetPc(s, p, t, pc), xs, s');
  }

  lemma SetPcRest<S, C, R>(m: State<S, C, R>, p: nat, t: nat, pc: Pc<C, R>)
    requires IsThread(m, p, t)
    ensures var w := SetPc(m, p, t, pc); w == m.(procs := w.procs)
  {
  }
}
