// Runs that go on from a reachable state: letting everything under way come to
// an end but for some threads held back, and doing so beside a thread that has
// started something.

module LadPaths {
  import opened Options
  import opened LadSlots
  import opened LadRpc
  import opened LadInvariant
  import opened LadTheorems
  import opened LadProgress

  /** A run from s to s' in which no call is begun. */
  ghost predicate Path<S, C, R>(sv: Service<S, C, R>, s: State<S, C, R>, actions: seq<Action<C>>, s': State<S, C, R>) {
    CanRun(sv, s, actions) && Run(sv, s, actions) == s' && forall a :: a in actions ==> !a.Begin?
  }

  /** ... and no process dies. */
  ghost predicate InnerPath<S, C, R>(sv: Service<S, C, R>, s: State<S, C, R>, actions: seq<Action<C>>, s': State<S, C, R>) {
    CanRun(sv, s, actions) && Run(sv, s, actions) == s' && forall a :: a in actions ==> Internal(a)
  }

  lemma {:induction false} RunAppend<S, C, R>(sv: Service<S, C, R>, s: State<S, C, R>, xs: seq<Action<C>>, ys: seq<Action<C>>)
    requires CanRun(sv, s, xs) && CanRun(sv, Run(sv, s, xs), ys)
    ensures CanRun(sv, s, xs + ys) && Run(sv, s, xs + ys) == Run(sv, Run(sv, s, xs), ys)
    decreases |xs|
  {
    hide Enabled, Apply;
    if xs == [] {
      assert xs + ys == ys;
    } else {
      RunAppend(sv, Apply(sv, s, xs[0]), xs[1..], ys);
      assert (xs + ys)[1..] == xs[1..] + ys;
    }
  }

  lemma Join2<S, C, R>(sv: Service<S, C, R>, s: State<S, C, R>, xs: seq<Action<C>>, m: State<S, C, R>, ys: seq<Action<C>>, s': State<S, C, R>)
    requires Path(sv, s, xs, m) && Path(sv, m, ys, s')
    ensures Path(sv, s, xs + ys, s')
    ensures InnerPath(sv, s, xs, m) && InnerPath(sv, m, ys, s') ==> InnerPath(sv, s, xs + ys, s')
  {
    RunAppend(sv, s, xs, ys);
  }

  lemma InnerIsPath<S, C, R>(sv: Service<S, C, R>, s: State<S, C, R>, xs: seq<Action<C>>, s': State<S, C, R>)
    requires InnerPath(sv, s, xs, s')
    ensures Path(sv, s, xs, s')
  {
  }

  lemma Then<S, C, R>(sv: Service<S, C, R>, s: State<S, C, R>, xs: seq<Action<C>>, m: State<S, C, R>, a: Action<C>)
    requires Path(sv, s, xs, m) && Enabled(m, a) && !a.Begin?
    ensures Path(sv, s, xs + [a], Apply(sv, m, a))
    ensures InnerPath(sv, s, xs, m) && Internal(a) ==> InnerPath(sv, s, xs + [a], Apply(sv, m, a))
  {
    hide Enabled, Apply;
    assert [a][1..] == [];
    assert CanRun(sv, m, [a]) && Run(sv, m, [a]) == Apply(sv, m, a);
    RunAppend(sv, s, xs, [a]);
  }

  lemma Nothing<S, C, R>(sv: Service<S, C, R>, s: State<S, C, R>)
    ensures InnerPath(sv, s, [], s) && Path(sv, s, [], s)
  {
  }

  lemma PathInv<S, C, R>(sv: Service<S, C, R>, s: State<S, C, R>, xs: seq<Action<C>>, s': State<S, C, R>)
    requires Inv(s) && Path(sv, s, xs, s')
    ensures Inv(s')
  {
    hide Inv, Run, CanRun;
    InternalObeys(sv, s, xs);
    RunInv(sv, s, xs);
  }

  // ----- beside a thread -----

  /** The step is one of thread t of process p. */
  predicate Acts<C>(a: Action<C>, p: nat, t: nat) { !a.Handle? && !a.Refuse? && !a.Die? && a.p == p && a.t == t }

  lemma AliveSame<S, C, R>(s: State<S, C, R>, p: nat, t: nat, pc: Pc<C, R>)
    requires IsThread(s, p, t)
    ensures Alive(SetPc(s, p, t, pc)) == Alive(s)
  {
  }

  lemma HandleBeside<S, C, R>(sv: Service<S, C, R>, s: State<S, C, R>, p: nat, t: nat, pc: Pc<C, R>)
    requires IsThread(s, p, t) && Enabled(s, Handle)
    ensures IsThread(HandleStep(sv, s), p, t) && PcOf(HandleStep(sv, s), p, t) == PcOf(s, p, t)
    ensures Enabled(SetPc(s, p, t, pc), Handle) && HandleStep(sv, SetPc(s, p, t, pc)) == SetPc(HandleStep(sv, s), p, t, pc)
  {
    hide Swept, Gone, GoneNames, CleanAll, Named, Alive;
    AliveSame(s, p, t, pc);
  }

  // setting the place of one thread beside any other change of a process

  lemma SwapPc<S, C, R>(s: State<S, C, R>, q: nat, u: nat, pc2: Pc<C, R>, p: nat, t: nat, pc: Pc<C, R>)
    requires IsThread(s, p, t) && IsThread(s, q, u) && (q, u) != (p, t)
    ensures IsThread(SetPc(s, q, u, pc2), p, t) && IsThread(SetPc(s, p, t, pc), q, u)
    ensures PcOf(SetPc(s, q, u, pc2), p, t) == PcOf(s, p, t) && PcOf(SetPc(s, p, t, pc), q, u) == PcOf(s, q, u)
    ensures |SetPc(s, q, u, pc2).procs| == |s.procs| && SetPc(s, q, u, pc2).procs[q].info == s.procs[q].info
    ensures SetPc(SetPc(s, p, t, pc), q, u, pc2) == SetPc(SetPc(s, q, u, pc2), p, t, pc)
  {
    var x, y := SetPc(SetPc(s, p, t, pc), q, u, pc2), SetPc(SetPc(s, q, u, pc2), p, t, pc);
    assert x.procs[p].threads == y.procs[p].threads;
    assert x.procs == y.procs;
  }

  lemma SwapGate<S, C, R>(s: State<S, C, R>, q: nat, gate: Option<nat>, p: nat, t: nat, pc: Pc<C, R>)
    requires IsThread(s, p, t) && q < |s.procs|
    ensures IsThread(SetGate(s, q, gate), p, t) && PcOf(SetGate(s, q, gate), p, t) == PcOf(s, p, t)
    ensures |SetPc(s, p, t, pc).procs| == |s.procs|
    ensures SetGate(SetPc(s, p, t, pc), q, gate) == SetPc(SetGate(s, q, gate), p, t, pc)
  {
    assert SetGate(SetPc(s, p, t, pc), q, gate).procs == SetPc(SetGate(s, q, gate), p, t, pc).procs;
  }

  lemma SwapInfo<S, C, R>(s: State<S, C, R>, q: nat, k: nat, info: Info, p: nat, t: nat, pc: Pc<C, R>)
    requires IsThread(s, p, t) && q < |s.procs|
    ensures IsThread(SetInfo(s, q, k, info), p, t) && PcOf(SetInfo(s, q, k, info), p, t) == PcOf(s, p, t)
    ensures |SetPc(s, p, t, pc).procs| == |s.procs| && SetPc(s, p, t, pc).procs[q].info == s.procs[q].info
    ensures SetInfo(SetPc(s, p, t, pc), q, k, info) == SetPc(SetInfo(s, q, k, info), p, t, pc)
  {
    assert SetInfo(SetPc(s, p, t, pc), q, k, info).procs == SetPc(SetInfo(s, q, k, info), p, t, pc).procs;
  }

  lemma SwapData<S, C, R>(s: State<S, C, R>, i: nat, data: seq<Answer<R>>, p: nat, t: nat, pc: Pc<C, R>)
    requires IsThread(s, p, t) && i < |s.pipes|
    ensures IsThread(SetData(s, i, data), p, t) && PcOf(SetData(s, i, data), p, t) == PcOf(s, p, t)
    ensures SetData(SetPc(s, p, t, pc), i, data) == SetPc(SetData(s, i, data), p, t, pc)
  {
  }

  /** What of the state a step of thread u of q looks at is the same wherever thread t of p stands. */
  lemma SameSight<S, C, R>(s: State<S, C, R>, q: nat, u: nat, p: nat, t: nat, pc: Pc<C, R>)
    requires IsThread(s, p, t) && IsThread(s, q, u) && (q, u) != (p, t)
    ensures var x := SetPc(s, p, t, pc);
            && IsThread(x, q, u) && PcOf(x, q, u) == PcOf(s, q, u)
            && x.procs[q].info == s.procs[q].info && x.procs[q].gate == s.procs[q].gate && x.procs[q].version == s.procs[q].version
            && Source(x.procs[q], PcOf(s, q, u)) == Source(s.procs[q], PcOf(s, q, u))
            && (forall i: nat :: WriterOpen(x, i) == WriterOpen(s, i))
  {
  }

  lemma ReceivedBeside<S, C, R>(s: State<S, C, R>, q: nat, u: nat, answer: Answer<R>, p: nat, t: nat, pc: Pc<C, R>)
    requires IsThread(s, p, t) && IsThread(s, q, u) && (q, u) != (p, t) && (PcOf(s, q, u).Waiting? || PcOf(s, q, u).Reading?)
    ensures IsThread(Received(s, q, u, answer), p, t) && PcOf(Received(s, q, u, answer), p, t) == PcOf(s, p, t)
    ensures IsThread(SetPc(s, p, t, pc), q, u) && PcOf(SetPc(s, p, t, pc), q, u) == PcOf(s, q, u)
    ensures Received(SetPc(s, p, t, pc), q, u, answer) == SetPc(Received(s, q, u, answer), p, t, pc)
  {
    hide SetPc, SetInfo, PcOf;
    match PcOf(s, q, u)
    case Waiting(k, c, id) => SwapPc(s, q, u, Returned(Invoke(k, c), id, answer), p, t, pc);
    case Reading(id, pipe) =>
      var back := Returned(Join, id, answer);
      SwapPc(s, q, u, back, p, t, pc);
      if answer.Status? && answer.status == SUCCESS && answer.handle.Some? {
        SwapInfo(SetPc(s, q, u, back), q, answer.handle.value, Info(true, true, pipe), p, t, pc);
      }
  }

  lemma ReadBeside<S, C, R>(s: State<S, C, R>, q: nat, u: nat, p: nat, t: nat, pc: Pc<C, R>)
    requires IsThread(s, p, t) && Enabled(s, Read(q, u)) && (q, u) != (p, t)
    ensures IsThread(ReadStep(s, q, u), p, t) && PcOf(ReadStep(s, q, u), p, t) == PcOf(s, p, t)
    ensures Enabled(SetPc(s, p, t, pc), Read(q, u))
    ensures ReadStep(SetPc(s, p, t, pc), q, u) == SetPc(ReadStep(s, q, u), p, t, pc)
  {
    hide WriterOpen, Received, Source;
    SameSight(s, q, u, p, t, pc);
    SwapGate(s, q, None, p, t, pc);
    match Source(s.procs[q], PcOf(s, q, u))
    case None => ReceivedBeside(SetGate(s, q, None), q, u, Status(IOFAILURE, None), p, t, pc);
    case Some(i) =>
      if s.pipes[i].data == [] {
        ReceivedBeside(SetGate(s, q, None), q, u, Status(IOFAILURE, None), p, t, pc);
      } else {
        var m := SetData(s, i, s.pipes[i].data[1..]);
        SwapData(s, i, s.pipes[i].data[1..], p, t, pc);
        SwapGate(m, q, None, p, t, pc);
        ReceivedBeside(SetGate(m, q, None), q, u, s.pipes[i].data[0], p, t, pc);
      }
  }

  lemma CloseBeside<S, C, R>(s: State<S, C, R>, q: nat, u: nat, p: nat, t: nat, pc: Pc<C, R>)
    requires IsThread(s, p, t) && Enabled(s, Close(q, u)) && (q, u) != (p, t)
    ensures IsThread(CloseStep(s, q, u), p, t) && PcOf(CloseStep(s, q, u), p, t) == PcOf(s, p, t)
    ensures Enabled(SetPc(s, p, t, pc), Close(q, u))
    ensures CloseStep(SetPc(s, p, t, pc), q, u) == SetPc(CloseStep(s, q, u), p, t, pc)
  {
    SameSight(s, q, u, p, t, pc);
    var Closing(k, id) := PcOf(s, q, u);
    hide SetGate, SetInfo, WriterOpen;
    var m := SetPc(s, q, u, Vanishing(k, id));
    SwapPc(s, q, u, Vanishing(k, id), p, t, pc);
    SwapGate(m, q, None, p, t, pc);
    if k < |s.procs[q].info| { SwapInfo(SetGate(m, q, None), q, k, s.procs[q].info[k].(open := false), p, t, pc); }
  }

  lemma VanishBeside<S, C, R>(s: State<S, C, R>, q: nat, u: nat, p: nat, t: nat, pc: Pc<C, R>)
    requires IsThread(s, p, t) && Enabled(s, Vanish(q, u)) && (q, u) != (p, t)
    ensures IsThread(VanishStep(s, q, u), p, t) && PcOf(VanishStep(s, q, u), p, t) == PcOf(s, p, t)
    ensures Enabled(SetPc(s, p, t, pc), Vanish(q, u))
    ensures VanishStep(SetPc(s, p, t, pc), q, u) == SetPc(VanishStep(s, q, u), p, t, pc)
  {
    SameSight(s, q, u, p, t, pc);
    var Vanishing(k, id) := PcOf(s, q, u);
    hide SetInfo, WriterOpen;
    var back := Returned(Leave(k), id, Status(SUCCESS, None));
    SwapPc(s, q, u, back, p, t, pc);
    if k < |s.procs[q].info| { SwapInfo(SetPc(s, q, u, back), q, k, s.procs[q].info[k].(connected := false), p, t, pc); }
  }

  lemma OpenBeside<S, C, R>(s: State<S, C, R>, q: nat, u: nat, p: nat, t: nat, pc: Pc<C, R>)
    requires IsThread(s, p, t) && Enabled(s, Open(q, u)) && (q, u) != (p, t)
    ensures IsThread(OpenStep(s, q, u), p, t) && PcOf(OpenStep(s, q, u), p, t) == PcOf(s, p, t)
    ensures Enabled(SetPc(s, p, t, pc), Open(q, u))
    ensures OpenStep(SetPc(s, p, t, pc), q, u) == SetPc(OpenStep(s, q, u), p, t, pc)
  {
    hide WriterOpen, Taken;
    SameSight(s, q, u, p, t, pc);
    SwapPc(s, q, u, Reading(PcOf(s, q, u).id, s.daemon.pipe), p, t, pc);
  }

  lemma WriteBeside<S, C, R>(s: State<S, C, R>, q: nat, u: nat, p: nat, t: nat, pc: Pc<C, R>)
    requires IsThread(s, p, t) && Enabled(s, Write(q, u)) && (q, u) != (p, t)
    ensures IsThread(WriteStep(s, q, u), p, t) && PcOf(WriteStep(s, q, u), p, t) == PcOf(s, p, t)
    ensures Enabled(SetPc(s, p, t, pc), Write(q, u))
    ensures WriteStep(SetPc(s, p, t, pc), q, u) == SetPc(WriteStep(s, q, u), p, t, pc)
  {
    hide WriterOpen;
    SameSight(s, q, u, p, t, pc);
    match PcOf(s, q, u).op
    case Join => SwapPc(s, q, u, Polling(|s.sent|), p, t, pc);
    case Leave(k) => SwapPc(s, q, u, Closing(k, |s.sent|), p, t, pc);
    case Invoke(k, c) => SwapPc(s, q, u, Waiting(k, c, |s.sent|), p, t, pc);
  }

  lemma LockBeside<S, C, R>(sv: Service<S, C, R>, s: State<S, C, R>, q: nat, u: nat, p: nat, t: nat, pc: Pc<C, R>)
    requires IsThread(s, p, t) && Enabled(s, Lock(q, u)) && (q, u) != (p, t)
    ensures var a := Lock(q, u); var s' := Apply(sv, s, a);
            && IsThread(s', p, t) && PcOf(s', p, t) == PcOf(s, p, t)
            && Enabled(SetPc(s, p, t, pc), a) && Apply(sv, SetPc(s, p, t, pc), a) == SetPc(s', p, t, pc)
  {
    SameSight(s, q, u, p, t, pc);
    var m := SetGate(s, q, Some(u));
    SwapGate(s, q, Some(u), p, t, pc);
    SwapPc(m, q, u, Writing(PcOf(s, q, u).op), p, t, pc);
  }

  /** A step of another thread, or of the daemon, is the same wherever thread t of p stands. */
  lemma StepBeside<S, C, R>(sv: Service<S, C, R>, s: State<S, C, R>, a: Action<C>, p: nat, t: nat, pc: Pc<C, R>)
    requires IsThread(s, p, t) && Enabled(s, a) && Internal(a) && !Acts(a, p, t)
    ensures IsThread(Apply(sv, s, a), p, t) && PcOf(Apply(sv, s, a), p, t) == PcOf(s, p, t)
    ensures Enabled(SetPc(s, p, t, pc), a) && Apply(sv, SetPc(s, p, t, pc), a) == SetPc(Apply(sv, s, a), p, t, pc)
  {
    hide HandleStep, ReadStep, CloseStep, VanishStep, OpenStep, WriteStep, Entry, WriterOpen, CanHandle, SetPc, SetGate;
    match a
    case Handle => HandleBeside(sv, s, p, t, pc);
    case Refuse => RefuseBeside(sv, s, p, t, pc);
    case Read(q, u) => ReadBeside(s, q, u, p, t, pc);
    case Close(q, u) => CloseBeside(s, q, u, p, t, pc);
    case Vanish(q, u) => VanishBeside(s, q, u, p, t, pc);
    case Open(q, u) => OpenBeside(s, q, u, p, t, pc);
    case Write(q, u) => WriteBeside(s, q, u, p, t, pc);
    case Lock(q, u) => LockBeside(sv, s, q, u, p, t, pc);
    case Finish(q, u) =>
      SameSight(s, q, u, p, t, pc);
      SwapPc(s, q, u, Idle, p, t, pc);
    case Reopen(q, u) =>
      SameSight(s, q, u, p, t, pc);
      PcFiles(s, p, t, pc);
      SwapPc(s, q, u, Reading(PcOf(s, q, u).id, s.files[q]), p, t, pc);
  }

  lemma PcFiles<S, C, R>(s: State<S, C, R>, p: nat, t: nat, pc: Pc<C, R>)
    requires IsThread(s, p, t)
    ensures SetPc(s, p, t, pc).files == s.files
  {
  }

  lemma RefuseBeside<S, C, R>(sv: Service<S, C, R>, s: State<S, C, R>, p: nat, t: nat, pc: Pc<C, R>)
    requires IsThread(s, p, t) && Enabled(s, Refuse)
    ensures IsThread(Apply(sv, s, Refuse), p, t) && PcOf(Apply(sv, s, Refuse), p, t) == PcOf(s, p, t)
    ensures Enabled(SetPc(s, p, t, pc), Refuse)
    ensures Apply(sv, SetPc(s, p, t, pc), Refuse) == SetPc(Apply(sv, s, Refuse), p, t, pc)
  {
  }

  /** While thread t of p is idle, what the others and the daemon do on their own they do just so after t has started. */
  lemma {:induction false} PathBeside<S, C, R>(sv: Service<S, C, R>, s: State<S, C, R>, xs: seq<Action<C>>, s': State<S, C, R>, p: nat, t: nat, pc: Pc<C, R>)
    requires IsThread(s, p, t) && PcOf(s, p, t).Idle? && InnerPath(sv, s, xs, s')
    ensures IsThread(s', p, t) && PcOf(s', p, t).Idle?
    ensures InnerPath(sv, SetPc(s, p, t, pc), xs, SetPc(s', p, t, pc))
    decreases |xs|
  {
    hide Enabled, Apply, SetPc, Internal;
    if xs != [] {
      assert xs[0] in xs;
      IdleActs(s, xs[0], p, t);
      StepBeside(sv, s, xs[0], p, t, pc);
      PathBeside(sv, Apply(sv, s, xs[0]), xs[1..], s', p, t, pc);
    }
  }

  lemma IdleActs<S, C, R>(s: State<S, C, R>, a: Action<C>, p: nat, t: nat)
    requires IsThread(s, p, t) && PcOf(s, p, t).Idle? && Enabled(s, a) && Internal(a)
    ensures !Acts(a, p, t)
  {
  }

  // ----- letting things come to an end -----

  /** The threads held back can be: they have neither mutex nor command under way, or only wait for a FIFO to go. */
  ghost predicate CanKeep<S, C, R>(s: State<S, C, R>, keep: set<(nat, nat)>) {
    forall x :: x in keep ==>
      IsThread(s, x.0, x.1) && (PcOf(s, x.0, x.1).Idle? || PcOf(s, x.0, x.1).WantGate? || PcOf(s, x.0, x.1).Vanishing?)
  }

  /** Everything but the threads held back has come to an end. */
  ghost predicate Drained<S, C, R>(s: State<S, C, R>, keep: set<(nat, nat)>) {
    && s.fifo == [] && s.daemon.Ready?
    && forall p: nat, t: nat :: IsThread(s, p, t) && (p, t) !in keep ==> PcOf(s, p, t).Idle?
  }

  lemma DrainStep<S, C, R>(s: State<S, C, R>, keep: set<(nat, nat)>, p: nat, t: nat) returns (a: Action<C>)
    requires Inv(s) && CanKeep(s, keep)
    requires s.fifo != [] || !s.daemon.Ready? || (IsThread(s, p, t) && (p, t) !in keep && !PcOf(s, p, t).Idle?)
    ensures Enabled(s, a) && Internal(a) && forall x :: x in keep ==> !Acts(a, x.0, x.1)
  {
    hide SlotsOk, FilesOk, PipesOk, LocalOk, ThreadsOk, Quiet, NonePending, CanHandle, DaemonOk, WriterOpen, Source;
    if s.fifo != [] || !s.daemon.Ready? {
      a := DaemonMoves(s);
      return;
    }
    var pr := s.procs[p];
    var pc := PcOf(s, p, t);
    if Active(pc) {
      a := ActiveMoves(s, p, t);
    } else if pc.Returned? || pc.Turned? {
      a := Finish(p, t);
    } else if pc.Writing? {
      a := Write(p, t);
    } else if pr.gate.None? {
      a := Lock(p, t);
    } else {
      assert ProcOk(s, p);
      var u := pr.gate.value;
      if pr.threads[u].Writing? { a := Write(p, u); } else { a := ActiveMoves(s, p, u); }
    }
  }

  lemma KeepStays<S, C, R>(sv: Service<S, C, R>, s: State<S, C, R>, a: Action<C>, keep: set<(nat, nat)>)
    requires CanKeep(s, keep) && Enabled(s, a) && Internal(a) && forall x :: x in keep ==> !Acts(a, x.0, x.1)
    ensures CanKeep(Apply(sv, s, a), keep)
    ensures forall x :: x in keep ==>
              IsThread(Apply(sv, s, a), x.0, x.1) && PcOf(Apply(sv, s, a), x.0, x.1) == PcOf(s, x.0, x.1)
  {
    hide Enabled, Apply, Acts, Internal;
    forall x | x in keep ensures IsThread(Apply(sv, s, a), x.0, x.1) && PcOf(Apply(sv, s, a), x.0, x.1) == PcOf(s, x.0, x.1) {
      StepBeside(sv, s, a, x.0, x.1, PcOf(s, x.0, x.1));
    }
  }

  /** From every reachable state there is a run in which everything but the threads held back comes to an end. */
  lemma Drain<S, C, R>(sv: Service<S, C, R>, s: State<S, C, R>, keep: set<(nat, nat)>) returns (xs: seq<Action<C>>, s': State<S, C, R>)
    requires Inv(s) && CanKeep(s, keep)
    ensures InnerPath(sv, s, xs, s') && Inv(s') && Drained(s', keep) && CanKeep(s', keep)
    ensures forall x :: x in keep ==> IsThread(s', x.0, x.1) && PcOf(s', x.0, x.1) == PcOf(s, x.0, x.1)
    decreases Work(s)
  {
    hide Inv, Enabled, Apply, Work, Internal, Acts, Drained;
    if Drained(s, keep) {
      Nothing(sv, s);
      return [], s;
    }
    var p, t := NotDrained(s, keep);
    var a := DrainStep(s, keep, p, t);
    WorkDrops(sv, s, a);
    StepKeepsInner(sv, s, a);
    KeepStays(sv, s, a, keep);
    var m := Apply(sv, s, a);
    var ys;
    ys, s' := Drain(sv, m, keep);
    xs := [a] + ys;
    Cons(sv, s, a, ys, s');
    forall x | x in keep ensures IsThread(s', x.0, x.1) && PcOf(s', x.0, x.1) == PcOf(s, x.0, x.1) {
      assert IsThread(m, x.0, x.1) && PcOf(m, x.0, x.1) == PcOf(s, x.0, x.1);
    }
  }

  lemma NotDrained<S, C, R>(s: State<S, C, R>, keep: set<(nat, nat)>) returns (p: nat, t: nat)
    requires !Drained(s, keep)
    ensures s.fifo != [] || !s.daemon.Ready? || (IsThread(s, p, t) && (p, t) !in keep && !PcOf(s, p, t).Idle?)
  {
    if s.fifo == [] && s.daemon.Ready? {
      p, t :| IsThread(s, p, t) && (p, t) !in keep && !PcOf(s, p, t).Idle?;
    } else {
      p, t := 0, 0;
    }
  }

  lemma StepKeepsInner<S, C, R>(sv: Service<S, C, R>, s: State<S, C, R>, a: Action<C>)
    requires Inv(s) && Enabled(s, a) && Internal(a)
    ensures Inv(Apply(sv, s, a))
  {
    hide Inv, Enabled, Apply;
    StepKeeps(sv, s, a);
  }

  lemma Cons<S, C, R>(sv: Service<S, C, R>, s: State<S, C, R>, a: Action<C>, ys: seq<Action<C>>, s': State<S, C, R>)
    requires Enabled(s, a) && Internal(a) && InnerPath(sv, Apply(sv, s, a), ys, s')
    ensures InnerPath(sv, s, [a] + ys, s')
  {
    hide Enabled, Apply;
    assert ([a] + ys)[1..] == ys;
  }
}
