// Every call returns: the steps between a call and its return are bounded in
// number, and one of them can be taken until all threads are idle.

module LadProgress {
  import opened Bags
  import opened Options
  import opened LadSlots
  import opened LadRpc
  import opened LadInvariant
  import opened LadDaemon
  import opened LadTheorems

  // ----- a bound on the steps left -----

  function PcWork<C, R>(pc: Pc<C, R>, u: ()): nat {
    match pc
    case Idle => 0
    case WantGate(_) => 9
    case Writing(_) => 8
    case Waiting(_, _, _) => 3
    case Polling(_) => 4
    case Reading(_, _) => 3
    case Closing(_, _) => 3
    case Vanishing(_, _) => 2
    case Returned(_, _, _) => 1
    case Turned(_) => 1
  }

  function ProcWork<C, R>(pr: Proc<C, R>, u: ()): nat { Count(pr.threads, PcWork, ()) }

  function DaemonWork(d: Daemon): nat {
    match d
    case Ready => 0
    case Opening(_, _, _, _, _) => 2
    case Refusing(_, _) => 1
  }

  function Work<S, C, R>(s: State<S, C, R>): nat {
    Count(s.procs, ProcWork, ()) + 3 * |s.fifo| + DaemonWork(s.daemon)
  }

  /** A step that starts no call and ends no process. */
  predicate Internal<C>(a: Action<C>) { !a.Begin? && !a.Die? }

  /** Setting thread t's position exchanges its share of the work. */
  lemma MoveWork<C, R>(procs: seq<Proc<C, R>>, p: nat, t: nat, pr': Proc<C, R>)
    requires p < |procs| && t < |procs[p].threads| == |pr'.threads| && pr'.threads == procs[p].threads[t := pr'.threads[t]]
    ensures Count(procs[p := pr'], ProcWork, ()) + PcWork(procs[p].threads[t], ())
         == Count(procs, ProcWork, ()) + PcWork(pr'.threads[t], ())
  {
    hide Count;
    CountUpdate(procs, p, pr', ProcWork, ());
    CountUpdate(procs[p].threads, t, pr'.threads[t], PcWork, ());
  }

  lemma HandleDrops<S, C, R>(sv: Service<S, C, R>, s: State<S, C, R>)
    requires Enabled(s, Handle)
    ensures Work(HandleStep(sv, s)) < Work(s)
  {
    hide Count, CleanAll, Swept, Gone, GoneNames, Named, Taken;
  }

  lemma ReadDrops<S, C, R>(s: State<S, C, R>, p: nat, t: nat)
    requires Enabled(s, Read(p, t))
    ensures Work(ReadStep(s, p, t)) < Work(s)
  {
    hide Count, CanHandle, Taken, NonePending, WriterOpen;
    var s' := ReadStep(s, p, t);
    MoveWork(s.procs, p, t, s'.procs[p]);
    assert s'.procs == s.procs[p := s'.procs[p]];
  }

  lemma TalkDrops<S, C, R>(sv: Service<S, C, R>, s: State<S, C, R>, a: Action<C>)
    requires Enabled(s, a) && (a.Write? || a.Open? || a.Reopen?)
    ensures Work(Apply(sv, s, a)) < Work(s)
  {
    hide Count, HandleStep, ReadStep, CloseStep, VanishStep, CanHandle, Taken, NonePending, Entry, WriterOpen;
    var s' := Apply(sv, s, a);
    MoveWork(s.procs, a.p, a.t, s'.procs[a.p]);
    assert s'.procs == s.procs[a.p := s'.procs[a.p]];
  }

  lemma MoveDrops<S, C, R>(sv: Service<S, C, R>, s: State<S, C, R>, a: Action<C>)
    requires Enabled(s, a) && (a.Lock? || a.Close? || a.Vanish? || a.Finish?)
    ensures Work(Apply(sv, s, a)) < Work(s)
  {
    hide Count, HandleStep, CanHandle, WriteStep, ReadStep, OpenStep, NonePending, Entry, WriterOpen;
    var s' := Apply(sv, s, a);
    MoveWork(s.procs, a.p, a.t, s'.procs[a.p]);
    assert s'.procs == s.procs[a.p := s'.procs[a.p]];
  }

  lemma WorkDrops<S, C, R>(sv: Service<S, C, R>, s: State<S, C, R>, a: Action<C>)
    requires Enabled(s, a) && Internal(a)
    ensures Work(Apply(sv, s, a)) < Work(s)
  {
    hide Count, HandleStep, WriteStep, ReadStep, OpenStep, CloseStep, VanishStep, SetPc, SetGate, CanHandle, NonePending, Entry, WriterOpen;
    if a.Handle? { HandleDrops(sv, s); }
    else if a.Refuse? {}
    else if a.Read? { ReadDrops(s, a.p, a.t); }
    else if a.Write? || a.Open? || a.Reopen? { TalkDrops(sv, s, a); }
    else { MoveDrops(sv, s, a); }
  }

  lemma {:induction false} InternalRunsEnd<S, C, R>(sv: Service<S, C, R>, s: State<S, C, R>, actions: seq<Action<C>>)
    requires CanRun(sv, s, actions) && forall a :: a in actions ==> Internal(a)
    ensures |actions| <= Work(s)
    decreases |actions|
  {
    hide Enabled, Apply, Work, Internal;
    if actions != [] {
      assert actions[0] in actions;
      WorkDrops(sv, s, actions[0]);
      InternalRunsEnd(sv, Apply(sv, s, actions[0]), actions[1..]);
    }
  }

  /** The rule is about beginnings only. */
  lemma {:induction false} InternalObeys<S, C, R>(sv: Service<S, C, R>, s: State<S, C, R>, actions: seq<Action<C>>)
    requires CanRun(sv, s, actions) && forall a :: a in actions ==> !a.Begin?
    ensures Obeys(sv, s, actions)
    decreases |actions|
  {
    hide Enabled, Apply;
    if actions != [] {
      assert actions[0] in actions;
      InternalObeys(sv, Apply(sv, s, actions[0]), actions[1..]);
    }
  }

  // ----- a step can be taken -----

  lemma DaemonMoves<S, C, R>(s: State<S, C, R>) returns (a: Action<C>)
    requires Inv(s) && (s.fifo != [] || !s.daemon.Ready?)
    ensures Enabled(s, a) && (a.Open? || a.Handle? || a.Refuse?)
  {
    hide Inv;
    if s.daemon.Opening? {
      var t := OpensPolling(s);
      a := Open(s.daemon.name, t);
    } else if s.daemon.Refusing? {
      a := Refuse;
    } else {
      var p, t := Front(s);
      a := Handle;
    }
  }

  /** With the daemon at rest, a thread with a command under way can go on by itself. */
  lemma ActiveMoves<S, C, R>(s: State<S, C, R>, p: nat, t: nat) returns (a: Action<C>)
    requires Inv(s) && IsThread(s, p, t) && Active(PcOf(s, p, t)) && s.fifo == [] && s.daemon.Ready?
    ensures Enabled(s, a) && (a == Close(p, t) || a == Vanish(p, t) || a == Read(p, t))
    ensures a.Vanish? ==> PcOf(s, p, t).Vanishing?
  {
    hide SlotsOk, NameFree, Under, NonePending, PairsOk, InfoOk;
    var pc := PcOf(s, p, t);
    var pr := s.procs[p];
    assert ProcOk(s, p) && ThreadOk(s, p, pr.info, pr.version, pc) && PcFits(pr.info, pc);
    a := if pc.Closing? then Close(p, t) else if pc.Vanishing? then Vanish(p, t) else Read(p, t);
  }

  lemma CanStep<S, C, R>(s: State<S, C, R>, p: nat, t: nat) returns (a: Action<C>)
    requires Inv(s) && IsThread(s, p, t) && !PcOf(s, p, t).Idle?
    ensures Enabled(s, a) && Internal(a)
  {
    hide SlotsOk, FilesOk, PipesOk, LocalOk, ThreadsOk, Quiet, NonePending, CanHandle, DaemonOk, WriterOpen, Source;
    var pr := s.procs[p];
    var pc := PcOf(s, p, t);
    if s.fifo != [] || !s.daemon.Ready? {
      a := DaemonMoves(s);
    } else if Active(pc) {
      a := ActiveMoves(s, p, t);
    } else if pc.Returned? || pc.Turned? {
      a := Finish(p, t);
    } else if pc.Writing? {
      a := Write(p, t);
    } else if pr.gate.None? {
      a := Lock(p, t);
    } else {
      assert ProcOk(s, p);
      var u := pr.gate.value;
      if pr.threads[u].Writing? { a := Write(p, u); } else { a := ActiveMoves(s, p, u); }
    }
  }

  /** Nothing is under way. */
  ghost predicate AtRest<S, C, R>(s: State<S, C, R>) {
    s.fifo == [] && s.daemon.Ready? && forall p: nat, t: nat :: IsThread(s, p, t) ==> PcOf(s, p, t).Idle?
  }

  /** No step is left that does not begin a call or end a process. */
  ghost predicate Stuck<S, C(!new), R>(s: State<S, C, R>) {
    forall a: Action<C> :: Internal(a) ==> !Enabled(s, a)
  }

  lemma StuckAtRest<S, C(!new), R>(s: State<S, C, R>)
    requires Inv(s) && Stuck(s)
    ensures AtRest(s)
  {
    hide Inv, Enabled, IsThread;
    if s.fifo != [] || !s.daemon.Ready? { var a := DaemonMoves(s); }
    forall p: nat, t: nat | IsThread(s, p, t) ensures PcOf(s, p, t).Idle? {
      if !PcOf(s, p, t).Idle? { var a := CanStep(s, p, t); }
    }
  }

  /** Every started call returns: from any reachable state, if no more calls are started and no process dies, there are at
    * most Work(s) steps, and where no further step can be taken every thread of every live process is idle, the command
    * FIFO is empty, and the daemon waits for a command. */
  lemma EveryCallReturns<S, C(!new), R>(sv: Service<S, C, R>, s0: State<S, C, R>, before: seq<Action<C>>, actions: seq<Action<C>>)
    requires Init(s0) && Obeys(sv, s0, before)
    requires CanRun(sv, Run(sv, s0, before), actions) && forall a :: a in actions ==> Internal(a)
    ensures |actions| <= Work(Run(sv, s0, before))
    ensures var s := Run(sv, Run(sv, s0, before), actions); Stuck(s) ==> AtRest(s)
  {
    hide Inv, CanRun, Obeys, Run, Work, Stuck, AtRest;
    Reachable(sv, s0, before);
    var s1 := Run(sv, s0, before);
    InternalObeys(sv, s1, actions);
    RunInv(sv, s1, actions);
    InternalRunsEnd(sv, s1, actions);
    var s := Run(sv, s1, actions);
    if Stuck(s) { StuckAtRest(s); }
  }
}
