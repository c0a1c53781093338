// Two overlaps of the kind the calling rule excludes, as runs from the start.

module LadOverlap {
  import opened Options
  import opened LadSlots
  import opened LadRpc
  import opened LadInvariant
  import opened LadTheorems
  import opened LadProgress
  import opened LadPaths
  import opened LadRule
  import opened LadRejoin
  import opened LadSecond

  // ----- two threads connect at once -----

  /** Two threads both find no response FIFO and connect. The first is connected. The second opens the first one's FIFO and
    * reads from it forever, with the mutex. */
  lemma SecondConnectHangs<S, C(!new), R>(sv: Service<S, C, R>, s: State<S, C, R>, p: nat, t: nat, u: nat)
    returns (xs: seq<Action<C>>, s': State<S, C, R>)
    requires Init(s) && IsThread(s, p, t) && IsThread(s, p, u) && t != u && s.procs[p].version
    ensures CanRun(sv, s, [Begin(p, u, DoConnect), Begin(p, t, DoConnect)] + xs)
    ensures Run(sv, s, [Begin(p, u, DoConnect), Begin(p, t, DoConnect)] + xs) == s'
    ensures forall a :: a in xs ==> Internal(a)
    ensures Stuck(s') && IsThread(s', p, t) && PcOf(s', p, t).Reading? && s'.procs[p].gate == Some(t)
  {
    hide Inv, Run, CanRun, Stuck, Broken, HandleStep, SlotsOk;
    var pc: Pc<C, R> := WantGate(Join);
    assert Fresh(s.procs[p]) && PcOf(s, p, t).Idle? && PcOf(s, p, u).Idle?;
    InitInv(s);
    var s1 := Apply(sv, s, Begin(p, u, DoConnect));
    StepKeeps(sv, s, Begin(p, u, DoConnect));
    var y1, s2 := Ask(sv, s1, p, u);
    assert Room(s2) by { assert !s2.slots[0].connected; }
    Admit(sv, s2, p);
    InnerIsPath(sv, s1, y1, s2);
    Then(sv, s1, y1, s2, Handle);
    var s3 := HandleStep(sv, s2);
    PathInv(sv, s1, y1 + [Handle], s3);
    assert IsThread(s3, p, u) && PcOf(s3, p, u).Polling?;
    var y2, s4, k := Granted(sv, s3, p, u);
    var y3, s5 := Drain(sv, s4, {});
    StaysPath(sv, s4, y3, s5, p, k);
    Then2(sv, s1, y1 + [Handle], s3, y2, s4);
    var ys := y1 + [Handle] + y2 + y3;
    Then2(sv, s1, y1 + [Handle] + y2, s4, y3, s5);
    PathBeside(sv, s1, ys, s5, p, t, pc);
    var zs;
    zs, s' := AfterGrant(sv, s5, p, t, k);
    Then2(sv, SetPc(s1, p, t, pc), ys, SetPc(s5, p, t, pc), zs, s');
    xs := ys + zs;
    TwoBegins(sv, s, p, u, t, s1, xs);
  }

  lemma TwoBegins<S, C, R>(sv: Service<S, C, R>, s: State<S, C, R>, p: nat, u: nat, t: nat, s1: State<S, C, R>, xs: seq<Action<C>>)
    requires Enabled(s, Begin(p, u, DoConnect)) && s1 == Apply(sv, s, Begin(p, u, DoConnect)) && p !in s1.files
    requires Enabled(s1, Begin(p, t, DoConnect)) && CanRun(sv, SetPc(s1, p, t, WantGate(Join)), xs)
    ensures var run := [Begin(p, u, DoConnect), Begin(p, t, DoConnect)] + xs;
            CanRun(sv, s, run) && Run(sv, s, run) == Run(sv, SetPc(s1, p, t, WantGate(Join)), xs)
  {
    hide Enabled, SetPc;
    var run := [Begin(p, u, DoConnect), Begin(p, t, DoConnect)] + xs;
    assert run[1..] == [Begin(p, t, DoConnect)] + xs;
    assert run[1..][1..] == xs;
  }

  // ----- a call overlaps a disconnect, and another process connects in between -----

  /** What matters of two processes, the first with two threads: their places, mutexes and first entries; the command FIFO,
    * the first slot, and the histories. */
  datatype View<C, R> = View(
    a0: Pc<C, R>, a1: Pc<C, R>, b: Pc<C, R>, ga: Option<nat>, gb: Option<nat>, ia: Info, ib: Info,
    fifo: seq<Cmd<C>>, slot: Slot, pipes: seq<Pipe<R>>, files: map<nat, nat>, daemon: Daemon,
    sent: seq<Sent<C>>, results: seq<Option<R>>)

  ghost predicate InfoAt(info: seq<Info>, first: Info) {
    |info| == MAXNUMCLIENTS && info[0] == first && forall k :: 1 <= k < |info| ==> !info[k].connected
  }

  ghost predicate At<S, C, R>(s: State<S, C, R>, v: View<C, R>) {
    && |s.procs| == 2
    && s.procs[0] == Proc(true, true, s.procs[0].info, v.ga, [v.a0, v.a1]) && InfoAt(s.procs[0].info, v.ia)
    && s.procs[1] == Proc(true, true, s.procs[1].info, v.gb, [v.b]) && InfoAt(s.procs[1].info, v.ib)
    && |s.slots| == MAXNUMCLIENTS && s.slots[0] == v.slot && (forall k :: 1 <= k < |s.slots| ==> !s.slots[k].connected)
    && (v.slot.connected ==> v.slot.pid < 2)
    && s.fifo == v.fifo && s.pipes == v.pipes && s.files == v.files && s.daemon == v.daemon
    && s.sent == v.sent && s.results == v.results && |s.left| == |s.results|
  }

  lemma SweptSame(slots: seq<Slot>, alive: set<nat>)
    requires forall k :: 0 <= k < |slots| && slots[k].connected ==> slots[k].pid in alive
    ensures Swept(slots, |slots|, alive) == slots && Gone(slots, |slots|, alive) == [] && GoneNames(slots, |slots|, alive) == {}
  {
    hide Swept, Gone, GoneNames;
    if Gone(slots, |slots|, alive) != [] { assert Gone(slots, |slots|, alive)[0] in Gone(slots, |slots|, alive); }
  }

  /** Nobody has departed. */
  lemma CleanedAt<S, C, R>(sv: Service<S, C, R>, s: State<S, C, R>, v: View<C, R>)
    requires At(s, v)
    ensures Cleaned(sv, s) == s.(left := s.left + [[]])
  {
    hide Swept, Gone, GoneNames;
    assert 0 in Alive(s) && 1 in Alive(s);
    SweptSame(s.slots, Alive(s));
  }

  /** A run from s to s'. */
  ghost predicate Leads<S, C, R>(sv: Service<S, C, R>, s: State<S, C, R>, xs: seq<Action<C>>, s': State<S, C, R>) {
    CanRun(sv, s, xs) && Run(sv, s, xs) == s'
  }

  lemma More<S, C, R>(sv: Service<S, C, R>, s: State<S, C, R>, xs: seq<Action<C>>, m: State<S, C, R>, a: Action<C>)
    returns (ys: seq<Action<C>>, s': State<S, C, R>)
    requires Leads(sv, s, xs, m) && Enabled(m, a)
    ensures s' == Apply(sv, m, a) && ys == xs + [a] && Leads(sv, s, ys, s')
  {
    hide Enabled, Apply;
    ys, s' := xs + [a], Apply(sv, m, a);
    assert [a][1..] == [];
    assert CanRun(sv, m, [a]) && Run(sv, m, [a]) == Apply(sv, m, a);
    RunAppend(sv, s, xs, [a]);
  }

  /** Process p's thread 0, at the mutex to join, asks; the daemon opens a new FIFO for the first slot. */
  lemma AskAt<S, C, R>(sv: Service<S, C, R>, s0: State<S, C, R>, xs: seq<Action<C>>, s: State<S, C, R>, v: View<C, R>)
    returns (ys: seq<Action<C>>, s': State<S, C, R>)
    requires Leads(sv, s0, xs, s) && At(s, v) && v.a0.Idle? && v.ga.None? && v.files == map[]
    ensures Leads(sv, s0, ys, s')
    ensures At(s', v.(a0 := Polling(|v.sent|), ga := Some(0), fifo := v.fifo + [Connect(0, 0, true)], sent := v.sent + [Sent(0, Connect(0, 0, true))]))
  {
    hide Run, CanRun, WriterOpen, NonePending;
    ys, s' := More(sv, s0, xs, s, Begin(0, 0, DoConnect));
    ys, s' := More(sv, s0, ys, s', Lock(0, 0));
    ys, s' := More(sv, s0, ys, s', Write(0, 0));
  }

  /** The daemon takes a connect request under a name without a file, and gives it the first slot. */
  lemma HandleConnectAt<S, C, R>(sv: Service<S, C, R>, s: State<S, C, R>, v: View<C, R>, n: nat)
    requires At(s, v) && v.fifo != [] && v.fifo[0] == Connect(n, n, true) && v.daemon.Ready? && !v.slot.connected && v.files == map[]
    ensures Enabled(s, Handle)
    ensures At(HandleStep(sv, s), v.(fifo := v.fifo[1..], slot := v.slot.(name := n), pipes := v.pipes + [Pipe(n, [])],
                                     files := map[n := |v.pipes|], daemon := Opening(n, n, |v.pipes|, Some(0), SUCCESS),
                                     results := v.results + [None]))
  {
    hide Cleaned;
    CleanedAt(sv, s, v);
    assert LowestOpen(s.slots, 0) == Some(0);
  }

  lemma HandleDisconnectAt<S, C, R>(sv: Service<S, C, R>, s: State<S, C, R>, v: View<C, R>)
    requires At(s, v) && v.fifo != [] && v.fifo[0] == Disconnect(0) && v.daemon.Ready?
    ensures Enabled(s, Handle)
    ensures At(HandleStep(sv, s), v.(fifo := v.fifo[1..], slot := v.slot.(connected := false), files := v.files - {v.slot.name},
                                     results := v.results + [None]))
  {
    hide Cleaned;
    CleanedAt(sv, s, v);
  }

  lemma HandleCallAt<S, C, R>(sv: Service<S, C, R>, s: State<S, C, R>, v: View<C, R>, c: C) returns (r: R)
    requires At(s, v) && v.fifo != [] && v.fifo[0] == Call(0, c) && v.daemon.Ready? && v.slot.connected && v.slot.pipe < |v.pipes|
    ensures Enabled(s, Handle)
    ensures var i := v.slot.pipe;
            At(HandleStep(sv, s), v.(fifo := v.fifo[1..], results := v.results + [Some(r)],
                                     pipes := v.pipes[i := v.pipes[i].(data := v.pipes[i].data + [Value(r)])]))
  {
    hide Cleaned;
    CleanedAt(sv, s, v);
    r := sv.exec(s.srv, c, v.slot.pid).1;
  }

  lemma Start<S, C, R>(sv: Service<S, C, R>, s: State<S, C, R>)
    ensures Leads(sv, s, [], s)
  {
  }

  lemma FirstOpens<S, C, R>(sv: Service<S, C, R>, s: State<S, C, R>, v: View<C, R>)
    requires At(s, v) && v.a0.Polling? && v.pipes == [Pipe(0, [])]
    requires v.daemon == Opening(0, 0, 0, Some(0), SUCCESS) && v.slot.name == 0
    ensures Enabled(s, Open(0, 0))
    ensures At(OpenStep(s, 0, 0), v.(a0 := Reading(v.a0.id, 0), slot := Slot(true, 0, 0, 0), daemon := Ready,
                                     pipes := [Pipe(0, [Status(SUCCESS, Some(0))])]))
  {
    assert OpenStep(s, 0, 0).pipes[0].data == [Status(SUCCESS, Some(0))];
  }

  lemma FirstReads<S, C, R>(sv: Service<S, C, R>, s: State<S, C, R>, v: View<C, R>)
    requires At(s, v) && v.a0.Reading? && v.a0.pipe == 0 && v.pipes == [Pipe(0, [Status(SUCCESS, Some(0))])]
    ensures Enabled(s, Read(0, 0))
    ensures At(ReadStep(s, 0, 0), v.(a0 := Returned(Join, v.a0.id, Status(SUCCESS, Some(0))), ga := None, pipes := [Pipe(0, [])],
                                     ia := Info(true, true, 0)))
  {
    hide WriterOpen;
    assert ReadStep(s, 0, 0).pipes[0].data == [];
  }

  lemma FirstFinishes<S, C, R>(sv: Service<S, C, R>, s: State<S, C, R>, v: View<C, R>)
    requires At(s, v) && v.a0.Returned?
    ensures Enabled(s, Finish(0, 0)) && At(Apply(sv, s, Finish(0, 0)), v.(a0 := Idle))
  {
  }

  /** The first process connects. */
  lemma FirstConnects<S, C, R>(sv: Service<S, C, R>, s: State<S, C, R>, v: View<C, R>)
    returns (xs: seq<Action<C>>, s': State<S, C, R>, v': View<C, R>)
    requires At(s, v) && v.a0.Idle? && v.ga.None? && v.files == map[] && v.fifo == [] && v.sent == [] && v.results == []
    requires v.daemon.Ready? && v.pipes == [] && !v.slot.connected
    ensures Leads(sv, s, xs, s') && At(s', v')
    ensures v' == v.(slot := Slot(true, 0, 0, 0), pipes := [Pipe(0, [])], files := map[0 := 0], ia := Info(true, true, 0),
                     sent := [Sent(0, Connect(0, 0, true))], results := [None])
  {
    hide Run, CanRun, WriterOpen, NonePending, HandleStep, CanHandle, At, OpenStep, ReadStep, Enabled;
    Start(sv, s);
    xs, s' := AskAt(sv, s, [], s, v);
    v' := v.(a0 := Polling(|v.sent|), ga := Some(0), fifo := v.fifo + [Connect(0, 0, true)], sent := v.sent + [Sent(0, Connect(0, 0, true))]);
    HandleConnectAt(sv, s', v', 0);
    xs, s' := More(sv, s, xs, s', Handle);
    v' := v'.(fifo := v'.fifo[1..], slot := v'.slot.(name := 0), pipes := v'.pipes + [Pipe(0, [])],
              files := map[0 := |v'.pipes|], daemon := Opening(0, 0, |v'.pipes|, Some(0), SUCCESS), results := v'.results + [None]);
    FirstOpens(sv, s', v');
    xs, s' := More(sv, s, xs, s', Open(0, 0));
    v' := v'.(a0 := Reading(v'.a0.id, 0), slot := Slot(true, 0, 0, 0), daemon := Ready, pipes := [Pipe(0, [Status(SUCCESS, Some(0))])]);
    FirstReads(sv, s', v');
    xs, s' := More(sv, s, xs, s', Read(0, 0));
    v' := v'.(a0 := Returned(Join, v'.a0.id, Status(SUCCESS, Some(0))), ga := None, pipes := [Pipe(0, [])], ia := Info(true, true, 0));
    FirstFinishes(sv, s', v');
    xs, s' := More(sv, s, xs, s', Finish(0, 0));
    v' := v'.(a0 := Idle);
  }

  /** One of its threads is past LAD_findHandle; the other disconnects as far as releasing the mutex. */
  lemma Overlaps<S, C, R>(sv: Service<S, C, R>, s0: State<S, C, R>, xs: seq<Action<C>>, s: State<S, C, R>, v: View<C, R>, c: C)
    returns (ys: seq<Action<C>>, s': State<S, C, R>)
    requires Leads(sv, s0, xs, s) && At(s, v) && v.a0.Idle? && v.a1.Idle? && v.ga.None? && v.ia == Info(true, true, 0)
    ensures Leads(sv, s0, ys, s')
    ensures At(s', v.(a0 := Vanishing(0, |v.sent|), a1 := WantGate(Invoke(0, c)), ia := Info(true, false, 0),
                      fifo := v.fifo + [Disconnect(0)], sent := v.sent + [Sent(0, Disconnect(0))]))
  {
    hide Run, CanRun, WriterOpen, NonePending;
    ys, s' := More(sv, s0, xs, s, Begin(0, 1, DoCall(c)));
    ys, s' := More(sv, s0, ys, s', Begin(0, 0, DoDisconnect(0)));
    assert At(s', v.(a0 := WantGate(Leave(0)), a1 := WantGate(Invoke(0, c))));
    var m := s';
    ys, s' := More(sv, s0, ys, s', Lock(0, 0));
    ys, s' := More(sv, s0, ys, s', Write(0, 0));
    ys, s' := More(sv, s0, ys, s', Close(0, 0));
  }

  /** The second process asks to be connected. */
  lemma SecondAsks<S, C, R>(sv: Service<S, C, R>, s0: State<S, C, R>, xs: seq<Action<C>>, s: State<S, C, R>, v: View<C, R>)
    returns (ys: seq<Action<C>>, s': State<S, C, R>)
    requires Leads(sv, s0, xs, s) && At(s, v) && v.b.Idle? && v.gb.None? && 1 !in v.files
    ensures Leads(sv, s0, ys, s')
    ensures At(s', v.(b := Polling(|v.sent|), gb := Some(0), fifo := v.fifo + [Connect(1, 1, true)],
                      sent := v.sent + [Sent(1, Connect(1, 1, true))]))
  {
    hide Run, CanRun, WriterOpen, NonePending;
    ys, s' := More(sv, s0, xs, s, Begin(1, 0, DoConnect));
    ys, s' := More(sv, s0, ys, s', Lock(1, 0));
    ys, s' := More(sv, s0, ys, s', Write(1, 0));
  }

  /** Then the first one's call is written. */
  lemma CallWritten<S, C, R>(sv: Service<S, C, R>, s0: State<S, C, R>, xs: seq<Action<C>>, s: State<S, C, R>, v: View<C, R>, c: C)
    returns (ys: seq<Action<C>>, s': State<S, C, R>)
    requires Leads(sv, s0, xs, s) && At(s, v) && v.ga.None? && v.a1 == WantGate(Invoke(0, c))
    ensures Leads(sv, s0, ys, s')
    ensures At(s', v.(a1 := Waiting(0, c, |v.sent|), ga := Some(1), fifo := v.fifo + [Call(0, c)], sent := v.sent + [Sent(0, Call(0, c))]))
  {
    hide Run, CanRun, WriterOpen, NonePending;
    ys, s' := More(sv, s0, xs, s, Lock(0, 1));
    ys, s' := More(sv, s0, ys, s', Write(0, 1));
  }

  /** The second process's FIFO is opened, and it is told its slot. */
  lemma SecondOpens<S, C, R>(sv: Service<S, C, R>, s: State<S, C, R>, v: View<C, R>)
    requires At(s, v) && v.b.Polling? && |v.pipes| == 2 && v.pipes[1] == Pipe(1, [])
    requires v.daemon == Opening(1, 1, 1, Some(0), SUCCESS) && v.slot.name == 1
    ensures Enabled(s, Open(1, 0))
    ensures At(OpenStep(s, 1, 0), v.(b := Reading(v.b.id, 1), slot := Slot(true, 1, 1, 1), daemon := Ready,
                                     pipes := [v.pipes[0], Pipe(1, [Status(SUCCESS, Some(0))])]))
  {
    assert OpenStep(s, 1, 0).pipes[1].data == [Status(SUCCESS, Some(0))];
    assert OpenStep(s, 1, 0).pipes == [v.pipes[0], Pipe(1, [Status(SUCCESS, Some(0))])];
  }

  /** The second process reads that it is connected, and calls: what it reads is what lies in its FIFO. */
  lemma SecondCalls<S, C, R>(sv: Service<S, C, R>, s0: State<S, C, R>, xs: seq<Action<C>>, s: State<S, C, R>, v: View<C, R>, d: C, r: R)
    returns (ys: seq<Action<C>>, s': State<S, C, R>)
    requires Leads(sv, s0, xs, s) && At(s, v) && v.b.Reading? && v.b.pipe == 1 && |v.pipes| == 2
    requires v.pipes[1] == Pipe(1, [Status(SUCCESS, Some(0)), Value(r)])
    ensures Leads(sv, s0, ys, s') && |s'.procs| == 2 && s'.procs[1].threads == [Returned(Invoke(0, d), |v.sent|, Value(r))]
    ensures s'.sent == v.sent + [Sent(1, Call(0, d))] && s'.results == v.results && |s'.left| == |v.results| && s'.procs[1].alive
  {
    hide Run, CanRun, WriterOpen, NonePending;
    ys, s' := More(sv, s0, xs, s, Read(1, 0));
    ys, s' := More(sv, s0, ys, s', Finish(1, 0));
    assert At(s', v.(b := Idle, gb := None, ib := Info(true, true, 1), pipes := [v.pipes[0], Pipe(1, [Value(r)])]));
    ys, s' := CallsAt(sv, s0, ys, s', v.(b := Idle, gb := None, ib := Info(true, true, 1), pipes := [v.pipes[0], Pipe(1, [Value(r)])]), d, r);
  }

  lemma CallsAt<S, C, R>(sv: Service<S, C, R>, s0: State<S, C, R>, xs: seq<Action<C>>, s: State<S, C, R>, v: View<C, R>, d: C, r: R)
    returns (ys: seq<Action<C>>, s': State<S, C, R>)
    requires Leads(sv, s0, xs, s) && At(s, v) && v.b.Idle? && v.gb.None? && v.ib == Info(true, true, 1)
    requires |v.pipes| == 2 && v.pipes[1] == Pipe(1, [Value(r)])
    ensures Leads(sv, s0, ys, s') && |s'.procs| == 2 && s'.procs[1].threads == [Returned(Invoke(0, d), |v.sent|, Value(r))]
    ensures s'.sent == v.sent + [Sent(1, Call(0, d))] && s'.results == v.results && |s'.left| == |v.results| && s'.procs[1].alive
  {
    hide Run, CanRun, WriterOpen, NonePending;
    ys, s' := More(sv, s0, xs, s, Begin(1, 0, DoCall(d)));
    assert At(s', v.(b := WantGate(Invoke(0, d))));
    ys, s' := More(sv, s0, ys, s', Lock(1, 0));
    ys, s' := More(sv, s0, ys, s', Write(1, 0));
    ys, s' := More(sv, s0, ys, s', Read(1, 0));
  }

  /** A call that is past LAD_findHandle when another thread of its process disconnects can have its result written to
    * another process: that one connects in between, is given the same slot, and then its own call, whatever it is,
    * returns with the result of the first process's call, before the daemon has even taken its command. */
  lemma ResultGoesAstray<S, C, R>(sv: Service<S, C, R>, s: State<S, C, R>, c: C, d: C)
    returns (xs: seq<Action<C>>, s': State<S, C, R>, r: R)
    requires Init(s) && |s.procs| == 2 && |s.procs[0].threads| == 2 && |s.procs[1].threads| == 1
    requires s.procs[0].version && s.procs[1].version
    ensures CanRun(sv, s, xs) && Run(sv, s, xs) == s'
    ensures IsThread(s', 1, 0) && PcOf(s', 1, 0) == Returned(Invoke(0, d), 4, Value(r))
    ensures |s'.sent| == 5 && s'.sent[4] == Sent(1, Call(0, d)) && |s'.left| == 4
    ensures s'.sent[3] == Sent(0, Call(0, c)) && |s'.results| == 4 && s'.results[3] == Some(r)
  {
    hide Run, CanRun, At, HandleStep, CanHandle, OpenStep, Enabled;
    var v := StartAt(s);
    var m, v1;
    xs, m, v1 := FirstConnects(sv, s, v);
    xs, m := Overlaps(sv, s, xs, m, v1, c);
    v1 := v1.(a0 := Vanishing(0, |v1.sent|), a1 := WantGate(Invoke(0, c)), ia := Info(true, false, 0),
              fifo := v1.fifo + [Disconnect(0)], sent := v1.sent + [Sent(0, Disconnect(0))]);
    xs, m := SecondAsks(sv, s, xs, m, v1);
    v1 := v1.(b := Polling(|v1.sent|), gb := Some(0), fifo := v1.fifo + [Connect(1, 1, true)], sent := v1.sent + [Sent(1, Connect(1, 1, true))]);
    xs, m := CallWritten(sv, s, xs, m, v1, c);
    v1 := v1.(a1 := Waiting(0, c, |v1.sent|), ga := Some(1), fifo := v1.fifo + [Call(0, c)], sent := v1.sent + [Sent(0, Call(0, c))]);
    HandleDisconnectAt(sv, m, v1);
    xs, m := More(sv, s, xs, m, Handle);
    v1 := v1.(fifo := v1.fifo[1..], slot := v1.slot.(connected := false), files := v1.files - {v1.slot.name}, results := v1.results + [None]);
    HandleConnectAt(sv, m, v1, 1);
    xs, m := More(sv, s, xs, m, Handle);
    v1 := v1.(fifo := v1.fifo[1..], slot := v1.slot.(name := 1), pipes := v1.pipes + [Pipe(1, [])],
              files := map[1 := |v1.pipes|], daemon := Opening(1, 1, |v1.pipes|, Some(0), SUCCESS), results := v1.results + [None]);
    SecondOpens(sv, m, v1);
    xs, m := More(sv, s, xs, m, Open(1, 0));
    v1 := v1.(b := Reading(v1.b.id, 1), slot := Slot(true, 1, 1, 1), daemon := Ready,
              pipes := [v1.pipes[0], Pipe(1, [Status(SUCCESS, Some(0))])]);
    r := HandleCallAt(sv, m, v1, c);
    xs, m := More(sv, s, xs, m, Handle);
    v1 := v1.(fifo := v1.fifo[1..], results := v1.results + [Some(r)],
              pipes := v1.pipes[1 := v1.pipes[1].(data := v1.pipes[1].data + [Value(r)])]);
    xs, s' := SecondCalls(sv, s, xs, m, v1, d, r);
  }

  lemma StartAt<S, C, R>(s: State<S, C, R>) returns (v: View<C, R>)
    requires Init(s) && |s.procs| == 2 && |s.procs[0].threads| == 2 && |s.procs[1].threads| == 1
    requires s.procs[0].version && s.procs[1].version
    ensures At(s, v) && v.a0.Idle? && v.a1.Idle? && v.b.Idle? && v.ga.None? && v.gb.None? && v.files == map[] && v.fifo == []
    ensures v.sent == [] && v.results == [] && v.daemon.Ready? && v.pipes == [] && !v.slot.connected
  {
    assert Fresh(s.procs[0]) && Fresh(s.procs[1]);
    v := View(Idle, Idle, Idle, None, None, s.procs[0].info[0], s.procs[1].info[0], [], s.slots[0], [], map[], Ready, [], []);
  }
}
