// The calling rule is exact. Where every process keeps it nothing breaks; and
// from every state reached by the rule, every beginning against it can be
// followed by a run, with no further beginning, in which something breaks.

module LadRule {
  import opened Options
  import opened LadSlots
  import opened LadRpc
  import opened LadInvariant
  import opened LadSteps
  import opened LadDaemon
  import opened LadTheorems
  import opened LadProgress
  import opened LadPaths

  /** Code has used a file it had closed; or a connect or call has failed to get its answer; or something under way can
    * never come to its end. */
  ghost predicate Broken<S, C(!new), R>(s: State<S, C, R>) {
    || s.undefined
    || (exists p: nat, t: nat :: IsThread(s, p, t) && Failed(PcOf(s, p, t)))
    || (Stuck(s) && !AtRest(s))
  }

  ghost predicate Failed<C, R>(pc: Pc<C, R>) { pc.Returned? && pc.answer == Status(IOFAILURE, None) }

  /** With the rule kept nothing is broken. */
  lemma InvNotBroken<S, C(!new), R>(s: State<S, C, R>)
    requires Inv(s)
    ensures !Broken(s)
  {
    hide Stuck, AtRest, SlotsOk, FilesOk, PipesOk, DaemonOk, GateOk, LocalOk, Quiet;
    forall p: nat, t: nat | IsThread(s, p, t) ensures !Failed(PcOf(s, p, t)) {
      var pr := s.procs[p];
      assert ProcOk(s, p) && ThreadOk(s, p, pr.info, pr.version, pr.threads[t]);
    }
    if Stuck(s) { StuckAtRest(s); }
  }

  // ----- a call or disconnect behind a disconnect -----

  /** Nothing but thread t's place and process p's mutex and entry k differ. */
  ghost predicate OnlyThread<S, C, R>(s: State<S, C, R>, s': State<S, C, R>, p: nat, t: nat) {
    && IsThread(s, p, t) && IsThread(s', p, t)
    && s'.procs[p].threads == s.procs[p].threads[t := s'.procs[p].threads[t]]
    && |s'.procs[p].info| == |s.procs[p].info|
  }

  /** A thread in LAD_disconnect goes on until it has closed the response FIFO. */
  lemma LeaverCloses<S, C, R>(sv: Service<S, C, R>, s: State<S, C, R>, p: nat, v: nat, k: nat) returns (xs: seq<Action<C>>, s': State<S, C, R>)
    requires IsThread(s, p, v) && k < |s.procs[p].info|
    requires var pc := PcOf(s, p, v);
             || (pc == WantGate(Leave(k)) && s.procs[p].gate.None?)
             || pc == Writing(Leave(k))
             || (pc.Closing? && pc.k == k)
    ensures InnerPath(sv, s, xs, s') && OnlyThread(s, s', p, v)
    ensures !s'.procs[p].info[k].open && s'.procs[p].gate.None?
    decreases if PcOf(s, p, v).WantGate? then 2 else if PcOf(s, p, v).Writing? then 1 else 0
  {
    hide WriterOpen, NonePending, Run, CanRun;
    Nothing(sv, s);
    if PcOf(s, p, v).Closing? {
      xs, s' := Step(sv, s, [], s, Close(p, v));
    } else {
      var a := if PcOf(s, p, v).WantGate? then Lock(p, v) else Write(p, v);
      var m := Apply(sv, s, a);
      xs, s' := LeaverCloses(sv, m, p, v, k);
      Cons(sv, s, a, xs, s');
      xs := [a] + xs;
    }
  }

  lemma Step<S, C, R>(sv: Service<S, C, R>, s: State<S, C, R>, xs: seq<Action<C>>, m: State<S, C, R>, a: Action<C>)
    returns (ys: seq<Action<C>>, s': State<S, C, R>)
    requires InnerPath(sv, s, xs, m) && Enabled(m, a) && Internal(a)
    ensures s' == Apply(sv, m, a) && InnerPath(sv, s, ys, s')
  {
    hide Enabled, Apply;
    ys, s' := xs + [a], Apply(sv, m, a);
    Then(sv, s, xs, m, a);
  }

  /** A call behind a closed response FIFO reads from a closed file. */
  lemma LateCall<S, C, R>(sv: Service<S, C, R>, s: State<S, C, R>, p: nat, t: nat, k: nat, c: C) returns (xs: seq<Action<C>>, s': State<S, C, R>)
    requires IsThread(s, p, t) && PcOf(s, p, t) == WantGate(Invoke(k, c)) && s.procs[p].gate.None?
    requires k < |s.procs[p].info| && !s.procs[p].info[k].open
    ensures InnerPath(sv, s, xs, s') && s'.undefined
  {
    hide WriterOpen, NonePending;
    Nothing(sv, s);
    xs, s' := Step(sv, s, [], s, Lock(p, t));
    xs, s' := Step(sv, s, xs, s', Write(p, t));
    xs, s' := Step(sv, s, xs, s', Read(p, t));
  }

  /** A second disconnect closes the file again. */
  lemma LateLeave<S, C, R>(sv: Service<S, C, R>, s: State<S, C, R>, p: nat, t: nat, k: nat) returns (xs: seq<Action<C>>, s': State<S, C, R>)
    requires IsThread(s, p, t) && PcOf(s, p, t) == WantGate(Leave(k)) && s.procs[p].gate.None?
    requires k < |s.procs[p].info| && !s.procs[p].info[k].open
    ensures InnerPath(sv, s, xs, s') && s'.undefined
  {
    hide WriterOpen, NonePending;
    Nothing(sv, s);
    xs, s' := Step(sv, s, [], s, Lock(p, t));
    xs, s' := Step(sv, s, xs, s', Write(p, t));
    xs, s' := Step(sv, s, xs, s', Close(p, t));
  }

  /** Threads of one process that are past the same kind of check name the same entry. */
  lemma SameEntry(info: seq<Info>, version: bool, j: nat, k: nat)
    requires InfoOk(info, version) && j < |info| && k < |info| && info[j].connected && info[k].connected
    ensures j == k
  {
  }

  lemma NobodyHolds<S, C, R>(s: State<S, C, R>, p: nat, v: nat)
    requires Inv(s) && IsThread(s, p, v) && !Holds(PcOf(s, p, v))
    requires PcOf(s, p, v).Vanishing? || Drained(s, {(p, v)})
    ensures s.procs[p].gate.None?
  {
    var pr := s.procs[p];
    assert ProcOk(s, p);
    if pr.gate.Some? && PcOf(s, p, v).Vanishing? { OthersPlain(pr, v, pr.gate.value); }
    assert pr.gate.Some? ==> IsThread(s, p, pr.gate.value);
  }

  /** Until thread v, at the mutex, is the next to get it. */
  lemma Clear<S, C, R>(sv: Service<S, C, R>, s: State<S, C, R>, p: nat, v: nat) returns (xs: seq<Action<C>>, s': State<S, C, R>)
    requires Inv(s) && IsThread(s, p, v) && PcOf(s, p, v).WantGate?
    ensures InnerPath(sv, s, xs, s') && Inv(s') && Drained(s', {(p, v)})
    ensures IsThread(s', p, v) && PcOf(s', p, v) == PcOf(s, p, v) && s'.procs[p].gate.None?
  {
    hide Inv, Run, CanRun, Drained;
    var keep := {(p, v)};
    assert CanKeep(s, keep);
    xs, s' := Drain(sv, s, keep);
    assert (p, v) in keep;
    NobodyHolds(s', p, v);
  }

  /** A call or a disconnect begun while thread v is leaving comes behind the closing of the file. */
  lemma BehindLeaver<S, C, R>(sv: Service<S, C, R>, s: State<S, C, R>, p: nat, t: nat, op: Op<C>, v: nat)
    returns (xs: seq<Action<C>>, s': State<S, C, R>)
    requires Inv(s) && IsThread(s, p, t) && PcOf(s, p, t).Idle? && IsThread(s, p, v) && Leaves(PcOf(s, p, v))
    requires !op.Join? && op.k < |s.procs[p].info| && s.procs[p].info[op.k].connected
    ensures InnerPath(sv, SetPc(s, p, t, WantGate(op)), xs, s') && s'.undefined
  {
    hide Run, CanRun, Inv, SetPc, Drained, InfoOk, Apply, Enabled;
    var k := op.k;
    LeaverAt(s, p, v, k);
    var ys, m := [], s;
    Nothing(sv, s);
    if PcOf(s, p, v).WantGate? { ys, m := Clear(sv, s, p, v); }
    PathBeside(sv, s, ys, m, p, t, WantGate(op));
    LeaverFits(m, p, v, k);
    var w := SetPc(m, p, t, WantGate(op));
    BesidePc(m, p, t, WantGate(op), v);
    var zs, w1 := [], w;
    Nothing(sv, w);
    if !PcOf(m, p, v).Vanishing? { zs, w1 := LeaverCloses(sv, w, p, v, k); } else { NobodyHolds(m, p, v); }
    var last;
    if op.Invoke? { last, s' := LateCall(sv, w1, p, t, k, op.c); } else { last, s' := LateLeave(sv, w1, p, t, k); }
    Then2(sv, SetPc(s, p, t, WantGate(op)), ys, w, zs, w1);
    Then2(sv, SetPc(s, p, t, WantGate(op)), ys + zs, w1, last, s');
    xs := ys + zs + last;
  }

  lemma Then2<S, C, R>(sv: Service<S, C, R>, s: State<S, C, R>, xs: seq<Action<C>>, m: State<S, C, R>, ys: seq<Action<C>>, s': State<S, C, R>)
    requires InnerPath(sv, s, xs, m) && InnerPath(sv, m, ys, s')
    ensures InnerPath(sv, s, xs + ys, s')
  {
    hide Run, CanRun;
    InnerIsPath(sv, s, xs, m);
    InnerIsPath(sv, m, ys, s');
    Join2(sv, s, xs, m, ys, s');
  }

  lemma BesidePc<S, C, R>(s: State<S, C, R>, p: nat, t: nat, pc: Pc<C, R>, v: nat)
    requires IsThread(s, p, t) && IsThread(s, p, v) && v != t
    ensures var w := SetPc(s, p, t, pc);
            && IsThread(w, p, t) && PcOf(w, p, t) == pc && IsThread(w, p, v) && PcOf(w, p, v) == PcOf(s, p, v)
            && w.procs[p].info == s.procs[p].info && w.procs[p].gate == s.procs[p].gate
  {
  }

  /** The entry of a leaving thread is the one that is connected. */
  lemma LeaverAt<S, C, R>(s: State<S, C, R>, p: nat, v: nat, k: nat)
    requires Inv(s) && IsThread(s, p, v) && Leaves(PcOf(s, p, v)) && k < |s.procs[p].info| && s.procs[p].info[k].connected
    ensures var pc := PcOf(s, p, v); (if pc.WantGate? || pc.Writing? then pc.op.k else pc.k) == k
  {
    var pr := s.procs[p];
    assert ProcOk(s, p) && PcFits(pr.info, pr.threads[v]);
    var pc := pr.threads[v];
    SameEntry(pr.info, pr.version, if pc.WantGate? || pc.Writing? then pc.op.k else pc.k, k);
  }

  lemma LeaverFits<S, C, R>(s: State<S, C, R>, p: nat, v: nat, k: nat)
    requires Inv(s) && IsThread(s, p, v) && Leaves(PcOf(s, p, v))
    requires var pc := PcOf(s, p, v); (if pc.WantGate? || pc.Writing? then pc.op.k else pc.k) == k
    ensures k < |s.procs[p].info| && s.procs[p].info[k].connected && (PcOf(s, p, v).Vanishing? ==> !s.procs[p].info[k].open)
  {
    var pr := s.procs[p];
    assert ProcOk(s, p) && PcFits(pr.info, pr.threads[v]);
  }

  /** A disconnect begun while thread u is in a call, on its way to the mutex, comes before it. */
  lemma BeforeCaller<S, C, R>(sv: Service<S, C, R>, s: State<S, C, R>, p: nat, t: nat, k: nat, u: nat)
    returns (xs: seq<Action<C>>, s': State<S, C, R>)
    requires Inv(s) && IsThread(s, p, t) && PcOf(s, p, t).Idle? && IsThread(s, p, u) && Calls(PcOf(s, p, u))
    requires k < |s.procs[p].info| && s.procs[p].info[k].connected
    ensures InnerPath(sv, SetPc(s, p, t, WantGate(Leave(k))), xs, s') && s'.undefined
  {
    hide Run, CanRun, Inv, SetPc, Drained, InfoOk, Apply, Enabled;
    CallerAt(s, p, u, k);
    var ys, m := Clear(sv, s, p, u);
    PathBeside(sv, s, ys, m, p, t, WantGate(Leave(k)));
    CallerFits(m, p, u, k);
    var w := SetPc(m, p, t, WantGate(Leave(k)));
    BesidePc(m, p, t, WantGate(Leave(k)), u);
    var zs, w1 := LeaverCloses(sv, w, p, t, k);
    var last;
    last, s' := LateCall(sv, w1, p, u, k, PcOf(s, p, u).op.c);
    Then2(sv, SetPc(s, p, t, WantGate(Leave(k))), ys, w, zs, w1);
    Then2(sv, SetPc(s, p, t, WantGate(Leave(k))), ys + zs, w1, last, s');
    xs := ys + zs + last;
  }

  lemma CallerAt<S, C, R>(s: State<S, C, R>, p: nat, u: nat, k: nat)
    requires Inv(s) && IsThread(s, p, u) && Calls(PcOf(s, p, u)) && k < |s.procs[p].info| && s.procs[p].info[k].connected
    ensures PcOf(s, p, u).op.k == k
  {
    var pr := s.procs[p];
    assert ProcOk(s, p) && PcFits(pr.info, pr.threads[u]);
    SameEntry(pr.info, pr.version, pr.threads[u].op.k, k);
  }

  lemma CallerFits<S, C, R>(s: State<S, C, R>, p: nat, u: nat, k: nat)
    requires Inv(s) && IsThread(s, p, u) && Calls(PcOf(s, p, u)) && PcOf(s, p, u).op.k == k
    ensures k < |s.procs[p].info|
  {
    var pr := s.procs[p];
    assert ProcOk(s, p) && PcFits(pr.info, pr.threads[u]);
  }
}
