// The daemon's steps keep the invariant.

module LadDaemon {
  import opened Options
  import opened LadSlots
  import opened LadRpc
  import opened LadInvariant
  import opened LadSteps

  // ----- opening a response FIFO -----

  lemma TakenSlots(slots: seq<Slot>, d: Daemon, n: nat)
    requires SlotsOk(slots, n) && d.Opening? && d.status == SUCCESS && d.name == d.pid < n && NameFree(slots, d.name)
    requires d.slot.Some? && d.slot.value < |slots| && !slots[d.slot.value].connected && slots[d.slot.value].name == d.name
    ensures var r := Taken(slots, d);
            && SlotsOk(r, n) && Under(r, d.slot.value, d.name) && r[d.slot.value].pipe == d.pipe
            && (forall k: nat :: k < |slots| && k != d.slot.value ==> r[k] == slots[k])
            && (forall k: nat, q: nat :: q != d.name ==> (Under(r, k, q) <==> Under(slots, k, q)))
            && (forall q: nat :: q != d.name ==> (NameFree(r, q) <==> NameFree(slots, q)))
  {
    forall q: nat | q != d.name ensures NameFree(Taken(slots, d), q) <==> NameFree(slots, q) {
      SteadyFree(slots, Taken(slots, d), q);
    }
  }

  lemma UnderNotFree(slots: seq<Slot>, k: nat, name: nat)
    requires Under(slots, k, name)
    ensures !NameFree(slots, name)
  {
  }

  /** The daemon answers a connect request it grants. */
  lemma GrantKeeps<S, C, R>(s: State<S, C, R>, p: nat, t: nat)
    requires Inv(s) && Enabled(s, Open(p, t)) && s.daemon.status == SUCCESS
    ensures Inv(OpenStep(s, p, t))
  {
    hide SlotsOk, NameFree, Under, Taken, PairsOk, InfoOk;
    var s' := OpenStep(s, p, t);
    var pr := s.procs[p];
    assert ProcOk(s, p) && ThreadOk(s, p, pr.info, pr.version, pr.threads[t]) && PcFits(pr.info, pr.threads[t]);
    TakenSlots(s.slots, s.daemon, |s.procs|);
    UnderNotFree(s'.slots, s.daemon.slot.value, p);
    OpenOthers(s, s', p, s.daemon.pipe);
    MineSame(s, s', p, pr.threads[t].id);
    PairsNarrowed(pr.threads, t, s'.procs[p].threads[t]);
    GrantedFiles(s, s', p);
    ProcRebuilt(s, s', p, t);
    Rebuild(s, s', p);
  }

  lemma OpenOthers<S, C, R>(s: State<S, C, R>, s': State<S, C, R>, p: nat, pipe: nat)
    requires |s.procs| == |s'.procs| && s.daemon.Opening? && s.daemon.name == p
    requires s'.daemon.Ready? || (s'.daemon.Refusing? && s'.daemon.name == p)
    requires s'.sent == s.sent && s'.left == s.left && s'.results == s.results
    requires forall q :: 0 <= q < |s.procs| && q != p ==> s'.procs[q] == s.procs[q]
    requires pipe < |s.pipes| == |s'.pipes| && s.pipes[pipe].name == p
    requires forall i :: 0 <= i < |s.pipes| && i != pipe ==> s'.pipes[i] == s.pipes[i]
    requires |s'.slots| == |s.slots| && forall k: nat :: k < |s.slots| && s.slots[k].connected ==> s'.slots[k] == s.slots[k]
    requires forall k: nat, q: nat :: q != p ==> (Under(s'.slots, k, q) <==> Under(s.slots, k, q))
    ensures OthersSteady(s, s', p)
  {
    forall q | 0 <= q < |s.procs| && q != p ensures Steady(s, s', q) && s'.procs[q] == s.procs[q] {
      assert forall k: nat :: Pending(s, q, k) <==> Pending(s', q, k);
    }
  }

  lemma GrantedFiles<S, C, R>(s: State<S, C, R>, s': State<S, C, R>, p: nat)
    requires FilesOk(s) && DaemonOk(s) && s.daemon.Opening? && s.daemon.name == p && s.daemon.status == SUCCESS
    requires s'.slots == Taken(s.slots, s.daemon) && s'.files == s.files && s'.daemon.Ready?
    requires !NameFree(s'.slots, p) && forall q: nat :: q != p ==> (NameFree(s'.slots, q) <==> NameFree(s.slots, q))
    ensures FilesOk(s')
  {
    hide NameFree;
  }

  /** The daemon answers a connect request it refuses; its FIFO is still there. */
  lemma RefusalKeeps<S, C, R>(s: State<S, C, R>, p: nat, t: nat)
    requires Inv(s) && Enabled(s, Open(p, t)) && s.daemon.status != SUCCESS
    ensures Inv(OpenStep(s, p, t))
  {
    hide SlotsOk, NameFree, Under, PairsOk, InfoOk;
    var s' := OpenStep(s, p, t);
    var pr := s.procs[p];
    assert ProcOk(s, p) && ThreadOk(s, p, pr.info, pr.version, pr.threads[t]) && PcFits(pr.info, pr.threads[t]);
    OpenOthers(s, s', p, s.daemon.pipe);
    MineSame(s, s', p, pr.threads[t].id);
    PairsNarrowed(pr.threads, t, s'.procs[p].threads[t]);
    ProcRebuilt(s, s', p, t);
    Rebuild(s, s', p);
  }

  /** The daemon removes a refused client's FIFO. */
  lemma RefuseKeeps<S, C, R>(sv: Service<S, C, R>, s: State<S, C, R>)
    requires Inv(s) && Enabled(s, Refuse)
    ensures Inv(Apply(sv, s, Refuse))
  {
    hide SlotsOk, NameFree, Under, PairsOk, InfoOk, Mine, GateOk, PcFits;
    var s' := Apply(sv, s, Refuse);
    var p := s.daemon.name;
    var pr := s.procs[p];
    forall q | 0 <= q < |s.procs| && q != p ensures Steady(s, s', q) && s'.procs[q] == s.procs[q] {
      assert forall k: nat :: Pending(s, q, k) <==> Pending(s', q, k);
    }
    assert ProcOk(s, p);
    NothingLeft2(s, s', p);
    if pr.alive {
      forall u | 0 <= u < |pr.threads| ensures ThreadOk(s', p, pr.info, pr.version, pr.threads[u]) {
        assert ThreadOk(s, p, pr.info, pr.version, pr.threads[u]);
        RefusedThread(s, s', p, pr.info, pr.version, pr.threads[u]);
      }
    }
    Rebuild(s, s', p);
  }

  lemma RefusedThread<S, C, R>(s: State<S, C, R>, s': State<S, C, R>, p: nat, info: seq<Info>, version: bool, pc: Pc<C, R>)
    requires Refuses(s, p) && s' == s.(daemon := Ready, files := s'.files) && |s.left| == |s.results|
    requires ThreadOk(s, p, info, version, pc)
    ensures ThreadOk(s', p, info, version, pc)
  {
    hide NameFree, Under, Mine;
    if Active(pc) { MineSame(s, s', p, pc.id); }
  }

  lemma NothingLeft2<S, C, R>(s: State<S, C, R>, s': State<S, C, R>, p: nat)
    requires s'.sent == s.sent && s'.left == s.left
    ensures NonePending(s, p) ==> NonePending(s', p)
  {
    if NonePending(s, p) { NothingLeft(s, s', p, 0); }
  }

  /** No client ever opens a FIFO that the daemon has open already. */
  lemma NoReopen<S, C, R>(s: State<S, C, R>, p: nat, t: nat)
    requires Inv(s)
    ensures !Enabled(s, Reopen(p, t))
  {
    hide SlotsOk, PairsOk, GateOk;
    if IsThread(s, p, t) && PcOf(s, p, t).Polling? {
      var pr := s.procs[p];
      assert ProcOk(s, p) && ThreadOk(s, p, pr.info, pr.version, pr.threads[t]);
    }
  }

  // ----- taking a command -----

  lemma SweptSlots(slots: seq<Slot>, n: nat, alive: set<nat>)
    requires SlotsOk(slots, n)
    ensures var r := Swept(slots, |slots|, alive);
            && SlotsOk(r, n)
            && (forall k :: 0 <= k < |r| && r[k].connected ==> r[k] == slots[k] && slots[k].pid in alive)
            && (forall k: nat, q: nat :: q in alive ==> (Under(r, k, q) <==> Under(slots, k, q)) && (Under(r, k, q) ==> r[k] == slots[k]))
            && (forall q: nat :: q in alive ==> (NameFree(r, q) <==> NameFree(slots, q)))
  {
    hide Swept;
    var r := Swept(slots, |slots|, alive);
    forall q: nat | q in alive ensures NameFree(r, q) <==> NameFree(slots, q) { SteadyFree(slots, r, q); }
  }

  lemma SweptNames(slots: seq<Slot>, n: nat, alive: set<nat>, name: nat)
    requires SlotsOk(slots, n)
    ensures !NameFree(Swept(slots, |slots|, alive), name) <==> !NameFree(slots, name) && name !in GoneNames(slots, |slots|, alive)
  {
    hide Swept, GoneNames;
    var r := Swept(slots, |slots|, alive);
    if !NameFree(r, name) {
      var k :| 0 <= k < |r| && r[k].connected && r[k].name == name;
      assert slots[k].connected && slots[k].name == name && !Departed(slots[k], alive);
    }
    if !NameFree(slots, name) && name !in GoneNames(slots, |slots|, alive) {
      var k :| 0 <= k < |slots| && slots[k].connected && slots[k].name == name;
      assert r[k] == slots[k];
    }
  }

  /** The table after the departed clients are cleaned up: a live process keeps its slot and its FIFO. */
  lemma SweptFacts<S, C, R>(sv: Service<S, C, R>, s: State<S, C, R>)
    requires SlotsOk(s.slots, |s.procs|) && FilesOk(s) && PipesOk(s) && s.daemon.Ready?
    ensures var m := Cleaned(sv, s);
            && SlotsOk(m.slots, |s.procs|) && FilesOk(m) && PipesOk(m)
            && (forall k: nat, q: nat :: q in Alive(s) ==>
                  (Under(m.slots, k, q) <==> Under(s.slots, k, q)) && (Under(m.slots, k, q) ==> m.slots[k] == s.slots[k]))
            && (forall q: nat :: q in Alive(s) ==> (NameFree(m.slots, q) <==> NameFree(s.slots, q)))
  {
    hide GoneNames, Swept, Gone, CleanAll, SlotsOk, NameFree, Under, Alive;
    var m := Cleaned(sv, s);
    SweptSlots(s.slots, |s.procs|, Alive(s));
    forall name: nat ensures name in m.files <==> !NameFree(m.slots, name) {
      SweptNames(s.slots, |s.procs|, Alive(s), name);
    }
  }

  /** The command at the front is the one its sender is busy with. */
  lemma Front<S, C, R>(s: State<S, C, R>) returns (p: nat, t: nat)
    requires Inv(s) && s.daemon.Ready? && s.fifo != []
    ensures IsThread(s, p, t) && p == s.sent[|s.left|].pid && s.fifo[0] == s.sent[|s.left|].cmd
    ensures var pc := PcOf(s, p, t); Active(pc) && !pc.Reading? && pc.id == |s.left|
    ensures CanHandle(s)
  {
    hide SlotsOk, NameFree, FilesOk, PairsOk, InfoOk;
    p := s.sent[|s.left|].pid;
    assert ProcOk(s, p) && s.fifo[0] == s.sent[|s.left| + 0].cmd;
    assert Pending(s, p, |s.left|);
    var pr := s.procs[p];
    assert !NoneActive(pr);
    t :| 0 <= t < |pr.threads| && Active(pr.threads[t]);
    assert ThreadOk(s, p, pr.info, pr.version, pr.threads[t]) && Mine(s, p, pr.threads[t].id);
    assert PcFits(pr.info, pr.threads[t]);
  }

  lemma TakeSteady<S, C, R>(sv: Service<S, C, R>, s: State<S, C, R>, s': State<S, C, R>, p: nat)
    requires Inv(s) && s.daemon.Ready? && s.fifo != [] && p == s.sent[|s.left|].pid && !s'.undefined
    requires s'.procs == s.procs && s'.sent == s.sent && s'.fifo == s.fifo[1..]
    requires s'.left == Cleaned(sv, s).left && |s'.results| == |s.results| + 1 && s.results <= s'.results
    requires |s'.slots| == |s.slots| && |s.pipes| <= |s'.pipes|
    requires forall i :: 0 <= i < |s.pipes| && s.pipes[i].name != p ==> s'.pipes[i] == s.pipes[i]
    requires !s'.daemon.Ready? ==> s'.daemon.name == p
    requires forall k: nat, q: nat :: q in Alive(s) && q != p ==>
               (Under(s'.slots, k, q) <==> Under(s.slots, k, q)) && (Under(s'.slots, k, q) ==> s'.slots[k] == s.slots[k])
    ensures Shape(s') && OthersSteady(s, s', p)
  {
    hide ProcsOk, SlotsOk, FilesOk, PipesOk, Under, Gone, Swept, GoneNames, CleanAll;
    forall q | 0 <= q < |s.procs| && q != p ensures Steady(s, s', q) && s'.procs[q] == s.procs[q] {
      assert forall k: nat :: Pending(s, q, k) <==> Pending(s', q, k);
      assert s.procs[q].alive ==> q in Alive(s);
    }
  }

  lemma CallKeeps<S, C, R>(sv: Service<S, C, R>, s: State<S, C, R>)
    requires Inv(s) && Enabled(s, Handle) && s.fifo[0].Call?
    ensures Inv(HandleStep(sv, s))
  {
    hide SlotsOk, NameFree, Swept, Gone, GoneNames, CleanAll, PairsOk, InfoOk;
    var p, t := Front(s);
    var s' := HandleStep(sv, s);
    SweptFacts(sv, s);
    var pr := s.procs[p];
    assert ProcOk(s, p) && ThreadOk(s, p, pr.info, pr.version, pr.threads[t]) && p in Alive(s);
    var k := s.fifo[0].clientId;
    assert Under(Cleaned(sv, s).slots, k, p);
    TakeSteady(sv, s, s', p);
    MineSame(s, s', p, |s.left|);
    ProcRebuilt(s, s', p, t);
    SameFiles(Cleaned(sv, s), s');
    Rebuild(s, s', p);
  }

  lemma SameFiles<S, C, R>(s: State<S, C, R>, s': State<S, C, R>)
    requires FilesOk(s) && PipesOk(s) && s'.slots == s.slots && s'.files == s.files && s'.daemon == s.daemon
    requires |s'.pipes| == |s.pipes| && forall i :: 0 <= i < |s.pipes| ==> s'.pipes[i].name == s.pipes[i].name
    ensures FilesOk(s') && PipesOk(s')
  {
  }

  lemma OffFacts(slots: seq<Slot>, k: nat, n: nat)
    requires SlotsOk(slots, n) && k < |slots| && slots[k].connected
    ensures SlotsOk(Off(slots, k), n) && NameFree(Off(slots, k), slots[k].name)
    ensures forall j: nat, q: nat :: q != slots[k].name ==>
              (Under(Off(slots, k), j, q) <==> Under(slots, j, q)) && (Under(slots, j, q) ==> Off(slots, k)[j] == slots[j])
    ensures forall q: nat :: q != slots[k].name ==> (NameFree(Off(slots, k), q) <==> NameFree(slots, q))
    ensures forall j :: 0 <= j < |slots| && Off(slots, k)[j].connected ==> Off(slots, k)[j] == slots[j]
  {
    forall q: nat | q != slots[k].name ensures NameFree(Off(slots, k), q) <==> NameFree(slots, q) {
      SteadyFree(slots, Off(slots, k), q);
    }
  }

  lemma DisconnectKeeps<S, C, R>(sv: Service<S, C, R>, s: State<S, C, R>)
    requires Inv(s) && Enabled(s, Handle) && s.fifo[0].Disconnect?
    ensures Inv(HandleStep(sv, s))
  {
    hide SlotsOk, NameFree, Swept, Gone, GoneNames, CleanAll, Off, PairsOk, InfoOk;
    var p, t := Front(s);
    var s' := HandleStep(sv, s);
    SweptFacts(sv, s);
    var m := Cleaned(sv, s);
    var pr := s.procs[p];
    assert ProcOk(s, p) && ThreadOk(s, p, pr.info, pr.version, pr.threads[t]) && p in Alive(s);
    var k := s.fifo[0].clientId;
    assert Under(m.slots, k, p);
    OffFacts(m.slots, k, |s.procs|);
    TakeSteady(sv, s, s', p);
    MineSame(s, s', p, |s.left|);
    ProcRebuilt(s, s', p, t);
    DisconnectFiles(m, s', p, k);
    Rebuild(s, s', p);
  }

  lemma DisconnectFiles<S, C, R>(m: State<S, C, R>, s': State<S, C, R>, p: nat, k: nat)
    requires FilesOk(m) && PipesOk(m) && m.daemon.Ready? && k < |m.slots|
    requires s'.slots == Off(m.slots, k) && s'.files == m.files - {p} && s'.pipes == m.pipes && s'.daemon.Ready?
    requires NameFree(s'.slots, p) && forall q: nat :: q != p ==> (NameFree(s'.slots, q) <==> NameFree(m.slots, q))
    requires forall j :: 0 <= j < |s'.slots| && s'.slots[j].connected ==> s'.slots[j] == m.slots[j]
    ensures FilesOk(s') && PipesOk(s')
  {
    hide Off, NameFree;
  }

  lemma NamedFacts(slots: seq<Slot>, version: bool, name: nat, n: nat)
    requires SlotsOk(slots, n)
    ensures var r := Named(slots, version, name);
            && SlotsOk(r, n)
            && (forall j: nat, q: nat :: (Under(r, j, q) <==> Under(slots, j, q)) && (Under(r, j, q) ==> r[j] == slots[j]))
            && (forall q: nat :: NameFree(r, q) <==> NameFree(slots, q))
            && (forall j :: 0 <= j < |r| && r[j].connected ==> r[j] == slots[j])
  {
    var r := Named(slots, version, name);
    assert forall j :: 0 <= j < |r| ==> r[j].connected == slots[j].connected && (r[j].connected ==> r[j] == slots[j]);
    forall q: nat ensures NameFree(r, q) <==> NameFree(slots, q) { SteadyFree(slots, r, q); }
  }

  /** A connect request always finds its FIFO name free, so it is answered. */
  lemma ConnectKeeps<S, C, R>(sv: Service<S, C, R>, s: State<S, C, R>)
    requires Inv(s) && Enabled(s, Handle) && s.fifo[0].Connect?
    ensures Inv(HandleStep(sv, s))
    ensures HandleStep(sv, s).daemon.Opening?
  {
    hide SlotsOk, NameFree, Swept, Gone, GoneNames, CleanAll, Named, PairsOk, InfoOk;
    var p, t := Front(s);
    var s' := HandleStep(sv, s);
    SweptFacts(sv, s);
    var m := Cleaned(sv, s);
    var pr := s.procs[p];
    assert ProcOk(s, p) && ThreadOk(s, p, pr.info, pr.version, pr.threads[t]) && p in Alive(s);
    assert NameFree(m.slots, p) && p !in m.files;
    NamedFacts(m.slots, s.fifo[0].version, p, |s.procs|);
    TakeSteady(sv, s, s', p);
    MineSame(s, s', p, |s.left|);
    ProcRebuilt(s, s', p, t);
    ConnectFiles(m, s', p, s.fifo[0].version);
    Rebuild(s, s', p);
  }

  lemma ConnectFiles<S, C, R>(m: State<S, C, R>, s': State<S, C, R>, p: nat, version: bool)
    requires FilesOk(m) && PipesOk(m) && m.daemon.Ready? && NameFree(m.slots, p)
    requires s'.slots == Named(m.slots, version, p) && s'.files == m.files[p := |m.pipes|] && s'.pipes == m.pipes + [Pipe(p, [])]
    requires s'.daemon.Opening? && s'.daemon.name == p
    requires forall q: nat :: NameFree(s'.slots, q) <==> NameFree(m.slots, q)
    requires forall j :: 0 <= j < |s'.slots| && s'.slots[j].connected ==> s'.slots[j] == m.slots[j]
    ensures FilesOk(s') && PipesOk(s')
  {
    hide Named;
  }

  lemma HandleKeeps<S, C, R>(sv: Service<S, C, R>, s: State<S, C, R>)
    requires Inv(s) && Enabled(s, Handle)
    ensures Inv(HandleStep(sv, s))
  {
    hide Inv, HandleStep;
    match s.fifo[0]
    case Connect(_, _, _) => ConnectKeeps(sv, s);
    case Disconnect(_) => DisconnectKeeps(sv, s);
    case Call(_, _) => CallKeeps(sv, s);
  }
}
