// What holds in every run of the daemon and its clients in which the processes
// keep the calling rule.

module LadTheorems {
  import opened Bags
  import opened Options
  import opened LadSlots
  import opened LadRpc
  import opened LadInvariant
  import opened LadSteps
  import opened LadDaemon

  lemma StepKeeps<S, C, R>(sv: Service<S, C, R>, s: State<S, C, R>, a: Action<C>)
    requires Inv(s) && Enabled(s, a) && Obeyed(s, a)
    ensures Inv(Apply(sv, s, a))
  {
    hide Inv, Enabled, Obeyed;
    hide WriteStep, ReadStep, CloseStep, VanishStep, OpenStep, HandleStep, SetPc, SetGate, Entry;
    match a
    case Begin(p, t, job) => BeginKeeps(sv, s, p, t, job);
    case Lock(p, t) => LockKeeps(sv, s, p, t);
    case Write(p, t) => WriteKeeps(s, p, t);
    case Read(p, t) => ReadKeeps(s, p, t);
    case Close(p, t) => CloseKeeps(s, p, t);
    case Vanish(p, t) => VanishKeeps(s, p, t);
    case Finish(p, t) => FinishKeeps(sv, s, p, t);
    case Open(p, t) => OpenKeeps(s, p, t);
    case Reopen(p, t) => NoReopen(s, p, t);
    case Handle => HandleKeeps(sv, s);
    case Refuse => RefuseKeeps(sv, s);
    case Die(p) => DieKeeps(sv, s, p);
  }

  lemma ReadKeeps<S, C, R>(s: State<S, C, R>, p: nat, t: nat)
    requires Inv(s) && Enabled(s, Read(p, t))
    ensures Inv(ReadStep(s, p, t))
  {
    hide Inv, ReadStep, NameFree;
    if PcOf(s, p, t).Waiting? { ReadCallKeeps(s, p, t); }
    else if NameFree(s.slots, p) { ReadRefusalKeeps(s, p, t); }
    else { ReadGrantKeeps(s, p, t); }
  }

  lemma OpenKeeps<S, C, R>(s: State<S, C, R>, p: nat, t: nat)
    requires Inv(s) && Enabled(s, Open(p, t))
    ensures Inv(OpenStep(s, p, t))
  {
    hide Inv, OpenStep;
    if s.daemon.status == SUCCESS { GrantKeeps(s, p, t); } else { RefusalKeeps(s, p, t); }
  }

  lemma InitInv<S, C, R>(s: State<S, C, R>)
    requires Init(s)
    ensures Inv(s)
  {
    forall p | 0 <= p < |s.procs| ensures ProcOk(s, p) { assert Fresh(s.procs[p]); }
  }

  lemma {:induction false} RunInv<S, C, R>(sv: Service<S, C, R>, s: State<S, C, R>, actions: seq<Action<C>>)
    requires Inv(s) && Obeys(sv, s, actions)
    ensures Inv(Run(sv, s, actions))
    decreases |actions|
  {
    hide Inv, Enabled, Apply, Obeyed;
    if actions != [] {
      StepKeeps(sv, s, actions[0]);
      RunInv(sv, Apply(sv, s, actions[0]), actions[1..]);
    }
  }

  // ----- what the daemon computes: the commands one after another, in the order of the command FIFO -----

  /** What the daemon asks of its services: to execute a process's command, or to clean up after a departed process. */
  datatype Event<C> = Executed(c: C, pid: nat) | CleanedUp(pid: nat)

  function CleanUps<C>(pids: seq<nat>): seq<Event<C>> {
    seq(|pids|, i requires 0 <= i < |pids| => CleanedUp(pids[i]))
  }

  /** The events of the first k commands: for each, its departed processes one by one, then the command if it is a call. */
  function History<C>(sent: seq<Sent<C>>, left: seq<seq<nat>>, k: nat): seq<Event<C>>
    requires k <= |sent| && k <= |left|
  {
    if k == 0 then []
    else
      var x := sent[k - 1];
      History(sent, left, k - 1) + CleanUps(left[k - 1]) + if x.cmd.Call? then [Executed(x.cmd.c, x.pid)] else []
  }

  /** The daemon's own state after these events. */
  function Play<S, C, R>(sv: Service<S, C, R>, srv0: S, events: seq<Event<C>>): S {
    if events == [] then srv0
    else
      var srv := Play(sv, srv0, events[..|events| - 1]);
      match events[|events| - 1]
      case Executed(c, pid) => sv.exec(srv, c, pid).0
      case CleanedUp(pid) => sv.cleanup(srv, pid)
  }

  lemma {:induction false} CleanAllPlays<S, C, R>(sv: Service<S, C, R>, srv0: S, events: seq<Event<C>>, pids: seq<nat>)
    ensures CleanAll(sv, Play(sv, srv0, events), pids) == Play(sv, srv0, events + CleanUps(pids))
    decreases |pids|
  {
    if pids == [] {
      assert events + CleanUps(pids) == events;
    } else {
      var more := events + [CleanedUp(pids[0])];
      assert more[..|events|] == events;
      CleanAllPlays(sv, srv0, more, pids[1..]);
      assert events + CleanUps(pids) == more + CleanUps(pids[1..]);
    }
  }

  /** The daemon's own state after the first k commands. */
  function After<S, C, R>(sv: Service<S, C, R>, srv0: S, sent: seq<Sent<C>>, left: seq<seq<nat>>, k: nat): S
    requires k <= |sent| && k <= |left|
  {
    Play(sv, srv0, History(sent, left, k))
  }

  /** The result of command k, executed for its sender after all commands before it, and after its departed processes. */
  function ResultAt<S, C, R>(sv: Service<S, C, R>, srv0: S, sent: seq<Sent<C>>, left: seq<seq<nat>>, k: nat): Option<R>
    requires k < |sent| && k < |left|
  {
    var x := sent[k];
    if x.cmd.Call?
    then Some(sv.exec(Play(sv, srv0, History(sent, left, k) + CleanUps(left[k])), x.cmd.c, x.pid).1) else None
  }

  /** One more command: its clean-ups, then the command. */
  lemma AfterNext<S, C, R>(sv: Service<S, C, R>, srv0: S, sent: seq<Sent<C>>, left: seq<seq<nat>>, k: nat)
    requires k < |sent| && k < |left|
    ensures var srv := CleanAll(sv, After(sv, srv0, sent, left, k), left[k]); var x := sent[k];
            && After(sv, srv0, sent, left, k + 1) == (if x.cmd.Call? then sv.exec(srv, x.cmd.c, x.pid).0 else srv)
            && ResultAt(sv, srv0, sent, left, k) == if x.cmd.Call? then Some(sv.exec(srv, x.cmd.c, x.pid).1) else None
  {
    hide CleanAll, CleanUps;
    var events := History(sent, left, k) + CleanUps(left[k]);
    CleanAllPlays(sv, srv0, History(sent, left, k), left[k]);
    var x := sent[k];
    if x.cmd.Call? {
      assert (events + [Executed(x.cmd.c, x.pid)])[..|events|] == events;
    } else {
      assert History(sent, left, k + 1) == events;
    }
  }

  ghost predicate Replays<S, C, R>(sv: Service<S, C, R>, srv0: S, s: State<S, C, R>) {
    && |s.left| == |s.results| <= |s.sent|
    && s.srv == After(sv, srv0, s.sent, s.left, |s.left|)
    && forall k :: 0 <= k < |s.left| ==> s.results[k] == ResultAt(sv, srv0, s.sent, s.left, k)
  }

  lemma {:induction false} HistoryPrefix<C>(sent: seq<Sent<C>>, left: seq<seq<nat>>, sent': seq<Sent<C>>, left': seq<seq<nat>>, k: nat)
    requires k <= |sent| && k <= |left| && sent <= sent' && left <= left'
    ensures History(sent', left', k) == History(sent, left, k)
  {
    if k != 0 { HistoryPrefix(sent, left, sent', left', k - 1); }
  }

  lemma ReplaysExtended<S, C, R>(sv: Service<S, C, R>, srv0: S, s: State<S, C, R>, s': State<S, C, R>)
    requires Replays(sv, srv0, s) && s.sent <= s'.sent && s.left <= s'.left && s.results <= s'.results
    requires |s'.left| == |s'.results| <= |s'.sent|
    ensures After(sv, srv0, s'.sent, s'.left, |s.left|) == s.srv
    ensures forall k :: 0 <= k < |s.left| ==> s'.results[k] == ResultAt(sv, srv0, s'.sent, s'.left, k)
  {
    hide History, Play, CleanAll;
    HistoryPrefix(s.sent, s.left, s'.sent, s'.left, |s.left|);
    forall k | 0 <= k < |s.left| ensures s'.results[k] == ResultAt(sv, srv0, s'.sent, s'.left, k) {
      HistoryPrefix(s.sent, s.left, s'.sent, s'.left, k);
      assert s'.results[k] == s.results[k] == ResultAt(sv, srv0, s.sent, s.left, k);
    }
  }

  lemma ReplaysKept<S, C, R>(sv: Service<S, C, R>, srv0: S, s: State<S, C, R>, a: Action<C>)
    requires Inv(s) && Enabled(s, a) && Replays(sv, srv0, s)
    ensures Replays(sv, srv0, Apply(sv, s, a))
  {
    hide After, ResultAt, CleanAll, ProcsOk, SlotsOk, FilesOk, PipesOk, DaemonOk, Swept, Gone, GoneNames, Named, Taken, NonePending, WriterOpen, Entry;
    var s' := Apply(sv, s, a);
    if a.Handle? {
      ExecutesForSender(sv, s);
      HandleHistory(sv, s);
      ReplaysExtended(sv, srv0, s, s');
      AfterNext(sv, srv0, s'.sent, s'.left, |s.left|);
    } else {
      OtherHistory(sv, s, a);
      ReplaysExtended(sv, srv0, s, s');
    }
  }

  lemma OtherHistory<S, C, R>(sv: Service<S, C, R>, s: State<S, C, R>, a: Action<C>)
    requires Enabled(s, a) && !a.Handle?
    ensures var s' := Apply(sv, s, a); s.sent <= s'.sent && s'.left == s.left && s'.results == s.results && s'.srv == s.srv
  {
    hide WriteStep, ReadStep, CloseStep, VanishStep, OpenStep, HandleStep, Entry, NonePending, WriterOpen;
  }

  /** What taking a command adds to the histories, and does to the daemon's own state. */
  lemma HandleHistory<S, C, R>(sv: Service<S, C, R>, s: State<S, C, R>)
    requires Enabled(s, Handle)
    ensures var s' := HandleStep(sv, s); var m := Cleaned(sv, s); var cmd := s.fifo[0];
            && s'.sent == s.sent && s'.left == m.left
            && s'.results == s.results + [if cmd.Call? then Some(sv.exec(m.srv, cmd.c, m.slots[cmd.clientId].pid).1) else None]
            && s'.srv == if cmd.Call? then sv.exec(m.srv, cmd.c, m.slots[cmd.clientId].pid).0 else m.srv
  {
    hide CleanAll, Swept, Gone, GoneNames, Named;
  }

  /** The slot a call names is that of the process that wrote it. */
  lemma ExecutesForSender<S, C, R>(sv: Service<S, C, R>, s: State<S, C, R>)
    requires Inv(s) && Enabled(s, Handle)
    ensures |s.left| < |s.sent| && s.fifo[0] == s.sent[|s.left|].cmd
    ensures s.fifo[0].Call? ==> Cleaned(sv, s).slots[s.fifo[0].clientId].pid == s.sent[|s.left|].pid
  {
    hide Swept, Gone, GoneNames, CleanAll, NameFree, FilesOk, GateOk, PairsOk;
    var p, t := Front(s);
    var pr := s.procs[p];
    assert ProcOk(s, p) && ThreadOk(s, p, pr.info, pr.version, pr.threads[t]);
  }

  lemma {:induction false} RunReplays<S, C, R>(sv: Service<S, C, R>, srv0: S, s: State<S, C, R>, actions: seq<Action<C>>)
    requires Inv(s) && Obeys(sv, s, actions) && Replays(sv, srv0, s)
    ensures Replays(sv, srv0, Run(sv, s, actions))
    decreases |actions|
  {
    hide Inv, Enabled, Apply, Replays, Obeyed;
    if actions != [] {
      StepKeeps(sv, s, actions[0]);
      ReplaysKept(sv, srv0, s, actions[0]);
      RunReplays(sv, srv0, Apply(sv, s, actions[0]), actions[1..]);
    }
  }

  lemma Reachable<S, C, R>(sv: Service<S, C, R>, s: State<S, C, R>, actions: seq<Action<C>>)
    requires Init(s) && Obeys(sv, s, actions)
    ensures Inv(Run(sv, s, actions)) && Replays(sv, s.srv, Run(sv, s, actions))
  {
    hide Inv, Run, Obeys;
    InitInv(s);
    RunInv(sv, s, actions);
    RunReplays(sv, s.srv, s, actions);
  }

  // ----- the theorems -----

  /** Whatever the other threads and processes do by the rule, a call that got as far as the mutex returns the result the
    * daemon computed for that very command, after exactly the commands before it in the command FIFO. */
  lemma CallReturnsItsResult<S, C, R>(sv: Service<S, C, R>, s: State<S, C, R>, actions: seq<Action<C>>, p: nat, t: nat)
    requires Init(s) && Obeys(sv, s, actions)
    requires IsThread(Run(sv, s, actions), p, t) && PcOf(Run(sv, s, actions), p, t).Returned?
    requires PcOf(Run(sv, s, actions), p, t).op.Invoke?
    ensures var s' := Run(sv, s, actions);
            var Returned(op, id, answer) := PcOf(s', p, t);
            && answer.Value? && id < |s'.sent| && id < |s'.left| && s'.sent[id] == Sent(p, Call(op.k, op.c))
            && answer.r == sv.exec(Play(sv, s.srv, History(s'.sent, s'.left, id) + CleanUps(s'.left[id])), op.c, p).1
  {
    hide Obeys, Run, After, History, Play, SlotsOk, FilesOk, NameFree, Quiet;
    Reachable(sv, s, actions);
    var s' := Run(sv, s, actions);
    var pr := s'.procs[p];
    assert ProcOk(s', p) && ThreadOk(s', p, pr.info, pr.version, pr.threads[t]);
  }

  /** No connect or disconnect that got as far as the mutex fails for any reason but a wrong version or a full table; and no
    * code ever uses a file it has closed. */
  lemma NothingFails<S, C, R>(sv: Service<S, C, R>, s: State<S, C, R>, actions: seq<Action<C>>, p: nat, t: nat)
    requires Init(s) && Obeys(sv, s, actions)
    requires IsThread(Run(sv, s, actions), p, t) && PcOf(Run(sv, s, actions), p, t).Returned?
    ensures !Run(sv, s, actions).undefined
    ensures var Returned(op, id, answer) := PcOf(Run(sv, s, actions), p, t); var version := Run(sv, s, actions).procs[p].version;
            && (op.Join? ==> answer.Status? && answer.status in {SUCCESS, INVALIDVERSION, ACCESSDENIED}
                             && (answer.status == INVALIDVERSION <==> !version))
            && (op.Leave? ==> answer == Status(SUCCESS, None))
  {
    hide Obeys, Run, ResultAt, After, SlotsOk, FilesOk, NameFree, Quiet;
    Reachable(sv, s, actions);
    var s' := Run(sv, s, actions);
    var pr := s'.procs[p];
    assert ProcOk(s', p) && ThreadOk(s', p, pr.info, pr.version, pr.threads[t]);
  }

  /** What the daemon has taken, and what waits in the command FIFO, is what was written, in that order; the daemon's own
    * state is that of running the taken commands one after another. */
  lemma FifoOrder<S, C, R>(sv: Service<S, C, R>, s: State<S, C, R>, actions: seq<Action<C>>)
    requires Init(s) && Obeys(sv, s, actions)
    ensures var s' := Run(sv, s, actions);
            && |s'.left| <= |s'.sent| && |s'.fifo| == |s'.sent| - |s'.left|
            && (forall j :: 0 <= j < |s'.fifo| ==> s'.fifo[j] == s'.sent[|s'.left| + j].cmd)
            && s'.srv == Play(sv, s.srv, History(s'.sent, s'.left, |s'.left|))
  {
    hide Obeys, Run, History, Play, ResultAt, ProcsOk, SlotsOk, FilesOk;
    Reachable(sv, s, actions);
  }

  /** A service whose state is the record of what was asked of it; its results may be any. */
  function Recorder<C, R>(result: (seq<Event<C>>, C, nat) -> R): Service<seq<Event<C>>, C, R> {
    Service((record, c, pid) => (record + [Executed(c, pid)], result(record, c, pid)),
            (record, pid) => record + [CleanedUp(pid)])
  }

  lemma {:induction false} RecorderPlays<C, R>(result: (seq<Event<C>>, C, nat) -> R, record: seq<Event<C>>, events: seq<Event<C>>)
    ensures Play(Recorder(result), record, events) == record + events
  {
    if events != [] {
      RecorderPlays(result, record, events[..|events| - 1]);
      assert events == events[..|events| - 1] + [events[|events| - 1]];
    }
  }

  /** What the daemon asked of its services in any run: for each command taken, the clean-up after each departed process,
    * one by one, and then the command. */
  lemma ServicesAsked<C, R>(result: (seq<Event<C>>, C, nat) -> R, s: State<seq<Event<C>>, C, R>, actions: seq<Action<C>>)
    requires Init(s) && Obeys(Recorder(result), s, actions)
    ensures var s' := Run(Recorder(result), s, actions);
            |s'.left| <= |s'.sent| && s'.srv == s.srv + History(s'.sent, s'.left, |s'.left|)
  {
    hide Obeys, Run, History, Play, Init, Recorder;
    var s' := Run(Recorder(result), s, actions);
    FifoOrder(Recorder(result), s, actions);
    RecorderPlays(result, s.srv, History(s'.sent, s'.left, |s'.left|));
  }

  /** The daemon is about to answer process p, or its answer lies unread in the pipe p's slot writes to. */
  ghost predicate AnswerDue<S, C, R>(s: State<S, C, R>, p: nat) {
    || Opens(s, p)
    || exists k: nat :: Under(s.slots, k, p) && s.slots[k].pipe < |s.pipes| && s.pipes[s.slots[k].pipe].data != []
  }

  /** A live process has at most one command written and not answered: one command in the command FIFO, or one answer due,
    * never both nor two. Unless it is a disconnect whose FIFO is still to go, the mutex is held. */
  lemma OneOutstanding<S, C, R>(sv: Service<S, C, R>, s: State<S, C, R>, actions: seq<Action<C>>, p: nat)
    requires Init(s) && Obeys(sv, s, actions) && p < |Run(sv, s, actions).procs| && Run(sv, s, actions).procs[p].alive
    ensures var s' := Run(sv, s, actions);
            var pr := s'.procs[p];
            && (forall j, k :: Pending(s', p, j) && Pending(s', p, k) ==> j == k)
            && (forall k :: Pending(s', p, k) ==> !AnswerDue(s', p))
            && (forall k: nat :: Under(s'.slots, k, p) ==> s'.slots[k].pipe < |s'.pipes| && |s'.pipes[s'.slots[k].pipe].data| <= 1)
            && (!NonePending(s', p) || AnswerDue(s', p) ==>
                  pr.gate.Some? || exists t :: 0 <= t < |pr.threads| && pr.threads[t].Vanishing?)
  {
    hide Obeys, Run, After, ResultAt, FilesOk, NameFree, Under;
    Reachable(sv, s, actions);
    OneOutstandingIn(Run(sv, s, actions), p);
  }

  lemma OneOutstandingIn<S, C, R>(s: State<S, C, R>, p: nat)
    requires Inv(s) && p < |s.procs| && s.procs[p].alive
    ensures forall j, k :: Pending(s, p, j) && Pending(s, p, k) ==> j == k
    ensures forall k :: Pending(s, p, k) ==> !AnswerDue(s, p)
    ensures forall k: nat :: Under(s.slots, k, p) ==> s.slots[k].pipe < |s.pipes| && |s.pipes[s.slots[k].pipe].data| <= 1
    ensures !NonePending(s, p) || AnswerDue(s, p) ==>
              s.procs[p].gate.Some? || exists t :: 0 <= t < |s.procs[p].threads| && s.procs[p].threads[t].Vanishing?
  {
    hide FilesOk, PairsOk;
    var pr := s.procs[p];
    assert ProcOk(s, p);
    OneSlot(s.slots, |s.procs|);
    FreeNotUnder(s.slots, p);
    if NoneActive(pr) {
      var k := FindHandle(pr.info, 0);
      assert k.Some? ==> Attached(s, p, k.value, pr.info[k.value].pipe, []);
    } else {
      var t :| 0 <= t < |pr.threads| && Active(pr.threads[t]);
      assert ThreadOk(s, p, pr.info, pr.version, pr.threads[t]) && PcFits(pr.info, pr.threads[t]);
      assert forall k :: Pending(s, p, k) ==> k == pr.threads[t].id;
    }
  }

  /** No name has two slots. */
  lemma OneSlot(slots: seq<Slot>, n: nat)
    requires SlotsOk(slots, n)
    ensures forall name: nat, j: nat, k: nat :: Under(slots, j, name) && Under(slots, k, name) ==> j == k
  {
  }

  /** A thread has the mutex exactly while it is between putting a command and taking the answer: every return, and every
    * wait for the mutex itself, is without it. */
  lemma GateIsHeldByOne<S, C, R>(sv: Service<S, C, R>, s: State<S, C, R>, actions: seq<Action<C>>, p: nat, t: nat)
    requires Init(s) && Obeys(sv, s, actions) && IsThread(Run(sv, s, actions), p, t)
    ensures var s' := Run(sv, s, actions); s'.procs[p].gate == Some(t) <==> Holds(PcOf(s', p, t))
  {
    hide Obeys, Run, After, ResultAt, SlotsOk, FilesOk, LocalOk, ThreadsOk, Quiet;
    Reachable(sv, s, actions);
    assert ProcOk(Run(sv, s, actions), p);
  }

  /** A client's response FIFO exists exactly when one slot, and no other, is connected under its name, or the daemon is
    * just answering its connect request, or has refused it and not yet removed it. */
  lemma FifoFilesExact<S, C, R>(sv: Service<S, C, R>, s: State<S, C, R>, actions: seq<Action<C>>)
    requires Init(s) && Obeys(sv, s, actions)
    ensures var s' := Run(sv, s, actions);
            && |s'.slots| == MAXNUMCLIENTS
            && (forall name: nat :: name in s'.files <==>
                 (exists k: nat :: Under(s'.slots, k, name)) || Opens(s', name) || Refuses(s', name))
            && (forall name: nat, j: nat, k: nat :: Under(s'.slots, j, name) && Under(s'.slots, k, name) ==> j == k)
            && (forall name: nat :: Opens(s', name) || Refuses(s', name) ==> NameFree(s'.slots, name))
  {
    hide Obeys, Run, After, ResultAt, ProcsOk, NameFree, Under;
    Reachable(sv, s, actions);
    var s' := Run(sv, s, actions);
    OneSlot(s'.slots, |s'.procs|);
    forall name: nat ensures NameFree(s'.slots, name) <==> forall k: nat :: !Under(s'.slots, k, name) {
      FreeNotUnder(s'.slots, name);
    }
  }

  /** The daemon opens a response FIFO only for a process with a thread trying to open it. */
  lemma OpensPolling<S, C, R>(s: State<S, C, R>) returns (t: nat)
    requires Inv(s) && s.daemon.Opening?
    ensures IsThread(s, s.daemon.name, t) && PcOf(s, s.daemon.name, t).Polling?
    ensures Enabled(s, Open(s.daemon.name, t))
  {
    hide SlotsOk, FilesOk, NameFree, Under, PairsOk;
    var p := s.daemon.name;
    var pr := s.procs[p];
    assert ProcOk(s, p) && Opens(s, p);
    t :| 0 <= t < |pr.threads| && Active(pr.threads[t]);
    assert ThreadOk(s, p, pr.info, pr.version, pr.threads[t]);
  }

  /** The slot a process's clientInfo names is its own until it begins to leave; with no entry connected, and no answer to
    * a connect to be read, it has no slot. */
  lemma LinkedHasSlot<S, C, R>(sv: Service<S, C, R>, s: State<S, C, R>, actions: seq<Action<C>>, p: nat, k: nat)
    requires Init(s) && Obeys(sv, s, actions) && p < |Run(sv, s, actions).procs| && Run(sv, s, actions).procs[p].alive
    ensures var s' := Run(sv, s, actions); var pr := s'.procs[p];
            && (Usable(pr.info, k) && (forall t :: 0 <= t < |pr.threads| ==> !pr.threads[t].Closing?) ==>
                  Under(s'.slots, k, p) && s'.slots[k].pid == p && s'.slots[k].pipe == pr.info[k].pipe)
            && (NoFlag(pr.info) && (forall t :: 0 <= t < |pr.threads| ==> !pr.threads[t].Reading?) ==> NameFree(s'.slots, p))
  {
    hide Obeys, Run, After, ResultAt, Mine, NonePending, FilesOk;
    Reachable(sv, s, actions);
    LinkedIn(Run(sv, s, actions), p, k);
  }

  lemma LinkedIn<S, C, R>(s: State<S, C, R>, p: nat, k: nat)
    requires Inv(s) && p < |s.procs| && s.procs[p].alive
    ensures var pr := s.procs[p];
            && (Usable(pr.info, k) && (forall t :: 0 <= t < |pr.threads| ==> !pr.threads[t].Closing?) ==>
                  Under(s.slots, k, p) && s.slots[k].pid == p && s.slots[k].pipe == pr.info[k].pipe)
            && (NoFlag(pr.info) && (forall t :: 0 <= t < |pr.threads| ==> !pr.threads[t].Reading?) ==> NameFree(s.slots, p))
  {
    hide Mine, NonePending, FilesOk, PairsOk;
    var pr := s.procs[p];
    assert ProcOk(s, p);
    if !NoneActive(pr) {
      var t :| 0 <= t < |pr.threads| && Active(pr.threads[t]);
      assert ThreadOk(s, p, pr.info, pr.version, pr.threads[t]) && PcFits(pr.info, pr.threads[t]);
    }
  }

  /** A thread that begins is turned away before the mutex exactly in these cases, with these statuses: a connect while the
    * process's FIFO exists, that is, while it has a slot or its request is being answered or refused; a disconnect by a
    * bad or unconnected handle; a call without any connected entry. Else it goes on, a call with the first connected entry. */
  lemma BeginExact<S, C, R>(sv: Service<S, C, R>, s: State<S, C, R>, actions: seq<Action<C>>, p: nat, t: nat, job: Job<C>)
    requires Init(s) && Obeys(sv, s, actions) && Enabled(Run(sv, s, actions), Begin(p, t, job))
    ensures var s1 := Run(sv, s, actions); var s2 := Apply(sv, s1, Begin(p, t, job));
            && IsThread(s2, p, t) && |s1.procs[p].info| == 32
            && var info, pc := s1.procs[p].info, PcOf(s2, p, t);
            match job
            case DoConnect =>
              pc == if (exists k: nat :: Under(s1.slots, k, p)) || Opens(s1, p) || Refuses(s1, p) then Turned(ACCESSDENIED) else WantGate(Join)
            case DoDisconnect(h) =>
              pc == if h >= 32 then Turned(INVALIDARG) else if !info[h].connected then Turned(NOTCONNECTED) else WantGate(Leave(h))
            case DoCall(c) =>
              if forall k :: 0 <= k < 32 ==> !info[k].connected then pc == Turned(NOTCONNECTED)
              else pc.WantGate? && pc.op.Invoke? && pc.op.c == c && var k := pc.op.k;
                   k < 32 && info[k].connected && forall j :: 0 <= j < k ==> !info[j].connected
  {
    hide Obeys, Run, After, ResultAt, NameFree, Under, SlotsOk, PipesOk, DaemonOk;
    Reachable(sv, s, actions);
    FifoFilesExact(sv, s, actions);
    var s1 := Run(sv, s, actions);
    assert ProcOk(s1, p);
    FindsFirst(s1.procs[p].info, 0);
  }

  lemma {:induction false} FindsFirst(info: seq<Info>, from: nat)
    requires from <= |info|
    ensures var r := FindHandle(info, from); r.Some? ==> forall j :: from <= j < r.value ==> !info[j].connected
    decreases |info| - from
  {
    if from < |info| { FindsFirst(info, from + 1); }
  }

  // ----- connecting and departing -----

  /** A connect request is granted exactly when the versions agree and some slot is open, and then with the lowest. */
  lemma GrantExact(slots: seq<Slot>, version: bool)
    ensures var (slot, status) := Grant(slots, version);
            && (status == SUCCESS <==> version && exists k :: 0 <= k < |slots| && !slots[k].connected)
            && (status == SUCCESS ==> slot.Some? && IsLowestOpen(slots, slot.value))
            && (status == INVALIDVERSION <==> !version)
            && (status != SUCCESS ==> slot.None?)
            && status in {SUCCESS, INVALIDVERSION, ACCESSDENIED}
  {
    if version {
      var r := LowestOpen(slots, 0);
      if r.Some? { assert !slots[r.value].connected; }
    }
  }

  /** What a client reads after connecting is true when it reads it: success means the slot it is told is its own, and
    * otherwise it has none. */
  lemma ConnectToldTrue<S, C, R>(sv: Service<S, C, R>, s: State<S, C, R>, actions: seq<Action<C>>, p: nat, t: nat)
    requires Init(s) && Obeys(sv, s, actions)
    requires IsThread(Run(sv, s, actions), p, t) && PcOf(Run(sv, s, actions), p, t).Reading?
    ensures var s' := Run(sv, s, actions); var pipe := PcOf(s', p, t).pipe;
            && pipe < |s'.pipes| && |s'.pipes[pipe].data| == 1
            && ConnectAnswer(s', p, pipe, s'.procs[p].version, s'.pipes[pipe].data[0])
  {
    hide Obeys, Run, After, ResultAt, Mine, NonePending, ConnectAnswer;
    Reachable(sv, s, actions);
    var s' := Run(sv, s, actions);
    var pr := s'.procs[p];
    assert ProcOk(s', p) && ThreadOk(s', p, pr.info, pr.version, pr.threads[t]);
  }

  /** The pids are in the order of the slots they have. */
  ghost predicate SlotOrder(slots: seq<Slot>, pids: seq<nat>) {
    forall i: nat, j: nat, k: nat, m: nat ::
      i < j < |pids| && Under(slots, k, pids[i]) && Under(slots, m, pids[j]) ==> k < m
  }

  /** Before it executes a command the daemon has the services clean up after exactly the processes that are gone and still
    * connected, once for each and in slot order, and then executes the command; none of these processes has a slot or a
    * response FIFO left. */
  lemma DepartedCleaned<S, C, R>(sv: Service<S, C, R>, s: State<S, C, R>, actions: seq<Action<C>>, p: nat)
    requires Init(s) && Obeys(sv, s, actions) && p < |s.procs|
    requires Enabled(Run(sv, s, actions), Handle)
    ensures var s1 := Run(sv, s, actions); var s2 := Apply(sv, s1, Handle);
            && |s1.procs| == |s2.procs| == |s.procs| && |s2.left| == |s1.left| + 1
            && var gone := s2.left[|s1.left|];
            && (p in gone <==> !s1.procs[p].alive && !NameFree(s1.slots, p))
            && SlotOrder(s1.slots, gone)
            && (!s1.procs[p].alive ==> NameFree(s2.slots, p) && p !in s2.files)
            && |s1.left| < |s1.sent|
            && var x := s1.sent[|s1.left|];
            s2.srv == Play(sv, s1.srv, CleanUps(gone) + if x.cmd.Call? then [Executed(x.cmd.c, x.pid)] else [])
  {
    hide Obeys, Run, After, ResultAt, Apply, Enabled, Inv, Play, CleanUps;
    Reachable(sv, s, actions);
    RunKeepsProcs(sv, s, actions);
    CleanedIn(sv, Run(sv, s, actions), p);
    AskedIn(sv, Run(sv, s, actions));
  }

  lemma AskedIn<S, C, R>(sv: Service<S, C, R>, s: State<S, C, R>)
    requires Inv(s) && Enabled(s, Handle)
    ensures var s2 := Apply(sv, s, Handle);
            && |s2.left| == |s.left| + 1 && SlotOrder(s.slots, s2.left[|s.left|]) && |s.left| < |s.sent|
            && var x := s.sent[|s.left|];
            s2.srv == Play(sv, s.srv, CleanUps(s2.left[|s.left|]) + if x.cmd.Call? then [Executed(x.cmd.c, x.pid)] else [])
  {
    hide ProcsOk, SlotsOk, FilesOk, PipesOk, DaemonOk, CleanAll, Gone, Swept, GoneNames, Named, HandleStep, CanHandle, CleanUps, SlotOrder;
    var s2 := Apply(sv, s, Handle);
    ExecutesForSender(sv, s);
    HandleHistory(sv, s);
    Recorded(sv, s);
    GoneInOrder(s.slots, |s.slots|, Alive(s), |s.procs|);
    var gone := Gone(s.slots, |s.slots|, Alive(s));
    var events: seq<Event<C>> := [];
    CleanAllPlays(sv, s.srv, events, gone);
    assert events + CleanUps(gone) == CleanUps(gone);
    var x := s.sent[|s.left|];
    if x.cmd.Call? {
      assert (CleanUps(gone) + [Executed(x.cmd.c, x.pid)])[..|CleanUps<C>(gone)|] == CleanUps(gone);
    } else {
      assert CleanUps<C>(gone) + [] == CleanUps(gone);
    }
  }

  lemma {:induction false} GoneInOrder(slots: seq<Slot>, n: nat, alive: set<nat>, procs: nat)
    requires n <= |slots| && SlotsOk(slots, procs)
    ensures SlotOrder(slots, Gone(slots, n, alive))
  {
    if n > 0 {
      GoneInOrder(slots, n - 1, alive, procs);
      var before, pids := Gone(slots, n - 1, alive), Gone(slots, n, alive);
      forall i: nat, j: nat, k: nat, m: nat | i < j < |pids| && Under(slots, k, pids[i]) && Under(slots, m, pids[j])
        ensures k < m
      {
        assert pids[i] == before[i] && before[i] in before;
        if j < |before| { assert pids[j] == before[j]; }
      }
    }
  }

  lemma CleanedIn<S, C, R>(sv: Service<S, C, R>, s: State<S, C, R>, p: nat)
    requires Inv(s) && Enabled(s, Handle) && p < |s.procs|
    ensures var s2 := Apply(sv, s, Handle);
            && |s2.left| == |s.left| + 1
            && (p in s2.left[|s.left|] <==> !s.procs[p].alive && !NameFree(s.slots, p))
            && (!s.procs[p].alive ==> NameFree(s2.slots, p) && p !in s2.files)
  {
    hide ProcsOk, CleanAll, Gone, Swept, GoneNames, Named, HandleStep, CanHandle;
    var s2 := Apply(sv, s, Handle);
    StepKeeps(sv, s, Handle);
    Recorded(sv, s);
    GoneExact(s, p);
    if s2.daemon.Opening? { var t := OpensPolling(s2); }
    if !s.procs[p].alive { NoSlotLeft(sv, s, p); }
  }

  lemma NoSlotLeft<S, C, R>(sv: Service<S, C, R>, s: State<S, C, R>, p: nat)
    requires SlotsOk(s.slots, |s.procs|) && Enabled(s, Handle) && p < |s.procs| && !s.procs[p].alive
    ensures NameFree(HandleStep(sv, s).slots, p) && HandleStep(sv, s).procs == s.procs
    ensures |HandleStep(sv, s).left| == |s.left| + 1 && HandleStep(sv, s).left[|s.left|] == Gone(s.slots, |s.slots|, Alive(s))
  {
    hide CleanAll, Gone, Swept, GoneNames, Named;
    var s2 := HandleStep(sv, s);
    assert p !in Alive(s);
    forall k | 0 <= k < |s2.slots| ensures !(s2.slots[k].connected && s2.slots[k].name == p) {
      assert s2.slots[k].connected ==> Swept(s.slots, |s.slots|, Alive(s))[k].connected;
    }
  }

  lemma Recorded<S, C, R>(sv: Service<S, C, R>, s: State<S, C, R>)
    requires Enabled(s, Handle)
    ensures |HandleStep(sv, s).left| == |s.left| + 1 && HandleStep(sv, s).left[|s.left|] == Gone(s.slots, |s.slots|, Alive(s))
    ensures HandleStep(sv, s).procs == s.procs && !HandleStep(sv, s).daemon.Refusing?
  {
    hide CleanAll, Gone, Swept, GoneNames, Named;
  }

  lemma GoneExact<S, C, R>(s: State<S, C, R>, p: nat)
    requires SlotsOk(s.slots, |s.procs|) && p < |s.procs|
    ensures p in Gone(s.slots, |s.slots|, Alive(s)) <==> !s.procs[p].alive && !NameFree(s.slots, p)
  {
    if !s.procs[p].alive && !NameFree(s.slots, p) {
      var k :| 0 <= k < |s.slots| && s.slots[k].connected && s.slots[k].name == p;
      assert Departed(s.slots[k], Alive(s)) && s.slots[k].pid == p;
    }
  }

  lemma {:induction false} RunKeepsProcs<S, C, R>(sv: Service<S, C, R>, s: State<S, C, R>, actions: seq<Action<C>>)
    requires CanRun(sv, s, actions)
    ensures |Run(sv, s, actions).procs| == |s.procs|
    decreases |actions|
  {
    hide Apply, Enabled;
    if actions != [] { RunKeepsProcs(sv, Apply(sv, s, actions[0]), actions[1..]); }
  }
}
