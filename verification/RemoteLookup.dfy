// Looking a name up across processors: a get that falls back on remote
// requests, a listener thread that takes in replies and requests, and one
// reply slot shared by all lookups. Runs without send failures and timeouts.

module RemoteGet {
  import opened Options

  /** What NameServer_getRemote reports for one processor. */
  datatype Answer = Found(value: nat) | NotFound | NoSocket | Failed(status: int)

  const NOTFOUND: int := -5
  const RESOURCE: int := -9

  function StatusOf(a: Answer): int {
    match a case Found(_) => 0 case NotFound => NOTFOUND case NoSocket => RESOURCE case Failed(s) => s
  }

  /** The answer keeps the search going. */
  predicate GoesOn(a: Answer) { a.NotFound? || a.NoSocket? }

  function ValueOf(a: Answer): Option<nat> {
    if a.Found? then Some(a.value) else None
  }

  /** Every processor before i, other than self, lets the search go on. */
  predicate AllGoOn(self: nat, remote: seq<Answer>, i: nat) {
    i <= |remote| && forall k :: 0 <= k < i && k != self ==> GoesOn(remote[k])
  }

  /** Processor i is the first to end the search. */
  predicate StopsAt(self: nat, remote: seq<Answer>, i: nat) {
    i < |remote| && i != self && !GoesOn(remote[i]) && AllGoOn(self, remote, i)
  }

  /** NameServer_get with no processor list: the local table, then every other processor in ascending order. */
  method Get(local: Option<nat>, self: nat, remote: seq<Answer>) returns (status: int, value: Option<nat>)
    requires forall a :: a in remote && a.Failed? ==> a.status < 0 && a.status != NOTFOUND && a.status != RESOURCE
    ensures local.Some? ==> status == 0 && value == local
    ensures local.None? && AllGoOn(self, remote, |remote|) ==> status == NOTFOUND && value == None
    ensures forall i: nat :: local.None? && StopsAt(self, remote, i) ==> status == StatusOf(remote[i]) && value == ValueOf(remote[i])
  {
    status := if local.Some? then 0 else NOTFOUND;
    value := local;
    if status == NOTFOUND {
      var i: nat := 0;
      while i < |remote|
        invariant status == NOTFOUND || status == RESOURCE
        invariant value == None
        invariant AllGoOn(self, remote, i)
      {
        if i != self {
          status := StatusOf(remote[i]);
          if remote[i].Found? { value := Some(remote[i].value); }
          if status >= 0 || (status < 0 && status != NOTFOUND && status != RESOURCE) {
            break;
          }
        }
        i := i + 1;
      }
    }
    if status == RESOURCE { status := NOTFOUND; }
  }
}

module RemoteLookup {
  import opened Bags
  import opened Options

  /** An instance name and an entry name. */
  datatype Query = Query(instanceName: string, name: string)

  datatype Msg = Request(q: Query) | Response(q: Query, found: bool, value: nat)

  datatype Main =
    | Ready
    | Scan(q: Query, i: nat)            // NameServer_get about to try processor i
    | Waiting(q: Query, i: nat)         // in NameServer_getRemote's select on waitFd
    | Done(q: Query, result: Option<nat>)

  datatype Listener = Selecting | Storing     // in select; reply copied to nsMsg, eventfd not yet written

  datatype State = State(
    self: nat, tables: seq<map<Query, nat>>, sock: seq<bool>,
    main: Main, listener: Listener,
    nsMsg: Msg, waitFd: nat,
    toRemote: seq<seq<Msg>>, fromRemote: seq<seq<Msg>>)

  /** A table's answer to a query, as a message. */
  function Reply(table: map<Query, nat>, q: Query): Msg {
    if q in table then Response(q, true, table[q]) else Response(q, false, 0)
  }

  datatype Action =
    | Get(q: Query) | Try | Wake | Return            // the daemon's main thread
    | Take(i: nat) | Notify                          // the listener thread
    | Serve(i: nat) | Ask(i: nat, q: Query)          // remote processor i
    | Change(i: nat, table: map<Query, nat>)         // names added or removed on processor i

  predicate Wellformed(s: State) {
    && s.self < |s.tables| == |s.sock| == |s.toRemote| == |s.fromRemote|
  }

  predicate Enabled(s: State, a: Action) {
    Wellformed(s) &&
    match a
    case Get(_) => s.main.Ready?
    case Try => s.main.Scan?
    case Wake => s.main.Waiting? && s.waitFd > 0
    case Return => s.main.Done?
    case Take(i) => s.listener.Selecting? && i < |s.tables| && i != s.self && s.fromRemote[i] != []
    case Notify => s.listener.Storing?
    case Serve(i) => i < |s.tables| && i != s.self && s.toRemote[i] != []
    case Ask(i, _) => i < |s.tables| && i != s.self
    // scope: no table changes while a lookup is under way
    case Change(i, _) => i < |s.tables| && s.main.Ready?
  }

  function Send(chans: seq<seq<Msg>>, i: nat, m: Msg): seq<seq<Msg>>
    requires i < |chans|
  {
    chans[i := chans[i] + [m]]
  }

  function Apply(s: State, a: Action): State
    requires Enabled(s, a)
  {
    match a
    case Get(q) =>
      if q in s.tables[s.self] then s.(main := Done(q, Some(s.tables[s.self][q]))) else s.(main := Scan(q, 0))
    case Try =>
      var Scan(q, i) := s.main;
      if i >= |s.tables| then s.(main := Done(q, None))
      else if i == s.self || !s.sock[i] then s.(main := Scan(q, i + 1))
      else s.(main := Waiting(q, i), toRemote := Send(s.toRemote, i, Request(q)))
    case Wake =>
      // reading the eventfd takes its whole count
      var Waiting(q, i) := s.main;
      s.(waitFd := 0,
         main := if s.nsMsg.Response? && s.nsMsg.found then Done(q, Some(s.nsMsg.value)) else Scan(q, i + 1))
    case Return => s.(main := Ready)
    case Take(i) =>
      // NameServerRemote_processMessage
      var m := s.fromRemote[i][0];
      var s1 := s.(fromRemote := s.fromRemote[i := s.fromRemote[i][1..]]);
      if m.Request? then s1.(toRemote := Send(s.toRemote, i, Reply(s.tables[s.self], m.q)))
      else s1.(nsMsg := m, listener := Storing)
    case Notify => s.(waitFd := s.waitFd + 1, listener := Selecting)
    case Serve(i) =>
      // the remote answers a request; a reply to a request of its own it keeps
      var m := s.toRemote[i][0];
      var s1 := s.(toRemote := s.toRemote[i := s.toRemote[i][1..]]);
      if m.Request? then s1.(fromRemote := Send(s.fromRemote, i, Reply(s.tables[i], m.q))) else s1
    case Ask(i, q) => s.(fromRemote := Send(s.fromRemote, i, Request(q)))
    case Change(i, table) => s.(tables := s.tables[i := table])
  }

  predicate Init(s: State) {
    && Wellformed(s) && s.main.Ready? && s.listener.Selecting? && s.waitFd == 0
    && (forall i :: 0 <= i < |s.toRemote| ==> s.toRemote[i] == [] && s.fromRemote[i] == [])
  }

  // ----- what a lookup should return -----

  /** Processor i is asked, and has the name. */
  predicate Holds(s: State, q: Query, i: nat) {
    i < |s.tables| && i < |s.sock| && i != s.self && s.sock[i] && q in s.tables[i]
  }

  /** Processor i has the name and none before it does. */
  predicate FoundAt(s: State, q: Query, i: nat) {
    Holds(s, q, i) && forall k: nat :: k < i ==> !Holds(s, q, k)
  }

  /** The value at self, else at the first processor with a socket that has it, in ascending order. */
  ghost predicate IsFirst(s: State, q: Query, result: Option<nat>) {
    s.self < |s.tables| &&
    if q in s.tables[s.self] then result == Some(s.tables[s.self][q])
    else if exists i: nat :: Holds(s, q, i) then
      exists i: nat :: FoundAt(s, q, i) && result == Some(s.tables[i][q])
    else result == None
  }

  // ----- the invariant: at most one thing is under way -----

  function IsRequest(m: Msg, u: ()): nat { if m.Request? then 1 else 0 }
  function IsResponse(m: Msg, u: ()): nat { if m.Response? then 1 else 0 }
  function Requests(ch: seq<Msg>, u: ()): nat { Count(ch, IsRequest, u) }
  function Responses(ch: seq<Msg>, u: ()): nat { Count(ch, IsResponse, u) }

  /** Requests of ours, replies in transit, a reply being stored, and wake-ups not yet taken. */
  function UnderWay(s: State): nat {
    Count(s.toRemote, Requests, ()) + Count(s.fromRemote, Responses, ()) + (if s.listener.Storing? then 1 else 0) + s.waitFd
  }

  /** What is under way belongs to the lookup at processor i. */
  predicate Belongs(s: State, q: Query, i: nat) {
    && Wellformed(s) && i < |s.tables| && i != s.self && s.sock[i]
    && (forall k, m :: 0 <= k < |s.toRemote| && m in s.toRemote[k] && m.Request? ==> k == i && m == Request(q))
    && (forall k, m :: 0 <= k < |s.fromRemote| && m in s.fromRemote[k] && m.Response? ==> k == i && m == Reply(s.tables[i], q))
    && (s.listener.Storing? || s.waitFd > 0 ==> s.nsMsg == Reply(s.tables[i], q))
  }

  /** The processors before i do not have the name. */
  predicate Excluded(s: State, q: Query, i: nat) {
    && s.self < |s.tables| && q !in s.tables[s.self]
    && forall k: nat :: k < i ==> !Holds(s, q, k)
  }

  ghost predicate Inv(s: State) {
    && Wellformed(s)
    && UnderWay(s) == (if s.main.Waiting? then 1 else 0)
    && (s.main.Waiting? ==> Belongs(s, s.main.q, s.main.i) && Excluded(s, s.main.q, s.main.i))
    && (s.main.Scan? ==> Excluded(s, s.main.q, s.main.i))
    && (s.main.Done? ==> IsFirst(s, s.main.q, s.main.result))
  }

  // ----- every step keeps it -----

  lemma SendCounts(chans: seq<seq<Msg>>, i: nat, m: Msg)
    requires i < |chans|
    ensures Count(Send(chans, i, m), Requests, ()) == Count(chans, Requests, ()) + IsRequest(m, ())
    ensures Count(Send(chans, i, m), Responses, ()) == Count(chans, Responses, ()) + IsResponse(m, ())
    ensures forall k, x :: 0 <= k < |chans| && x in Send(chans, i, m)[k] ==> x in chans[k] || (k == i && x == m)
  {
    hide Count;
    CountUpdate(chans, i, chans[i] + [m], Requests, ());
    CountUpdate(chans, i, chans[i] + [m], Responses, ());
    CountAppend(chans[i], m, IsRequest, ());
    CountAppend(chans[i], m, IsResponse, ());
  }

  lemma TakeCounts(chans: seq<seq<Msg>>, i: nat)
    requires i < |chans| && chans[i] != []
    ensures var chans' := chans[i := chans[i][1..]]; var m := chans[i][0];
            && Count(chans', Requests, ()) + IsRequest(m, ()) == Count(chans, Requests, ())
            && Count(chans', Responses, ()) + IsResponse(m, ()) == Count(chans, Responses, ())
            && forall k, x :: 0 <= k < |chans| && x in chans'[k] ==> x in chans[k]
  {
    hide Count;
    CountUpdate(chans, i, chans[i][1..], Requests, ());
    CountUpdate(chans, i, chans[i][1..], Responses, ());
    CountDrop(chans[i], 0, IsRequest, ());
    CountDrop(chans[i], 0, IsResponse, ());
    assert chans[i][..0] + chans[i][1..] == chans[i][1..];
  }

  lemma {:induction false} NoneCounted(chans: seq<seq<Msg>>, k: nat, m: Msg)
    requires k < |chans| && m in chans[k]
    ensures m.Request? ==> Count(chans, Requests, ()) > 0
    ensures m.Response? ==> Count(chans, Responses, ()) > 0
  {
    hide Count;
    var j :| 0 <= j < |chans[k]| && chans[k][j] == m;
    CountUpdate(chans[k], j, m, IsRequest, ());
    CountUpdate(chans[k], j, m, IsResponse, ());
    CountUpdate(chans, k, chans[k], Requests, ());
    CountUpdate(chans, k, chans[k], Responses, ());
  }

  lemma MainKeeps(s: State, a: Action)
    requires Inv(s) && Enabled(s, a) && (a.Get? || a.Try? || a.Wake? || a.Return?)
    ensures Inv(Apply(s, a))
  {
    hide Count;
    var s' := Apply(s, a);
    match a
    case Get(q) =>
    case Try =>
      var Scan(q, i) := s.main;
      if i < |s.tables| && i != s.self && s.sock[i] {
        SendCounts(s.toRemote, i, Request(q));
        forall k, m | 0 <= k < |s.toRemote| && m in s.toRemote[k] ensures !m.Request? { NoneCounted(s.toRemote, k, m); }
        forall k, m | 0 <= k < |s.fromRemote| && m in s.fromRemote[k] ensures !m.Response? { NoneCounted(s.fromRemote, k, m); }
      }
      assert forall k: nat :: Holds(s', q, k) <==> Holds(s, q, k);
    case Wake =>
      var Waiting(q, i) := s.main;
      if q in s.tables[i] {
        assert Holds(s', q, i);
        assert forall k: nat :: Holds(s', q, k) <==> Holds(s, q, k);
        assert FoundAt(s', q, i);
      } else {
        assert !Holds(s', q, i);
        assert forall k: nat :: Holds(s', q, k) <==> Holds(s, q, k);
      }
    case Return =>
  }

  lemma OthersKeep(s: State, a: Action)
    requires Inv(s) && Enabled(s, a) && (a.Take? || a.Notify? || a.Serve? || a.Ask? || a.Change?)
    ensures Inv(Apply(s, a))
  {
    hide Count, IsFirst;
    var s' := Apply(s, a);
    match a {
    case Take(i) =>
      var m := s.fromRemote[i][0];
      TakeCounts(s.fromRemote, i);
      NoneCounted(s.fromRemote, i, m);
      if m.Request? { SendCounts(s.toRemote, i, Reply(s.tables[s.self], m.q)); }
    case Notify =>
    case Serve(i) =>
      var m := s.toRemote[i][0];
      TakeCounts(s.toRemote, i);
      NoneCounted(s.toRemote, i, m);
      if m.Request? { SendCounts(s.fromRemote, i, Reply(s.tables[i], m.q)); }
    case Ask(i, q) => SendCounts(s.fromRemote, i, Request(q));
    case Change(i, table) =>
    }
    if s.main.Done? {
      SameFirst(s, s', s.main.q, s.main.result);
    } else if s.main.Scan? || s.main.Waiting? {
      assert forall k: nat :: Holds(s', s.main.q, k) <==> Holds(s, s.main.q, k);
    }
  }

  lemma SameFirst(s: State, s': State, q: Query, result: Option<nat>)
    requires s'.self == s.self && s'.tables == s.tables && s'.sock == s.sock
    requires IsFirst(s, q, result)
    ensures IsFirst(s', q, result)
    ensures forall k: nat :: Holds(s', q, k) <==> Holds(s, q, k)
  {
    assert forall k: nat :: Holds(s', q, k) <==> Holds(s, q, k);
    assert forall k: nat :: FoundAt(s', q, k) <==> FoundAt(s, q, k);
  }

  lemma InvKept(s: State, a: Action)
    requires Inv(s) && Enabled(s, a)
    ensures Inv(Apply(s, a))
  {
    hide Inv, Enabled, Apply;
    if a.Get? || a.Try? || a.Wake? || a.Return? { MainKeeps(s, a); } else { OthersKeep(s, a); }
  }

  // ----- runs -----

  predicate CanRun(s: State, actions: seq<Action>)
    decreases |actions|
  {
    actions == [] || (Enabled(s, actions[0]) && CanRun(Apply(s, actions[0]), actions[1..]))
  }

  function Run(s: State, actions: seq<Action>): State
    requires CanRun(s, actions)
    decreases |actions|
  {
    if actions == [] then s else Run(Apply(s, actions[0]), actions[1..])
  }

  lemma InitInv(s: State)
    requires Init(s)
    ensures Inv(s)
  {
    if Count(s.toRemote, Requests, ()) > 0 { var i := UptoMember(s.toRemote, |s.toRemote|, Requests, ()); }
    if Count(s.fromRemote, Responses, ()) > 0 { var i := UptoMember(s.fromRemote, |s.fromRemote|, Responses, ()); }
  }

  lemma {:induction false} RunInv(s: State, actions: seq<Action>)
    requires Inv(s) && CanRun(s, actions)
    ensures Inv(Run(s, actions))
    decreases |actions|
  {
    hide Inv, Enabled, Apply;
    if actions != [] {
      InvKept(s, actions[0]);
      RunInv(Apply(s, actions[0]), actions[1..]);
    }
  }

  /** In every run, whatever the other processors ask meanwhile and whatever names come and go between lookups, a get that
    * returns returns the value of the first processor holding the name, and not-found exactly when none does. */
  lemma GetReturnsFirst(s: State, actions: seq<Action>)
    requires Init(s) && CanRun(s, actions) && Run(s, actions).main.Done?
    ensures var s' := Run(s, actions); var Done(q, result) := s'.main;
            && IsFirst(s', q, result)
            && (result.None? <==> q !in s'.tables[s'.self] && forall i: nat :: !Holds(s', q, i))
  {
    hide Enabled, Apply, Run, CanRun, UnderWay;
    InitInv(s);
    RunInv(s, actions);
  }

  /** Outstanding requests, replies in transit and pending wake-ups total at most one, and none outside a lookup: the
    * shared reply slot is never overwritten before it is read. */
  lemma OneUnderWay(s: State, actions: seq<Action>)
    requires Init(s) && CanRun(s, actions)
    ensures var s' := Run(s, actions); UnderWay(s') == if s'.main.Waiting? then 1 else 0
  {
    hide Enabled, Apply, Run, CanRun, UnderWay;
    InitInv(s);
    RunInv(s, actions);
  }

  // ----- what other processors are answered -----

  /** What step a sends to processor i. */
  function SentTo(s: State, a: Action, i: nat): seq<Msg>
    requires Enabled(s, a)
  {
    var s' := Apply(s, a);
    if i < |s.toRemote| && i < |s'.toRemote| && |s'.toRemote[i]| > |s.toRemote[i]| then s'.toRemote[i][|s.toRemote[i]|..] else []
  }

  /** The response tells what the table has under the name asked for. */
  predicate Truthful(m: Msg, table: map<Query, nat>) {
    m.Response? ==> (m.found <==> m.q in table) && (m.found ==> m.value == table[m.q])
  }

  /** The names of the responses among the messages, and of the requests. */
  function Answered(ms: seq<Msg>): seq<Query> {
    if ms == [] then [] else (if ms[0].Response? then [ms[0].q] else []) + Answered(ms[1..])
  }

  function Asked(ms: seq<Msg>): seq<Query> {
    if ms == [] then [] else (if ms[0].Request? then [ms[0].q] else []) + Asked(ms[1..])
  }

  lemma {:induction false} AskedMore(ms: seq<Msg>, m: Msg)
    ensures Asked(ms + [m]) == Asked(ms) + if m.Request? then [m.q] else []
  {
    if ms != [] {
      AskedMore(ms[1..], m);
      assert (ms + [m])[1..] == ms[1..] + [m];
    }
  }

  /** Step a leaves the processors as they are, and answers to processor i truly what it then no longer asks. */
  predicate Answers(s: State, a: Action, i: nat)
    requires Enabled(s, a) && i < |s.tables|
  {
    var s' := Apply(s, a);
    && Wellformed(s') && |s'.tables| == |s.tables| && s'.self == s.self
    && (forall m :: m in SentTo(s, a, i) ==> Truthful(m, s.tables[s.self]))
    && Answered(SentTo(s, a, i)) + Asked(s'.fromRemote[i]) == Asked(s.fromRemote[i]) + if a.Ask? && a.i == i then [a.q] else []
  }

  lemma TakeAnswers(s: State, k: nat, i: nat)
    requires Enabled(s, Take(k)) && i < |s.tables|
    ensures Answers(s, Take(k), i)
  {
    if k == i { assert s.fromRemote[i] == [s.fromRemote[i][0]] + s.fromRemote[i][1..]; }
  }

  lemma ServeAnswers(s: State, k: nat, i: nat)
    requires Enabled(s, Serve(k)) && i < |s.tables|
    ensures Answers(s, Serve(k), i)
  {
    if k == i && s.toRemote[i][0].Request? { AskedMore(s.fromRemote[i], Reply(s.tables[i], s.toRemote[i][0].q)); }
  }

  /** One step answers at most one request, with what the own table then has; a request arriving waits its turn. */
  lemma AnswerStep(s: State, a: Action, i: nat)
    requires Enabled(s, a) && i < |s.tables|
    ensures Answers(s, a, i)
  {
    hide Answers, Enabled;
    match a
    case Take(k) => TakeAnswers(s, k, i);
    case Serve(k) => ServeAnswers(s, k, i);
    case _ => OthersAnswer(s, a, i);
  }

  lemma OthersAnswer(s: State, a: Action, i: nat)
    requires Enabled(s, a) && i < |s.tables| && !a.Take? && !a.Serve?
    ensures Answers(s, a, i)
  {
    if a.Ask? { AskedMore(s.fromRemote[a.i], Request(a.q)); }
  }

  /** What a run sends to processor i. */
  function AllSentTo(s: State, actions: seq<Action>, i: nat): seq<Msg>
    requires CanRun(s, actions)
    decreases |actions|
  {
    if actions == [] then [] else SentTo(s, actions[0], i) + AllSentTo(Apply(s, actions[0]), actions[1..], i)
  }

  /** What processor i asks in a run. */
  function AskedBy(actions: seq<Action>, i: nat): seq<Query> {
    if actions == [] then []
    else (if actions[0].Ask? && actions[0].i == i then [actions[0].q] else []) + AskedBy(actions[1..], i)
  }

  lemma {:induction false} AnsweredJoin(xs: seq<Msg>, ys: seq<Msg>)
    ensures Answered(xs + ys) == Answered(xs) + Answered(ys)
  {
    if xs == [] {
      assert xs + ys == ys;
    } else {
      AnsweredJoin(xs[1..], ys);
      assert (xs + ys)[1..] == xs[1..] + ys;
    }
  }

  lemma NothingAnswered()
    ensures Answered([]) == []
  {
  }

  lemma {:induction false} AnswersRun(s: State, actions: seq<Action>, i: nat)
    requires Wellformed(s) && CanRun(s, actions) && i < |s.tables|
    ensures i < |Run(s, actions).fromRemote|
    ensures Answered(AllSentTo(s, actions, i)) + Asked(Run(s, actions).fromRemote[i]) == Asked(s.fromRemote[i]) + AskedBy(actions, i)
    decreases |actions|
  {
    hide Enabled, Apply, SentTo, Asked, Answered;
    if actions == [] {
      NothingAnswered();
    } else {
      var s1, rest := Apply(s, actions[0]), actions[1..];
      AnswerStep(s, actions[0], i);
      AnswersRun(s1, rest, i);
      AnsweredJoin(SentTo(s, actions[0], i), AllSentTo(s1, rest, i));
      Regroup(Answered(SentTo(s, actions[0], i)), Answered(AllSentTo(s1, rest, i)), Asked(Run(s1, rest).fromRemote[i]),
              Asked(s1.fromRemote[i]), AskedBy(rest, i), Asked(s.fromRemote[i]),
              if actions[0].Ask? && actions[0].i == i then [actions[0].q] else []);
    }
  }

  lemma Regroup<T>(now: seq<T>, later: seq<T>, left: seq<T>, next: seq<T>, asks: seq<T>, before: seq<T>, ask: seq<T>)
    requires now + next == before + ask && later + left == next + asks
    ensures (now + later) + left == before + (ask + asks)
  {
    assert (now + later) + left == now + (next + asks) == (now + next) + asks == before + (ask + asks);
  }

  /** Every request of another processor is answered once, in the order they were made, but for those still waiting. */
  lemma RequestsAnsweredInOrder(s: State, actions: seq<Action>, i: nat)
    requires Init(s) && CanRun(s, actions) && i < |s.tables|
    ensures i < |Run(s, actions).fromRemote|
    ensures Answered(AllSentTo(s, actions, i)) + Asked(Run(s, actions).fromRemote[i]) == AskedBy(actions, i)
  {
    hide Run, CanRun, AllSentTo;
    AnswersRun(s, actions, i);
  }

  /** A waiting lookup is never stuck: what it waits for is with the remote, in transit, or with the listener. */
  lemma NotStuck(s: State, actions: seq<Action>) returns (a: Action)
    requires Init(s) && CanRun(s, actions) && Run(s, actions).main.Waiting?
    ensures Enabled(Run(s, actions), a) && (a.Serve? || a.Take? || a.Notify? || a.Wake?)
  {
    hide Inv, Apply, Run, CanRun, Count;
    InitInv(s);
    RunInv(s, actions);
    a := WaitingMoves(Run(s, actions));
  }

  lemma WaitingMoves(s: State) returns (a: Action)
    requires Inv(s) && s.main.Waiting?
    ensures Enabled(s, a) && (a.Serve? || a.Take? || a.Notify? || a.Wake?)
  {
    hide Count, IsFirst;
    var i := s.main.i;
    if s.waitFd > 0 {
      a := Wake;
    } else if s.listener.Storing? {
      a := Notify;
    } else if Count(s.toRemote, Requests, ()) > 0 {
      var k, m := SomeRequest(s.toRemote);
      a := Serve(i);
    } else {
      var k, m := SomeResponse(s.fromRemote);
      a := Take(i);
    }
  }

  lemma SomeRequest(chans: seq<seq<Msg>>) returns (k: nat, m: Msg)
    requires Count(chans, Requests, ()) > 0
    ensures k < |chans| && m in chans[k] && m.Request?
  {
    k := UptoMember(chans, |chans|, Requests, ());
    var j := UptoMember(chans[k], |chans[k]|, IsRequest, ());
    m := chans[k][j];
  }

  lemma SomeResponse(chans: seq<seq<Msg>>) returns (k: nat, m: Msg)
    requires Count(chans, Responses, ()) > 0
    ensures k < |chans| && m in chans[k] && m.Response?
  {
    k := UptoMember(chans, |chans|, Responses, ());
    var j := UptoMember(chans[k], |chans[k]|, IsResponse, ());
    m := chans[k][j];
  }

  // ----- every get returns -----

  function ToWeight(m: Msg, u: ()): nat { if m.Request? then 4 else 1 }
  function FromWeight(m: Msg, u: ()): nat { if m.Request? then 2 else 3 }
  function ToWork(ch: seq<Msg>, u: ()): nat { Count(ch, ToWeight, u) }
  function FromWork(ch: seq<Msg>, u: ()): nat { Count(ch, FromWeight, u) }

  function MainWork(m: Main, n: nat): nat {
    match m
    case Ready => 0
    case Scan(_, i) => if i < n then 10 * (n - i) + 1 else 1
    case Waiting(_, i) => if i < n then 10 * (n - i) - 5 else 1
    case Done(_, _) => 0
  }

  /** How many steps are still owed, at most. */
  function Work(s: State): nat {
    Count(s.toRemote, ToWork, ()) + Count(s.fromRemote, FromWork, ()) + (if s.listener.Storing? then 2 else 0) + s.waitFd
    + MainWork(s.main, |s.tables|)
  }

  /** A step by which what is under way goes on. */
  predicate Internal(a: Action) { a.Try? || a.Wake? || a.Take? || a.Notify? || a.Serve? }

  lemma SendWork(chans: seq<seq<Msg>>, i: nat, m: Msg)
    requires i < |chans|
    ensures Count(Send(chans, i, m), ToWork, ()) == Count(chans, ToWork, ()) + ToWeight(m, ())
    ensures Count(Send(chans, i, m), FromWork, ()) == Count(chans, FromWork, ()) + FromWeight(m, ())
  {
    hide Count;
    CountUpdate(chans, i, chans[i] + [m], ToWork, ());
    CountUpdate(chans, i, chans[i] + [m], FromWork, ());
    CountAppend(chans[i], m, ToWeight, ());
    CountAppend(chans[i], m, FromWeight, ());
  }

  lemma TakeWork(chans: seq<seq<Msg>>, i: nat)
    requires i < |chans| && chans[i] != []
    ensures var chans' := chans[i := chans[i][1..]]; var m := chans[i][0];
            && Count(chans', ToWork, ()) + ToWeight(m, ()) == Count(chans, ToWork, ())
            && Count(chans', FromWork, ()) + FromWeight(m, ()) == Count(chans, FromWork, ())
  {
    hide Count;
    CountUpdate(chans, i, chans[i][1..], ToWork, ());
    CountUpdate(chans, i, chans[i][1..], FromWork, ());
    CountDrop(chans[i], 0, ToWeight, ());
    CountDrop(chans[i], 0, FromWeight, ());
    assert chans[i][..0] + chans[i][1..] == chans[i][1..];
  }

  lemma WorkDrops(s: State, a: Action)
    requires Inv(s) && Enabled(s, a) && Internal(a)
    ensures Work(Apply(s, a)) < Work(s)
  {
    hide Count, IsFirst, UnderWay;
    match a
    case Try =>
      var Scan(q, i) := s.main;
      if i < |s.tables| { SendWork(s.toRemote, i, Request(q)); }
    case Wake =>
    case Take(i) =>
      var m := s.fromRemote[i][0];
      TakeWork(s.fromRemote, i);
      if m.Request? { SendWork(s.toRemote, i, Reply(s.tables[s.self], m.q)); }
    case Notify =>
    case Serve(i) =>
      var m := s.toRemote[i][0];
      TakeWork(s.toRemote, i);
      if m.Request? { SendWork(s.fromRemote, i, Reply(s.tables[i], m.q)); }
    case _ =>
  }

  lemma {:induction false} InternalRunsEnd(s: State, actions: seq<Action>)
    requires Inv(s) && CanRun(s, actions) && forall a :: a in actions ==> Internal(a)
    ensures |actions| <= Work(s)
    decreases |actions|
  {
    hide Inv, Enabled, Apply, Work, Internal;
    if actions != [] {
      assert actions[0] in actions;
      InvKept(s, actions[0]);
      WorkDrops(s, actions[0]);
      InternalRunsEnd(Apply(s, actions[0]), actions[1..]);
    }
  }

  /** A get always returns: from any reachable state, without new requests and lookups, the steps are bounded in number, and
    * where none is left no lookup is under way. */
  lemma EveryGetReturns(s: State, before: seq<Action>, actions: seq<Action>)
    requires Init(s) && CanRun(s, before) && CanRun(Run(s, before), actions) && forall a :: a in actions ==> Internal(a)
    ensures |actions| <= Work(Run(s, before))
    ensures var s' := Run(Run(s, before), actions);
            (forall a :: Internal(a) ==> !Enabled(s', a)) ==> s'.main.Ready? || s'.main.Done?
  {
    hide Inv, Apply, Run, CanRun, Work, Count;
    InitInv(s);
    RunInv(s, before);
    var s1 := Run(s, before);
    InternalRunsEnd(s1, actions);
    RunInv(s1, actions);
    var s' := Run(s1, actions);
    if forall a :: Internal(a) ==> !Enabled(s', a) {
      ScanMoves(s');
      if s'.main.Waiting? { var a := WaitingMoves(s'); }
    }
  }

  lemma ScanMoves(s: State)
    requires Inv(s)
    ensures s.main.Scan? ==> Enabled(s, Try)
  {
  }
}
