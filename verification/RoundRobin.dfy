// MessageQ_get: which endpoint a message is taken from, and that none that
// stays ready is passed over for long.

module RoundRobin {
  import opened Options

  const SUCCESS: int := 0
  const FAIL: int := -1
  const TIMEOUT: int := -6
  const UNBLOCKED: int := -19

  const INVALIDSOCKET: int := 0xFFFF_FFFF

  /** What select reports: nothing in time, or which descriptors are readable. */
  datatype Select = TimedOut | Woken(unblock: bool, isSet: set<int>)

  /** Steps from a to e, going up and around past n - 1 to 0. */
  function Dist(a: nat, e: nat, n: nat): (d: nat)
    requires a < n && e < n
    ensures d < n
  {
    if a <= e then e - a else n - a + e
  }

  /** The endpoint after r, going around. */
  function Next(r: nat, n: nat): (s: nat)
    requires r < n
    ensures s == if r == n - 1 then 0 else r + 1
  {
    (r + 1) % n
  }

  /** Endpoint r would be taken from: it is not the own processor, has a socket, and the socket is readable. */
  predicate Ready(fd: seq<int>, self: nat, isSet: set<int>, r: nat) {
    r < |fd| && r != self && fd[r] != INVALIDSOCKET && fd[r] in isSet
  }

  /** Endpoint r is the first ready one going around from the cursor. */
  ghost predicate Nearest(fd: seq<int>, self: nat, isSet: set<int>, cursor: nat, r: nat)
    requires cursor < |fd|
  {
    && Ready(fd, self, isSet, r)
    && forall e: nat :: Ready(fd, self, isSet, e) ==> Dist(cursor, r, |fd|) <= Dist(cursor, e, |fd|)
  }

  /** The cursor is a static of the function, not of the queue. */
  class Receiver {
    const self: nat
    var fd: seq<int>
    var last: nat

    ghost predicate Valid()
      reads this
    {
      last < |fd|
    }

    /** At most one probe per processor; transport holds what transportGet reports for each. */
    method Get(sel: Select, transport: seq<int>) returns (status: int, from: Option<nat>, probes: nat)
      requires Valid() && |transport| == |fd|
      modifies this`last
      ensures Valid() && probes <= |fd|
      ensures sel.TimedOut? ==> status == TIMEOUT && from.None? && last == old(last)
      ensures sel.Woken? && sel.unblock ==> status == UNBLOCKED && from.None? && last == old(last)
      ensures sel.Woken? && !sel.unblock ==>
                (from.None? <==> forall e: nat :: !Ready(fd, self, sel.isSet, e))
      ensures sel.Woken? && !sel.unblock && from.None? ==> status == SUCCESS && last == old(last)
      ensures from.Some? ==>
                && sel.Woken? && Nearest(fd, self, sel.isSet, old(last), from.value)
                && last == Next(from.value, |fd|)
                && status == if transport[from.value] < 0 then FAIL else SUCCESS
    {
      hide Next;
      status, from, probes := SUCCESS, None, 0;
      match sel
      case TimedOut => status := TIMEOUT;
      case Woken(unblock, isSet) =>
        if unblock { return UNBLOCKED, None, 0; }
        var n: nat := |fd|;
        var r: nat := last;
        while true
          invariant probes < n && r < n && Dist(last, r, n) == probes && last == old(last)
          invariant status == SUCCESS && from.None?
          invariant forall e: nat :: e < n && Dist(last, e, n) < probes ==> !Ready(fd, self, isSet, e)
          decreases n - probes
        {
          probes := probes + 1;
          if r != self && fd[r] != INVALIDSOCKET && fd[r] in isSet {
            assert Ready(fd, self, isSet, r);
            if transport[r] < 0 { status := FAIL; }
            from := Some(r);
            last := Next(r, n);
            return;
          }
          r := Next(r, n);
          if r == last { break; }
        }
    }
  }

  // ----- bounded bypass -----

  /** One call of MessageQ_get on a queue with sockets fd, and the endpoint it took a message from, if any. */
  datatype Call = NoFetch | Fetch(fd: seq<int>, isSet: set<int>, r: nat)

  /** A run of calls, each fetching from where MessageQ_get takes it. */
  ghost predicate Follows(n: nat, self: nat, cursor: nat, calls: seq<Call>)
    decreases |calls|
  {
    cursor < n &&
    (calls == [] ||
     match calls[0]
     case NoFetch => Follows(n, self, cursor, calls[1..])
     case Fetch(fd, isSet, r) => |fd| == n && Nearest(fd, self, isSet, cursor, r) && Follows(n, self, Next(r, n), calls[1..]))
  }

  function Fetches(calls: seq<Call>): nat {
    if calls == [] then 0 else (if calls[0].Fetch? then 1 else 0) + Fetches(calls[1..])
  }

  /** Endpoint e is readable at every call that fetches. */
  predicate AlwaysReady(self: nat, e: nat, calls: seq<Call>) {
    forall i :: 0 <= i < |calls| && calls[i].Fetch? ==> Ready(calls[i].fd, self, calls[i].isSet, e)
  }

  predicate NeverServed(e: nat, calls: seq<Call>) {
    forall i :: 0 <= i < |calls| && calls[i].Fetch? ==> calls[i].r != e
  }

  /** Processors other than self from a up to, not including, e. */
  function Between(a: nat, e: nat, self: nat, n: nat): nat
    requires a < n && e < n
    decreases Dist(a, e, n)
  {
    if a == e then 0 else (if a == self then 0 else 1) + Between(Next(a, n), e, self, n)
  }

  lemma {:induction false} BetweenBound(a: nat, e: nat, self: nat, n: nat)
    requires a < n && e < n
    ensures Between(a, e, self, n) <= Dist(a, e, n)
    ensures self < n && self != e && Dist(a, self, n) < Dist(a, e, n) ==> Between(a, e, self, n) == Dist(a, e, n) - 1
    ensures self < n && Dist(a, e, n) <= Dist(a, self, n) ==> Between(a, e, self, n) == Dist(a, e, n)
    decreases Dist(a, e, n)
  {
    hide Next;
    if a != e { BetweenBound(Next(a, n), e, self, n); }
  }

  /** Serving another endpoint on the way moves the cursor past at least that one. */
  lemma {:induction false} ServingApproaches(a: nat, r: nat, e: nat, self: nat, n: nat)
    requires a < n && e < n && r < n && r != self && r != e && Dist(a, r, n) < Dist(a, e, n)
    ensures Between(Next(r, n), e, self, n) < Between(a, e, self, n)
    decreases Dist(a, r, n)
  {
    hide Next;
    if a != r { ServingApproaches(Next(a, n), r, e, self, n); }
  }

  lemma {:induction false} BypassMeasure(n: nat, self: nat, e: nat, cursor: nat, calls: seq<Call>)
    requires Follows(n, self, cursor, calls) && AlwaysReady(self, e, calls) && NeverServed(e, calls) && e < n
    ensures Fetches(calls) <= Between(cursor, e, self, n)
    decreases |calls|
  {
    if calls != [] {
      var rest := calls[1..];
      assert forall i :: 0 <= i < |rest| ==> rest[i] == calls[i + 1];
      match calls[0]
      case NoFetch => BypassMeasure(n, self, e, cursor, rest);
      case Fetch(fd, isSet, r) =>
        assert Ready(fd, self, isSet, e);
        SameDist(cursor, r, e, n);
        BypassMeasure(n, self, e, Next(r, n), rest);
        ServingApproaches(cursor, r, e, self, n);
    }
  }

  lemma SameDist(a: nat, r: nat, e: nat, n: nat)
    requires a < n && r < n && e < n
    ensures Dist(a, r, n) == Dist(a, e, n) <==> r == e
  {
  }

  /** An endpoint ready at every call that fetches a message is served within n - 1 of those calls: in any run of that many
    * of them it is served. */
  lemma BoundedBypass(n: nat, self: nat, e: nat, cursor: nat, calls: seq<Call>)
    requires Follows(n, self, cursor, calls) && AlwaysReady(self, e, calls)
    requires self < n && e < n && e != self && Fetches(calls) >= n - 1
    ensures exists i :: 0 <= i < |calls| && calls[i].Fetch? && calls[i].r == e
  {
    if NeverServed(e, calls) {
      BypassMeasure(n, self, e, cursor, calls);
      BetweenBound(cursor, e, self, n);
    }
  }

  /** With every endpoint ready, all others on the way are served first. */
  lemma {:induction false} Passing(a: nat, e: nat, self: nat, n: nat) returns (calls: seq<Call>)
    requires a < n && e < n && self < n && e != self
    ensures Follows(n, self, a, calls) && AlwaysReady(self, e, calls) && NeverServed(e, calls)
    ensures Fetches(calls) == Between(a, e, self, n)
    decreases Dist(a, e, n)
  {
    hide Next;
    calls := [];
    var r := if a == self then Next(a, n) else a;
    if r != e {
      var fd := seq(n, _ => 0);
      var rest := Passing(Next(r, n), e, self, n);
      calls := [Fetch(fd, {0}, r)] + rest;
      assert calls[1..] == rest;
      assert Nearest(fd, self, {0}, a, r);
    }
  }

  /** The bound is exact: right after e is served, n - 2 calls can fetch without serving e again. */
  lemma BypassBoundReached(n: nat, self: nat, e: nat) returns (calls: seq<Call>)
    requires self < n && e < n && e != self
    ensures Follows(n, self, Next(e, n), calls) && AlwaysReady(self, e, calls) && NeverServed(e, calls)
    ensures Fetches(calls) == n - 2
  {
    calls := Passing(Next(e, n), e, self, n);
    BetweenBound(Next(e, n), e, self, n);
  }
}
