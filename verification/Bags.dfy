// Sums over sequences: how often an element occurs in what a list of
// containers holds.

module Bags {

  /** How often b occurs in the first n containers of xs taken together. */
  function Upto<A, B>(xs: seq<A>, n: nat, f: (A, B) -> nat, b: B): nat
    requires n <= |xs|
  {
    if n == 0 then 0 else Upto(xs, n - 1, f, b) + f(xs[n - 1], b)
  }

  /** How often b occurs in xs taken together; f counts within one container. */
  function Count<A, B>(xs: seq<A>, f: (A, B) -> nat, b: B): nat {
    Upto(xs, |xs|, f, b)
  }

  lemma {:induction false} UptoSame<A, B>(xs: seq<A>, ys: seq<A>, n: nat, f: (A, B) -> nat, b: B)
    requires n <= |xs| && n <= |ys|
    requires forall i :: 0 <= i < n ==> xs[i] == ys[i]
    ensures Upto(xs, n, f, b) == Upto(ys, n, f, b)
  {
    if n != 0 { UptoSame(xs, ys, n - 1, f, b); }
  }

  lemma {:induction false} UptoUpdate<A, B>(xs: seq<A>, n: nat, i: nat, x: A, f: (A, B) -> nat, b: B)
    requires i < n <= |xs|
    ensures Upto(xs[i := x], n, f, b) + f(xs[i], b) == Upto(xs, n, f, b) + f(x, b)
    ensures f(xs[i], b) <= Upto(xs, n, f, b)
  {
    if i == n - 1 {
      UptoSame(xs, xs[i := x], n - 1, f, b);
    } else {
      UptoUpdate(xs, n - 1, i, x, f, b);
    }
  }

  lemma {:induction false} UptoDrop<A, B>(xs: seq<A>, n: nat, i: nat, f: (A, B) -> nat, b: B)
    requires i < n <= |xs|
    ensures Upto(xs[..i] + xs[i + 1..], n - 1, f, b) + f(xs[i], b) == Upto(xs, n, f, b)
  {
    if i == n - 1 {
      UptoSame(xs, xs[..i] + xs[i + 1..], n - 1, f, b);
    } else {
      UptoDrop(xs, n - 1, i, f, b);
    }
  }

  /** Replacing one member exchanges its contribution for the new one. */
  lemma CountUpdate<A, B>(xs: seq<A>, i: nat, x: A, f: (A, B) -> nat, b: B)
    requires i < |xs|
    ensures Count(xs[i := x], f, b) + f(xs[i], b) == Count(xs, f, b) + f(x, b)
    ensures f(xs[i], b) <= Count(xs, f, b)
  {
    UptoUpdate(xs, |xs|, i, x, f, b);
  }

  /** Dropping one member takes its contribution away. */
  lemma CountDrop<A, B>(xs: seq<A>, i: nat, f: (A, B) -> nat, b: B)
    requires i < |xs|
    ensures Count(xs[..i] + xs[i + 1..], f, b) + f(xs[i], b) == Count(xs, f, b)
  {
    UptoDrop(xs, |xs|, i, f, b);
  }

  lemma CountAppend<A, B>(xs: seq<A>, x: A, f: (A, B) -> nat, b: B)
    ensures Count(xs + [x], f, b) == Count(xs, f, b) + f(x, b)
  {
    UptoSame(xs, xs + [x], |xs|, f, b);
  }

  /** What is counted is in some member. */
  lemma {:induction false} UptoMember<A, B>(xs: seq<A>, n: nat, f: (A, B) -> nat, b: B) returns (i: nat)
    requires n <= |xs| && Upto(xs, n, f, b) > 0
    ensures i < n && f(xs[i], b) > 0
  {
    if f(xs[n - 1], b) > 0 {
      i := n - 1;
    } else {
      i := UptoMember(xs, n - 1, f, b);
    }
  }

  // ----- one sequence as a container -----

  function One<B(==)>(a: B, b: B): nat { if a == b then 1 else 0 }

  /** How often b occurs in q. */
  function Occurs<B(==)>(q: seq<B>, b: B): (n: nat)
    ensures q == [] ==> n == 0
  {
    Count(q, One, b)
  }

  lemma OccursAppend<B>(q: seq<B>, a: B, b: B)
    ensures Occurs(q + [a], b) == Occurs(q, b) + One(a, b)
  {
    CountAppend(q, a, One, b);
  }

  lemma OccursTail<B>(q: seq<B>, b: B)
    requires q != []
    ensures Occurs(q, b) == One(q[0], b) + Occurs(q[1..], b)
  {
    CountDrop(q, 0, One, b);
    assert q[..0] + q[1..] == q[1..];
  }

  lemma OccursMember<B>(q: seq<B>, b: B)
    ensures Occurs(q, b) > 0 <==> b in q
  {
    if Occurs(q, b) > 0 {
      var i := UptoMember(q, |q|, One, b);
    } else if b in q {
      var i :| 0 <= i < |q| && q[i] == b;
      CountUpdate(q, i, b, One, b);
    }
  }
}
