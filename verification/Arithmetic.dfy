// Facts about products, quotients and remainders that the solver is best given
// one at a time.

module Arithmetic {
  lemma Times(a: int, h: int)
    requires a >= 1 && h >= 1
    ensures a * h >= h
  {
    assert a * h == (a - 1) * h + h;
  }

  lemma TimesSum(a: int, b: int, h: int)
    ensures (a + b) * h == a * h + b * h
  {
  }

  lemma TimesDiff(a: int, b: int, h: int)
    ensures (a - b) * h == a * h - b * h
  {
  }

  lemma Regroup(a: nat, b: nat, c: nat)
    ensures a * (b * c) == (a * b) * c == (b * a) * c
  {
  }

  lemma Grow(a: nat, b: nat, c: nat)
    requires a >= b
    ensures a * c >= b * c
  {
  }

  lemma Less(a: nat, b: nat, p: nat)
    requires a < b && p > 0
    ensures a * p < b * p
  {
    TimesDiff(b, a, p);
    Times(b - a, p);
  }

  lemma Unique(q: nat, d: nat, a: nat, b: nat)
    requires d > 0 && q == a * d + b && b < d
    ensures q / d == a && q % d == b
  {
    var a' := q / d;
    assert q == a' * d + q % d;
    TimesDiff(a, a', d);
    TimesDiff(a', a, d);
    if a > a' { Times(a - a', d); } else if a < a' { Times(a' - a, d); }
  }

  lemma MulDiv(n: int, h: int)
    requires 1 <= h
    ensures n * h / h == n
  {
    var p := n * h;
    var q := p / h;
    assert p == q * h + p % h;
    TimesDiff(n, q, h);
    TimesDiff(q, n, h);
    if n > q { Times(n - q, h); } else if n < q { Times(q - n, h); }
  }

  lemma Apart(a: nat, b: nat, n: nat, p: nat)
    requires p > 0 && b < n && (a < n ==> b == a)
    ensures a * p < n * p <==> b * p == a * p
  {
    if a >= n {
      Grow(a, n, p);
      Less(b, a, p);
    } else {
      Less(a, n, p);
    }
  }

  lemma Below(a: nat, n: nat, p: nat)
    requires n > 0 && p > 0
    ensures a * p < n * p <==> (a % n) * p == a * p
  {
    Apart(a, a % n, n, p);
  }
}
