// The time stamp of a trace line: elapsed microseconds in a field of
// characters, of which those that the tick period can change are printed.

module TimeStamp {
  import opened Arithmetic

  function Pow10(i: nat): (p: nat)
    ensures p > 0
  {
    if i == 0 then 1 else 10 * Pow10(i - 1)
  }

  const MAX_USEC_CHAR_LEN: nat := 6
  const MIN_SEC_CHAR_LEN: nat := 4
  const DEC_PT_IDX: nat := 11
  const LEFT_SPACE_IDX: nat := 10
  const TIME_STAMP_BUF_LEN: nat := 18

  function Digit(d: nat): char
    requires d < 10
  {
    '0' + d as char
  }

  /** sprintf("%17llu") for w = 17: u right-aligned in w places, blanks before it. The source leaves the field blank for
    * u == 0. */
  function Field(u: nat, w: nat): (s: string)
    ensures |s| == w
  {
    if w == 0 then "" else Field(u / 10, w - 1) + [if u == 0 then ' ' else Digit(u % 10)]
  }

  /** i is the number of trailing decimal zeros of the tick period, at most 6. */
  ghost predicate IsScale(tickPeriod: nat, i: nat) {
    i <= MAX_USEC_CHAR_LEN && tickPeriod % Pow10(i) == 0 && (i < MAX_USEC_CHAR_LEN ==> tickPeriod % Pow10(i + 1) != 0)
  }

  function Scale(tickPeriod: nat, from: nat): (i: nat)
    requires from <= MAX_USEC_CHAR_LEN && tickPeriod % Pow10(from) == 0
    ensures IsScale(tickPeriod, i)
    decreases MAX_USEC_CHAR_LEN - from
  {
    if from < MAX_USEC_CHAR_LEN && tickPeriod % Pow10(from + 1) == 0 then Scale(tickPeriod, from + 1) else from
  }

  /** The number of trailing decimal zeros of the tick period, at most 6. */
  function Zeros(tickPeriod: nat): (i: nat)
    ensures IsScale(tickPeriod, i)
  {
    Scale(tickPeriod, 0)
  }

  /** The first call's search for the number of sub-second digits not needed. */
  method Configure(tickPeriod: nat) returns (i: nat, startIdx: nat, endIdx: nat)
    ensures i == Zeros(tickPeriod) && startIdx == 7 - i && endIdx == 17 - i
  {
    var mod := 10;
    i := 0;
    assert Pow10(1) == 10 * Pow10(0);
    while i < MAX_USEC_CHAR_LEN
      invariant i <= MAX_USEC_CHAR_LEN && mod == Pow10(i + 1) && tickPeriod % Pow10(i) == 0
      invariant Scale(tickPeriod, 0) == Scale(tickPeriod, i)
    {
      if tickPeriod % mod != 0 { break; }
      mod := mod * 10;
      i := i + 1;
    }
    startIdx := DEC_PT_IDX - (MIN_SEC_CHAR_LEN + i);
    endIdx := TIME_STAMP_BUF_LEN - (i + 1);
  }

  /** What is output for one place of the field. */
  function Place(field: string, index: nat): (s: string)
    requires index < |field|
    ensures |s| == if index == DEC_PT_IDX then 2 else 1
  {
    (if index == DEC_PT_IDX then "." else "") + [if field[index] == ' ' && index >= LEFT_SPACE_IDX then '0' else field[index]]
  }

  function Body(field: string, from: nat, to: nat): (s: string)
    requires from <= to <= |field|
    ensures |s| == to - from + if from <= DEC_PT_IDX < to then 1 else 0
  {
    if from == to then "" else Body(field, from, to - 1) + Place(field, to - 1)
  }

  /** The stamp output for uSec elapsed microseconds. */
  function Stamp(uSec: nat, i: nat): string
    requires i <= MAX_USEC_CHAR_LEN
  {
    "[" + Body(Field(uSec, TIME_STAMP_BUF_LEN - 1), 7 - i, 17 - i) + "] "
  }

  // ----- reading a stamp back -----

  function ValueOf(c: char): nat { if '0' <= c <= '9' then (c - '0') as nat else 0 }

  /** The number the digits of s show, blanks counting as zeros and the decimal point left out. */
  function Read(s: string): nat {
    if s == "" then 0
    else if s[|s| - 1] == '.' then Read(s[..|s| - 1])
    else 10 * Read(s[..|s| - 1]) + ValueOf(s[|s| - 1])
  }

  lemma ReadEmpty()
    ensures Read("") == 0
  {
  }

  lemma ReadEnd(s: string, c: char)
    ensures Read(s + [c]) == if c == '.' then Read(s) else 10 * Read(s) + ValueOf(c)
  {
    assert (s + [c])[..|s|] == s;
  }

  /** Dividing by 10 and then by m is dividing by 10 * m, with the digits left behind. */
  lemma DivMod(q: nat, m: nat)
    requires m > 0
    ensures (q / 10) / m == q / (10 * m)
    ensures q % (10 * m) == 10 * ((q / 10) % m) + q % 10
  {
    var x := q / 10;
    assert x == (x / m) * m + x % m;
    var a, b := x / m, 10 * (x % m) + q % 10;
    assert 10 * x == a * (10 * m) + 10 * (x % m) by {
      assert (a * m) * 10 == a * (10 * m);
    }
    assert q == 10 * x + q % 10;
    Unique(q, 10 * m, a, b);
  }

  lemma DivBack(u: nat, m: nat)
    requires m > 0
    ensures (u / m) / 10 == u / (10 * m)
  {
    var x := u / m;
    var a, d := x / 10, x % 10;
    assert u == x * m + u % m;
    TimesSum(10 * a, d, m);
    Regroup(a, 10, m);
    TimesDiff(9, d, m);
    if d < 9 { Times(9 - d, m); }
    Unique(u, 10 * m, a, d * m + u % m);
  }

  lemma {:induction false} FieldAt(u: nat, w: nat, j: nat)
    requires j < w
    ensures var q := u / Pow10(w - 1 - j); Field(u, w)[j] == if q == 0 then ' ' else Digit(q % 10)
  {
    if j < w - 1 {
      FieldAt(u / 10, w - 1, j);
      DivMod(u, Pow10(w - 2 - j));
    }
  }

  lemma BlankRead()
    ensures ValueOf(' ') == 0 && ValueOf('0') == 0
  {
  }

  lemma DigitRead(d: nat)
    requires d < 10
    ensures ValueOf(Digit(d)) == d && Digit(d) != ' ' && Digit(d) != '.'
    ensures '0' <= Digit(d) <= '9'
  {
  }

  lemma ReadPlace(s: string, field: string, index: nat, q: nat)
    requires index < |field| && field[index] == if q == 0 then ' ' else Digit(q % 10)
    ensures Read(s + Place(field, index)) == 10 * Read(s) + q % 10
  {
    hide Digit, ValueOf, Read;
    BlankRead();
    DigitRead(q % 10);
    if index == DEC_PT_IDX {
      ReadEnd(s, '.');
      ReadEnd(s + ".", Place(field, index)[1]);
      assert s + Place(field, index) == s + "." + [Place(field, index)[1]];
    } else {
      ReadEnd(s, Place(field, index)[0]);
      assert Place(field, index) == [Place(field, index)[0]];
    }
  }

  lemma {:induction false} ReadBody(u: nat, w: nat, from: nat, to: nat)
    requires from <= to <= w
    ensures Read(Body(Field(u, w), from, to)) == (u / Pow10(w - to)) % Pow10(to - from)
  {
    hide Read, Field, Place, Digit;
    if from < to {
      ReadBody(u, w, from, to - 1);
      var q := u / Pow10(w - to);
      DivBack(u, Pow10(w - to));
      DivMod(q, Pow10(to - 1 - from));
      FieldAt(u, w, to - 1);
      ReadPlace(Body(Field(u, w), from, to - 1), Field(u, w), to - 1, q);
    } else {
      ReadEmpty();
    }
  }

  // ----- what a stamp shows -----

  /** The characters between the brackets. */
  function Inside(stamp: string): string {
    if |stamp| < 3 then "" else stamp[1..|stamp| - 2]
  }

  /** The stamp of uSec microseconds without the last i digits: in brackets, with a space behind, the next ten digits. Every
    * character but the point is a digit, or a blank where neither it nor any place before it has a digit, left of the
    * last digit of the seconds; the point stands 6 - i digits from the right, and there is none for i == 6. */
  ghost predicate ShowsAt(stamp: string, uSec: nat, i: nat) {
    && |stamp| == (if i < 6 then 14 else 13)
    && stamp[0] == '[' && stamp[|stamp| - 2] == ']' && stamp[|stamp| - 1] == ' '
    && Read(Inside(stamp)) == (uSec / Pow10(i)) % 10_000_000_000
    && forall k: nat :: k < |stamp| - 3 ==> LaidOut(Inside(stamp), uSec, i, k)
  }

  ghost predicate LaidOut(body: string, uSec: nat, i: nat, k: nat)
    requires k < |body|
  {
    && (body[k] == '.' <==> i < 6 && k == |body| - 1 - (6 - i))
    && (body[k] == ' ' <==> k < 3 + i && k <= 9 + i && uSec < Pow10(9 + i - k))
    && (body[k] != '.' && body[k] != ' ' ==> '0' <= body[k] <= '9')
  }

  /** A stamp for a given tick period: the last i digits are those the tick period leaves zero. */
  ghost predicate Shows(stamp: string, uSec: nat, tickPeriod: nat) {
    forall i: nat :: IsScale(tickPeriod, i) ==> ShowsAt(stamp, uSec, i)
  }

  /** What is output is such a stamp. */
  lemma StampShows(uSec: nat, tickPeriod: nat, i: nat)
    requires IsScale(tickPeriod, i)
    ensures Shows(Stamp(uSec, i), uSec, tickPeriod)
  {
    hide Read, Field, Body, Pow10;
    forall j: nat | IsScale(tickPeriod, j) ensures ShowsAt(Stamp(uSec, i), uSec, j) {
      ScaleUnique(tickPeriod, i, j);
      StampShowsAt(uSec, i);
    }
  }

  lemma StampShowsAt(uSec: nat, i: nat)
    requires i <= MAX_USEC_CHAR_LEN
    ensures ShowsAt(Stamp(uSec, i), uSec, i)
  {
    hide Read, Field, Body, Pow10, LaidOut;
    var stamp, body := Stamp(uSec, i), Body(Field(uSec, 17), 7 - i, 17 - i);
    assert stamp[1..|stamp| - 2] == body;
    ReadBody(uSec, 17, 7 - i, 17 - i);
    Powers();
    forall k: nat | k < |body| ensures LaidOut(body, uSec, i, k) { BodyLayout(uSec, i, k); }
  }

  lemma ScaleUnique(tickPeriod: nat, i: nat, j: nat)
    requires IsScale(tickPeriod, i) && IsScale(tickPeriod, j)
    ensures i == j
  {
    if i < j { Divides(tickPeriod, i + 1, j); }
    if j < i { Divides(tickPeriod, j + 1, i); }
  }

  lemma Divides(u: nat, i: nat, j: nat)
    requires i <= j && u % Pow10(j) == 0
    ensures u % Pow10(i) == 0
  {
    hide Pow10;
    var q := u / Pow10(j);
    PowSum(j - i, i);
    Regroup(q, Pow10(j - i), Pow10(i));
    Unique(u, Pow10(i), q * Pow10(j - i), 0);
  }

  /** The digits of a stamp, times 10^i, are the elapsed microseconds, with nothing lost, exactly as long as these are below
    * 10^(10 + i). */
  lemma StampExact(stamp: string, ticks: nat, tickPeriod: nat, i: nat)
    requires Shows(stamp, ticks * tickPeriod, tickPeriod) && IsScale(tickPeriod, i)
    ensures Read(Inside(stamp)) * Pow10(i) == ticks * tickPeriod <==> ticks * tickPeriod < Pow10(10 + i)
  {
    hide Read, Pow10, LaidOut;
    var a := ScaledDown(ticks, tickPeriod, Pow10(i));
    assert ShowsAt(stamp, ticks * tickPeriod, i);
    PowSum(10, i);
    Powers();
    Below(a, Pow10(10), Pow10(i));
  }

  /** Clock_getTicks counts in 32 bits, and can get there: after 2 000 000 000 ticks of 5 microseconds, two hours and three
    * quarters, the stamp shows zero. */
  lemma StampWrong(stamp: string)
    requires Shows(stamp, 2_000_000_000 * 5, 5)
    ensures 2_000_000_000 < 0x1_0000_0000 && 2_000_000_000 * 5 < Pow10(17)
    ensures IsScale(5, 0) && Read(Inside(stamp)) == 0
    ensures Read(Inside(stamp)) * Pow10(0) != 2_000_000_000 * 5
  {
    hide Read, LaidOut;
    Powers();
    assert IsScale(5, 0);
    assert ShowsAt(stamp, 2_000_000_000 * 5, 0);
  }

  /** Between the brackets the decimal point stands 6 - i digits from the right, and there is none for i == 6; blanks only
    * lead, and only left of the last digit of the seconds; all else are digits. */
  lemma StampLayout(stamp: string, uSec: nat, tickPeriod: nat, i: nat, k: nat)
    requires Shows(stamp, uSec, tickPeriod) && IsScale(tickPeriod, i) && k < |Inside(stamp)|
    ensures var body := Inside(stamp);
            && stamp == "[" + body + "] " && |body| == (if i < 6 then 11 else 10)
            && (body[k] == '.' <==> i < 6 && k == |body| - 1 - (6 - i))
            && (body[k] != '.' ==> '0' <= body[k] <= '9' || (body[k] == ' ' && k < 3 + i))
            && (body[k] == ' ' ==> forall j :: 0 <= j < k ==> body[j] == ' ')
  {
    hide Read, Pow10, IsScale;
    assert ShowsAt(stamp, uSec, i);
    var body := Inside(stamp);
    assert LaidOut(body, uSec, i, k);
    if body[k] == ' ' {
      forall j: nat | j < k ensures body[j] == ' ' {
        assert LaidOut(body, uSec, i, j);
        PowMore(9 + i - k, 9 + i - j);
      }
    }
  }

  lemma {:induction false} PowMore(a: nat, b: nat)
    requires a <= b
    ensures Pow10(a) <= Pow10(b)
  {
    if a < b { PowMore(a, b - 1); }
  }

  lemma Powers()
    ensures Pow10(0) == 1 && Pow10(1) == 10 && Pow10(10) == 10_000_000_000 && Pow10(17) == 100_000_000_000_000_000
  {
  }

  lemma ScaledDown(ticks: nat, tickPeriod: nat, p: nat) returns (a: nat)
    requires p > 0 && tickPeriod % p == 0
    ensures ticks * tickPeriod == a * p && (ticks * tickPeriod) / p == a
  {
    var b := tickPeriod / p;
    a := ticks * b;
    assert tickPeriod == b * p;
    Regroup(ticks, b, p);
    Unique(ticks * tickPeriod, p, a, 0);
  }

  lemma {:induction false} PowSum(a: nat, b: nat)
    ensures Pow10(a + b) == Pow10(a) * Pow10(b)
  {
    if a > 0 { PowSum(a - 1, b); }
  }

  /** The character output for a place other than the point. */
  function Shown(field: string, index: nat): char
    requires index < |field|
  {
    if field[index] == ' ' && index >= LEFT_SPACE_IDX then '0' else field[index]
  }

  lemma {:induction false} BodyAt(field: string, from: nat, to: nat, k: nat)
    requires from <= to <= |field| && from < DEC_PT_IDX && k < |Body(field, from, to)|
    ensures Body(field, from, to)[k] ==
              if from + k < DEC_PT_IDX then Shown(field, from + k)
              else if from + k == DEC_PT_IDX then '.'
              else Shown(field, from + k - 1)
  {
    if k < |Body(field, from, to - 1)| { BodyAt(field, from, to - 1, k); }
  }

  lemma FieldChar(u: nat, w: nat, j: nat)
    requires j < w
    ensures Field(u, w)[j] == ' ' <==> u < Pow10(w - 1 - j)
    ensures Field(u, w)[j] != ' ' ==> '0' <= Field(u, w)[j] <= '9'
  {
    hide Field, Pow10;
    FieldAt(u, w, j);
    var p := Pow10(w - 1 - j);
    var q := u / p;
    DigitRead(q % 10);
    Quotient(u, p);
  }

  lemma Quotient(u: nat, p: nat)
    requires p > 0
    ensures u / p == 0 <==> u < p
  {
    if u < p { Unique(u, p, 0, u); }
  }

  lemma BodyLayout(u: nat, i: nat, k: nat)
    requires i <= MAX_USEC_CHAR_LEN
    requires k < |Body(Field(u, 17), 7 - i, 17 - i)|
    ensures LaidOut(Body(Field(u, 17), 7 - i, 17 - i), u, i, k)
  {
    hide Body, Field, Pow10;
    var at := 7 - i + k;
    BodyAt(Field(u, 17), 7 - i, 17 - i, k);
    if at != DEC_PT_IDX { FieldChar(u, 17, if at < DEC_PT_IDX then at else at - 1); }
  }
}
