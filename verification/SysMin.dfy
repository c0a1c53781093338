// The trace log: lines gathered in a line buffer, stamped with the time of
// their first character, and copied to a circular buffer when complete.

module TraceLines {
  const LINEBUFSIZE: nat := 0x100

  /** A line is complete at a newline or when it fills the line buffer. */
  predicate Complete(line: string) {
    line != "" && (line[|line| - 1] == '\n' || |line| >= LINEBUFSIZE)
  }

  /** A line still growing. */
  predicate Open(line: string) { |line| < LINEBUFSIZE && '\n' !in line }

  predicate WholeLine(line: string) {
    Complete(line) && Open(line[..|line| - 1])
  }

  /** The complete lines of a stream of characters, and what is left over. */
  function Split(chars: string): (r: (seq<string>, string)) {
    if chars == "" then ([], "")
    else
      var (lines, rest) := Split(chars[..|chars| - 1]);
      var line := rest + [chars[|chars| - 1]];
      if Complete(line) then (lines + [line], "") else (lines, line)
  }

  function Join(lines: seq<string>): string {
    if lines == [] then "" else Join(lines[..|lines| - 1]) + lines[|lines| - 1]
  }

  lemma SplitLast(chars: string)
    requires chars != ""
    ensures var (lines, rest) := Split(chars[..|chars| - 1]); var line := rest + [chars[|chars| - 1]];
            Split(chars) == if Complete(line) then (lines + [line], "") else (lines, line)
  {
  }

  lemma JoinLast(lines: seq<string>, rest: string, c: char)
    ensures var line := rest + [c];
            && line[..|line| - 1] == rest
            && Join(lines + [line]) == (Join(lines) + rest) + [c]
            && Join(lines) + line == (Join(lines) + rest) + [c]
  {
    assert (lines + [rest + [c]])[..|lines|] == lines;
  }

  /** Nothing is lost, added or reordered: the lines and the rest make up the stream. */
  lemma {:induction false} SplitJoins(chars: string)
    ensures var (lines, rest) := Split(chars);
            && Join(lines) + rest == chars
            && (forall k :: 0 <= k < |lines| ==> WholeLine(lines[k]))
            && Open(rest)
  {
    if chars != "" {
      var n := |chars| - 1;
      SplitJoins(chars[..n]);
      var (lines, rest) := Split(chars[..n]);
      hide Split, Join;
      assert chars == chars[..n] + [chars[n]];
      SplitLast(chars);
      JoinLast(lines, rest, chars[n]);
    }
  }

  /** It is the only such splitting. */
  lemma {:induction false} SplitUnique(lines: seq<string>, rest: string)
    requires (forall k :: 0 <= k < |lines| ==> WholeLine(lines[k])) && Open(rest)
    ensures Split(Join(lines) + rest) == (lines, rest)
    decreases |lines|, |rest|
  {
    var chars := Join(lines) + rest;
    if rest != "" {
      var n := |rest| - 1;
      SplitUnique(lines, rest[..n]);
      assert chars[..|chars| - 1] == Join(lines) + rest[..n];
      assert rest[..n] + [rest[n]] == rest;
    } else if lines != [] {
      var line := lines[|lines| - 1];
      var n := |line| - 1;
      var before := lines[..|lines| - 1];
      SplitUnique(before, line[..n]);
      assert chars[..|chars| - 1] == Join(before) + line[..n];
      assert line[..n] + [line[n]] == line;
      assert before + [line] == lines;
    }
  }
}

module SysMin {
  import opened Arithmetic
  import opened TraceLines
  import opened TimeStamp

  /** What is output for complete lines: each behind its stamp. */
  function Rendered(lines: seq<string>, stamps: seq<string>): string
    requires |lines| <= |stamps|
  {
    if lines == [] then "" else
    var n := |lines| - 1;
    Rendered(lines[..n], stamps) + stamps[n] + lines[n]
  }

  class Log {
    const bufSize: nat
    const tickPeriod: nat
    const outbuf: array<char>
    const linebuf: array<char>
    var outidx: nat
    var lineidx: nat
    var getTime: bool
    var writeidx: nat
    var configure: bool
    var startIdx: nat
    var endIdx: nat
    ghost var put: string              // every character handed to Putch
    ghost var stamps: seq<string>      // the stamps output
    ghost var emitted: string          // every character output

    /** The last 8 bytes of the buffer hold the indices. */
    function Size(): int { bufSize - 8 }

    ghost predicate RingOk()
      reads this`outidx, this`emitted, outbuf
    {
      && outbuf.Length == Size() > 0
      && outidx == |emitted| % Size()
      && forall k :: 0 <= k < |emitted| && |emitted| - Size() <= k ==> outbuf[k % Size()] == emitted[k]
    }

    ghost predicate LinesOk()
      reads this`put, this`stamps, this`emitted, this`getTime, this`lineidx, linebuf
    {
      var (lines, rest) := Split(put);
      && lineidx < LINEBUFSIZE == linebuf.Length
      && linebuf[..lineidx] == rest
      && (getTime <==> rest == "")
      && |stamps| == |lines| + (if getTime then 0 else 1)
      && emitted == Rendered(lines, stamps) + if getTime then "" else stamps[|lines|]
    }

    ghost predicate Valid()
      reads this, outbuf, linebuf
    {
      && outbuf != linebuf
      && (configure ==> startIdx == 7 - Zeros(tickPeriod) && endIdx == 17 - Zeros(tickPeriod))
      && (bufSize != 0 ==>
            && Size() >= LINEBUFSIZE && RingOk() && LinesOk()
            && writeidx == |Rendered(Split(put).0, stamps)| % Size())
    }

    /** SysMin_Module_startup. */
    constructor (bufSize: nat, tickPeriod: nat)
      requires bufSize == 0 || bufSize - 8 >= LINEBUFSIZE
      ensures Valid() && fresh(outbuf) && fresh(linebuf)
      ensures this.bufSize == bufSize && this.tickPeriod == tickPeriod
      ensures put == "" && stamps == [] && emitted == ""
    {
      this.bufSize, this.tickPeriod := bufSize, tickPeriod;
      outbuf := new char[if bufSize == 0 then 0 else bufSize - 8](_ => 0 as char);
      linebuf := new char[LINEBUFSIZE](_ => 0 as char);
      outidx, lineidx, writeidx := 0, 0, 0;
      getTime, configure := true, false;
      startIdx, endIdx := 0, 0;
      put, stamps, emitted := "", [], "";
    }

    method Output(ch: char)
      requires RingOk()
      modifies this`outidx, this`emitted, outbuf
      ensures RingOk() && emitted == old(emitted) + [ch]
    {
      ghost var n := |emitted|;
      ModNext(n, Size());
      forall k | 0 <= k < n && n - Size() < k ensures k % Size() != n % Size() { ModApart(k, n, Size()); }
      outbuf[outidx] := ch;
      outidx := outidx + 1;
      emitted := emitted + [ch];
      if outidx == Size() { outidx := 0; }
    }

    /** One place of the time stamp. */
    method OutputPlace(timeStamp: string, index: nat)
      requires RingOk() && index < |timeStamp|
      modifies this`outidx, this`emitted, outbuf
      ensures RingOk() && emitted == old(emitted) + Place(timeStamp, index)
    {
      hide RingOk;
      if index == DEC_PT_IDX { Output('.'); }
      if timeStamp[index] == ' ' && index >= LEFT_SPACE_IDX { Output('0'); } else { Output(timeStamp[index]); }
    }

    /** The time stamp of a line. */
    method OutputStamp(uSec: nat)
      requires RingOk() && uSec < Pow10(17)
      requires startIdx == 7 - Zeros(tickPeriod) && endIdx == 17 - Zeros(tickPeriod)
      modifies this`outidx, this`emitted, outbuf
      ensures RingOk() && emitted == old(emitted) + Stamp(uSec, Zeros(tickPeriod))
      ensures Shows(emitted[|old(emitted)|..], uSec, tickPeriod)
    {
      hide RingOk, Pow10, Zeros, Field, Body, Place, Shows, IsScale;
      var timeStamp := seq(TIME_STAMP_BUF_LEN - 1, _ => ' ');
      BlankField(TIME_STAMP_BUF_LEN - 1);
      Output('[');
      if uSec != 0 { timeStamp := Field(uSec, TIME_STAMP_BUF_LEN - 1); }
      var index := startIdx;
      BodyStart(timeStamp, startIdx);
      while index < endIdx
        invariant startIdx <= index <= endIdx && RingOk()
        invariant emitted == old(emitted) + "[" + Body(timeStamp, startIdx, index)
      {
        OutputPlace(timeStamp, index);
        index := index + 1;
        BodyStep(timeStamp, startIdx, index);
      }
      Output(']');
      Output(' ');
      StampShows(uSec, tickPeriod, Zeros(tickPeriod));
    }

    /** Copy the line buffer to the circular buffer. */
    method Flush(n: nat)
      requires RingOk() && n <= linebuf.Length && linebuf != outbuf
      modifies this`outidx, this`emitted, outbuf
      ensures RingOk() && emitted == old(emitted) + linebuf[..n]
    {
      var i := 0;
      while i < n
        invariant i <= n && RingOk()
        invariant emitted == old(emitted) + linebuf[..i]
        invariant linebuf[..] == old(linebuf[..])
      {
        Output(linebuf[i]);
        i := i + 1;
      }
    }

    /** The first character of a line is preceded by the time stamp. */
    method BeginLine(uSec: nat)
      requires RingOk() && uSec < Pow10(17)
      requires startIdx == 7 - Zeros(tickPeriod) && endIdx == 17 - Zeros(tickPeriod)
      modifies this`outidx, this`emitted, this`stamps, this`getTime, outbuf
      ensures RingOk() && !getTime
      ensures var stamp := Stamp(uSec, Zeros(tickPeriod));
              stamps == old(stamps) + (if old(getTime) then [stamp] else []) &&
              emitted == old(emitted) + (if old(getTime) then stamp else "")
    {
      hide RingOk, Pow10, Zeros, Stamp;
      if getTime {
        OutputStamp(uSec);
        stamps := stamps + [Stamp(uSec, Zeros(tickPeriod))];
        getTime := false;
      }
    }

    /** The end of a line, or a full line buffer, is copied out. */
    method EndLine(ch: char, n: nat)
      requires RingOk() && n <= linebuf.Length && linebuf != outbuf && lineidx == n && !getTime
      modifies this`outidx, this`emitted, this`lineidx, this`getTime, this`writeidx, outbuf
      ensures RingOk()
      ensures if ch == '\n' || n >= LINEBUFSIZE
              then emitted == old(emitted) + linebuf[..n] && lineidx == 0 && getTime && writeidx == |emitted| % Size()
              else emitted == old(emitted) && lineidx == n && !getTime && writeidx == old(writeidx)
    {
      if ch == '\n' || n >= LINEBUFSIZE {
        Flush(n);
        lineidx := 0;
        getTime := true;
        writeidx := outidx;
      }
    }

    /** Put one character into the line buffer, and out with the line when it is complete. */
    method PutInLine(ch: char, uSec: nat)
      requires Valid() && bufSize != 0 && configure && uSec < Pow10(17)
      modifies this`outidx, this`emitted, this`stamps, this`getTime, this`lineidx, this`writeidx, this`put, outbuf, linebuf
      ensures Valid() && put == old(put) + [ch]
      ensures stamps == old(stamps) + if old(getTime) then [Stamp(uSec, Zeros(tickPeriod))] else []
    {
      hide RingOk, Pow10, Zeros, Stamp, Split, Rendered, Complete;
      ghost var (lines, rest) := Split(put);
      ghost var stamp := Stamp(uSec, Zeros(tickPeriod));
      SplitStep(put, ch);
      RenderMore(lines, stamps, stamp);
      var lineIdx := lineidx;
      linebuf[lineIdx] := ch;
      lineIdx := lineIdx + 1;
      lineidx := lineIdx;
      assert linebuf[..lineidx] == rest + [ch];
      ghost var due := getTime;
      ghost var begun := stamps;
      assert emitted == Rendered(lines, begun) + if due then "" else begun[|lines|];
      ghost var before := emitted;
      BeginLine(uSec);
      if due {
        assert stamps == begun + [stamp] && before == Rendered(lines, begun);
      } else {
        assert stamps == begun && emitted == before;
      }
      assert emitted == Rendered(lines, stamps) + stamps[|lines|];
      RenderStep(lines, stamps, rest + [ch]);
      EndLine(ch, lineIdx);
      put := put + [ch];
    }

    /** SysMin_putch; ticks is what Clock_getTicks reports. */
    method Putch(ch: char, ticks: nat)
      requires Valid() && ticks * tickPeriod < Pow10(17)
      modifies this, outbuf, linebuf
      ensures Valid()
      ensures bufSize == 0 ==> put == old(put) && stamps == old(stamps) && emitted == old(emitted)
      ensures bufSize != 0 ==> put == old(put) + [ch]
      ensures bufSize != 0 ==>
                stamps == old(stamps) + if old(getTime) then [Stamp(ticks * tickPeriod, Zeros(tickPeriod))] else []
      ensures bufSize != 0 && old(getTime) ==> Shows(stamps[|old(stamps)|], ticks * tickPeriod, tickPeriod)
    {
      hide RingOk, LinesOk, Shows, IsScale, Pow10, Zeros, Stamp, Split, Rendered;
      if !configure {
        var i;
        i, startIdx, endIdx := Configure(tickPeriod);
        configure := true;
      }
      if bufSize != 0 {
        PutInLine(ch, ticks * tickPeriod);
        StampShows(ticks * tickPeriod, tickPeriod, Zeros(tickPeriod));
      }
    }
  }

  /** What a log holds between calls, whatever was put: the bodies of the lines copied out and the line buffer make up
    * the characters put, each body being one whole line; the output is these lines, each behind its stamp; and the
    * circular buffer holds the last of the output. */
  lemma LogHolds(log: Log)
    requires log.Valid() && log.bufSize != 0
    ensures var lines := Split(log.put).0;
            var n, size := |log.emitted|, log.bufSize - 8;
            && log.lineidx < LINEBUFSIZE == log.linebuf.Length
            && Join(lines) + log.linebuf[..log.lineidx] == log.put
            && (forall k :: 0 <= k < |lines| ==> WholeLine(lines[k]))
            && |lines| <= |log.stamps|
            && Rendered(lines, log.stamps) <= log.emitted
            && (log.lineidx == 0 ==> log.emitted == Rendered(lines, log.stamps))
            && log.outbuf.Length == size > 0 && log.outidx == n % size
            && (forall k :: 0 <= k < n && n - size <= k ==> log.outbuf[k % size] == log.emitted[k])
  {
    hide Split, Rendered, Join;
    SplitJoins(log.put);
  }

  lemma SplitStep(put: string, ch: char)
    ensures var (lines, rest) := Split(put); var line := rest + [ch];
            Split(put + [ch]) == if ch == '\n' || |line| >= LINEBUFSIZE then (lines + [line], "") else (lines, line)
  {
    assert (put + [ch])[..|put|] == put;
  }

  lemma RenderStep(lines: seq<string>, stamps: seq<string>, line: string)
    requires |lines| < |stamps|
    ensures Rendered(lines + [line], stamps) == Rendered(lines, stamps) + stamps[|lines|] + line
  {
    assert (lines + [line])[..|lines|] == lines;
  }

  lemma {:induction false} RenderMore(lines: seq<string>, stamps: seq<string>, stamp: string)
    requires |lines| <= |stamps|
    ensures Rendered(lines, stamps + [stamp]) == Rendered(lines, stamps)
  {
    if lines != [] { RenderMore(lines[..|lines| - 1], stamps, stamp); }
  }

  lemma BodyStart(field: string, from: nat)
    requires from <= |field|
    ensures Body(field, from, from) == ""
  {
  }

  lemma BodyStep(field: string, from: nat, to: nat)
    requires from < to <= |field|
    ensures Body(field, from, to) == Body(field, from, to - 1) + Place(field, to - 1)
  {
  }

  lemma ModNext(n: nat, r: nat)
    requires r > 0
    ensures (n + 1) % r == if n % r + 1 == r then 0 else n % r + 1
  {
    var q := n / r;
    if n % r + 1 == r { assert n + 1 == (q + 1) * r; Unique(n + 1, r, q + 1, 0); } else { Unique(n + 1, r, q, n % r + 1); }
  }

  /** Two numbers less than r apart have different remainders. */
  lemma ModApart(k: nat, n: nat, r: nat)
    requires r > 0 && k < n < k + r
    ensures k % r != n % r
  {
    var a, b := k / r, n / r;
    assert k == a * r + k % r && n == b * r + n % r;
    if k % r == n % r {
      TimesDiff(b, a, r);
      if b > a { Times(b - a, r); } else { TimesDiff(a, b, r); if a > b { Times(a - b, r); } }
    }
  }

  lemma {:induction false} BlankField(w: nat)
    ensures Field(0, w) == seq(w, _ => ' ')
  {
    if w > 0 { BlankField(w - 1); }
  }
}
