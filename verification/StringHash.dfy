// The NameServer's string hash. It starts from the length and XORs each
// character in after the table step, so it is not the CRC of the string; but
// like the CRC it keeps names apart that differ in at most four neighbouring
// characters.

module NameHash {
  import opened CrcTable

  /** A C string without its terminator; characters are unsigned bytes. */
  type Name = seq<bv8>

  /** One character: hash = (hash >> 8) ^ stringCrcTab[hash & 0xff] ^ c. */
  function HashStep(h: bv32, c: bv8): bv32 {
    TableLength();
    InTable(h & 0xFF);
    (h >> 8) ^ STRING_CRC_TAB[(h & 0xFF) as nat] ^ (c as bv32)
  }

  lemma InTable(b: bv32)
    requires b <= 0xFF
    ensures b as nat < 256
  {
  }

  /** The hash state after the characters of s, starting in h. */
  function HashFrom(h: bv32, s: Name): bv32 {
    if s == [] then h else HashStep(HashFrom(h, s[..|s| - 1]), s[|s| - 1])
  }

  /** The length as a UInt32. */
  function Start(n: nat): bv32 { (n % 0x1_0000_0000) as bv32 }

  function Hash(s: Name): bv32 { HashFrom(Start(|s|), s) }

  /** stringHash. */
  method StringHash(s: Name) returns (hash: bv32)
    ensures hash == Hash(s)
  {
    hide HashStep, Start;
    hash := Start(|s|);
    ghost var h0 := hash;
    var i := 0;
    while i < |s|
      invariant 0 <= i <= |s|
      invariant hash == HashFrom(h0, s[..i])
    {
      hash := HashStep(hash, s[i]);
      assert s[..i + 1][..i] == s[..i];
      i := i + 1;
    }
    assert s[..i] == s;
  }

  // ----- composition -----

  lemma {:induction false} HashConcat(h: bv32, s: Name, t: Name)
    ensures HashFrom(h, s + t) == HashFrom(HashFrom(h, s), t)
  {
    hide HashStep;
    if t == [] {
      assert s + t == s;
    } else {
      assert (s + t)[..|s + t| - 1] == s + t[..|t| - 1];
      HashConcat(h, s, t[..|t| - 1]);
    }
  }

  // ----- a step can be undone -----

  /** The step written with the generator instead of the table. */
  lemma StepIsCrc(h: bv32, c: bv8)
    ensures HashStep(h, c) == (h >> 8) ^ Crc(h & 0xFF) ^ (c as bv32)
  {
    hide Crc;
    TableIsCrc(h & 0xFF);
  }

  /** Taking in the same character keeps different states different. */
  lemma StepInjective(a: bv32, b: bv32, c: bv8)
    requires HashStep(a, c) == HashStep(b, c)
    ensures a == b
  {
    hide Crc;
    StepIsCrc(a, c);
    StepIsCrc(b, c);
    TopByteOfStep(a, c, Crc(a & 0xFF));
    TopByteOfStep(b, c, Crc(b & 0xFF));
    TopByteInjective(a & 0xFF, b & 0xFF);
    LowByteAndRest(a, b, c, Crc(a & 0xFF));
  }

  lemma TopByteOfStep(a: bv32, c: bv8, t: bv32)
    ensures ((a >> 8) ^ t ^ (c as bv32)) >> 24 == t >> 24
  {
  }

  lemma LowByteAndRest(a: bv32, b: bv32, c: bv8, t: bv32)
    requires a & 0xFF == b & 0xFF && (a >> 8) ^ t ^ (c as bv32) == (b >> 8) ^ t ^ (c as bv32)
    ensures a == b
  {
  }

  /** Different states stay different over a common suffix. */
  lemma {:induction false} SuffixInjective(a: bv32, b: bv32, s: Name)
    requires HashFrom(a, s) == HashFrom(b, s)
    ensures a == b
  {
    hide HashStep;
    if s != [] {
      StepInjective(HashFrom(a, s[..|s| - 1]), HashFrom(b, s[..|s| - 1]), s[|s| - 1]);
      SuffixInjective(a, b, s[..|s| - 1]);
    }
  }

  // ----- looking back over four characters -----

  /** If after a step the states agree in the top byte, they agreed in the low byte before it, and elsewhere they
    * differed only where they differ now, or where the characters do, one byte lower. */
  lemma BackStep(a: bv32, b: bv32, c: bv8, e: bv8)
    requires (HashStep(a, c) ^ HashStep(b, e)) & 0xFF00_0000 == 0
    ensures a & 0xFF == b & 0xFF
    ensures (HashStep(a, c) ^ HashStep(b, e)) & 0x00FF_FF00 == (((a ^ b) >> 8) & 0x00FF_FF00)
  {
    hide Crc;
    StepIsCrc(a, c);
    StepIsCrc(b, e);
    TopBytesAgree(a, b, c, e, Crc(a & 0xFF), Crc(b & 0xFF));
    TopByteInjective(a & 0xFF, b & 0xFF);
    MiddleBytes(a, b, c, e, Crc(a & 0xFF));
  }

  lemma TopBytesAgree(a: bv32, b: bv32, c: bv8, e: bv8, t: bv32, u: bv32)
    requires (((a >> 8) ^ t ^ (c as bv32)) ^ ((b >> 8) ^ u ^ (e as bv32))) & 0xFF00_0000 == 0
    ensures t >> 24 == u >> 24
  {
  }

  lemma MiddleBytes(a: bv32, b: bv32, c: bv8, e: bv8, t: bv32)
    ensures (((a >> 8) ^ t ^ (c as bv32)) ^ ((b >> 8) ^ t ^ (e as bv32))) & 0x00FF_FF00 == (((a ^ b) >> 8) & 0x00FF_FF00)
  {
  }

  /** Back over the last character: the difference lies in the second byte only. */
  lemma BackOne(a: bv32, b: bv32, c: bv8, e: bv8)
    requires HashStep(a, c) == HashStep(b, e)
    ensures (a ^ b) & 0xFFFF_00FF == 0
  {
    hide HashStep;
    BackStep(a, b, c, e);
    ByteMasks(a, b, HashStep(a, c) ^ HashStep(b, e));
  }

  /** Back over the one before: the difference lies in the second and third. */
  lemma BackTwo(a: bv32, b: bv32, c: bv8, e: bv8)
    requires (HashStep(a, c) ^ HashStep(b, e)) & 0xFFFF_00FF == 0
    ensures (a ^ b) & 0xFF00_00FF == 0
  {
    hide HashStep;
    BackStep(a, b, c, e);
    ByteMasks(a, b, HashStep(a, c) ^ HashStep(b, e));
  }

  /** A difference d confined to the low bytes was confined to one byte more, a step before. */
  lemma ByteMasks(a: bv32, b: bv32, d: bv32)
    requires d & 0x00FF_FF00 == (((a ^ b) >> 8) & 0x00FF_FF00)
    requires a & 0xFF == b & 0xFF
    ensures d == 0 ==> (a ^ b) & 0xFFFF_00FF == 0
    ensures d & 0xFFFF_00FF == 0 ==> (a ^ b) & 0xFF00_00FF == 0
  {
  }

  // one, two or three more characters, if the states end up equal
  lemma LowByte1(a: bv32, b: bv32, c: bv8, e: bv8)
    requires HashStep(a, c) == HashStep(b, e)
    ensures a & 0xFF == b & 0xFF
  {
    hide HashStep;
    BackOne(a, b, c, e);
    LowByteClear(a, b);
  }

  lemma LowByte2(a: bv32, b: bv32, c0: bv8, e0: bv8, c1: bv8, e1: bv8)
    requires HashStep(HashStep(a, c0), c1) == HashStep(HashStep(b, e0), e1)
    ensures a & 0xFF == b & 0xFF
  {
    hide HashStep;
    BackOne(HashStep(a, c0), HashStep(b, e0), c1, e1);
    BackTwo(a, b, c0, e0);
    LowByteClear(a, b);
  }

  lemma LowByte3(a: bv32, b: bv32, c0: bv8, e0: bv8, c1: bv8, e1: bv8, c2: bv8, e2: bv8)
    requires HashStep(HashStep(HashStep(a, c0), c1), c2) == HashStep(HashStep(HashStep(b, e0), e1), e2)
    ensures a & 0xFF == b & 0xFF
  {
    hide HashStep;
    var a1, b1 := HashStep(a, c0), HashStep(b, e0);
    BackOne(HashStep(a1, c1), HashStep(b1, e1), c2, e2);
    BackTwo(a1, b1, c1, e1);
    TopByteClear(a1 ^ b1);
    BackStep(a, b, c0, e0);
  }

  /** Three more characters at most: if the states end up equal, they agreed in the low byte before. */
  lemma LowByteBefore(a: bv32, b: bv32, x: Name, y: Name)
    requires |x| == |y| <= 3 && HashFrom(a, x) == HashFrom(b, y)
    ensures a & 0xFF == b & 0xFF
  {
    hide HashStep, HashFrom;
    Unrolled(a, x);
    Unrolled(b, y);
    if |x| == 1 {
      LowByte1(a, b, x[0], y[0]);
    } else if |x| == 2 {
      LowByte2(a, b, x[0], y[0], x[1], y[1]);
    } else if |x| == 3 {
      LowByte3(a, b, x[0], y[0], x[1], y[1], x[2], y[2]);
    }
  }

  lemma Unrolled(h: bv32, s: Name)
    requires |s| <= 3
    ensures |s| == 0 ==> HashFrom(h, s) == h
    ensures |s| == 1 ==> HashFrom(h, s) == HashStep(h, s[0])
    ensures |s| == 2 ==> HashFrom(h, s) == HashStep(HashStep(h, s[0]), s[1])
    ensures |s| == 3 ==> HashFrom(h, s) == HashStep(HashStep(HashStep(h, s[0]), s[1]), s[2])
  {
    hide HashStep;
    if |s| > 0 { Unrolled(h, s[..|s| - 1]); }
  }

  lemma TopByteClear(d: bv32)
    requires d & 0xFF00_00FF == 0
    ensures d & 0xFF00_0000 == 0
  {
  }

  lemma LowByteClear(a: bv32, b: bv32)
    ensures (a ^ b) & 0xFFFF_00FF == 0 ==> a & 0xFF == b & 0xFF
    ensures (a ^ b) & 0xFF00_00FF == 0 ==> a & 0xFF == b & 0xFF
  {
  }

  /** From one state, different windows of at most four characters lead to different states. */
  lemma {:induction false} WindowInjective(h: bv32, x: Name, y: Name)
    requires |x| == |y| <= 4 && HashFrom(h, x) == HashFrom(h, y)
    ensures x == y
    decreases |x|
  {
    hide HashStep;
    if x != [] {
      HashConcat(h, x[..1], x[1..]);
      HashConcat(h, y[..1], y[1..]);
      assert x == x[..1] + x[1..] && y == y[..1] + y[1..];
      assert x[..1][..0] == [] && y[..1][..0] == [];
      LowByteBefore(HashStep(h, x[0]), HashStep(h, y[0]), x[1..], y[1..]);
      FirstCharacter(h, x[0], y[0]);
      WindowInjective(HashStep(h, x[0]), x[1..], y[1..]);
    }
  }

  lemma FirstCharacter(h: bv32, c: bv8, e: bv8)
    requires HashStep(h, c) & 0xFF == HashStep(h, e) & 0xFF
    ensures c == e
  {
    hide Crc;
    StepIsCrc(h, c);
    StepIsCrc(h, e);
    LowBytes(h >> 8, Crc(h & 0xFF), c, e);
  }

  lemma LowBytes(a: bv32, t: bv32, c: bv8, e: bv8)
    requires (a ^ t ^ (c as bv32)) & 0xFF == (a ^ t ^ (e as bv32)) & 0xFF
    ensures c == e
  {
  }

  /** Hash separation: two names that differ only within four neighbouring characters have different hashes,
    * whatever stands before and after. */
  lemma NearNamesSeparate(p: Name, x: Name, y: Name, q: Name)
    requires |x| == |y| <= 4 && x != y
    ensures Hash(p + x + q) != Hash(p + y + q)
  {
    hide HashStep, Start, HashFrom;
    var h := Start(|p| + |x| + |q|);
    HashConcat(h, p + x, q);
    HashConcat(h, p + y, q);
    HashConcat(h, p, x);
    HashConcat(h, p, y);
    if Hash(p + x + q) == Hash(p + y + q) {
      SuffixInjective(HashFrom(h, p + x), HashFrom(h, p + y), q);
      WindowInjective(HashFrom(h, p), x, y);
    }
  }

  // ----- four is the limit -----

  /** "a003d" and "0RQ_x" */
  const LEFT: Name := [0x61, 0x30, 0x30, 0x33, 0x64]
  const RIGHT: Name := [0x30, 0x52, 0x51, 0x5F, 0x78]

  lemma Five(h: bv32, c0: bv8, c1: bv8, c2: bv8, c3: bv8, c4: bv8)
    ensures HashFrom(h, [c0, c1, c2, c3, c4])
            == HashStep(HashStep(HashStep(HashStep(HashStep(h, c0), c1), c2), c3), c4)
  {
    hide HashStep;
    assert [c0, c1, c2, c3, c4] == (([c0] + [c1]) + [c2]) + [c3] + [c4];
    HashConcat(h, (([c0] + [c1]) + [c2]) + [c3], [c4]);
    HashConcat(h, ([c0] + [c1]) + [c2], [c3]);
    HashConcat(h, [c0] + [c1], [c2]);
    HashConcat(h, [c0], [c1]);
  }

  lemma Evaluates(h: bv32, c: bv8, r: bv32)
    requires (h >> 8) ^ Crc(h & 0xFF) ^ (c as bv32) == r
    ensures HashStep(h, c) == r
  {
    StepIsCrc(h, c);
  }

  /** Two names of five characters, different in all five, with one hash. */
  lemma FiveCanCollide()
    ensures LEFT != RIGHT && |LEFT| == |RIGHT| == 5 && Hash(LEFT) == Hash(RIGHT) == 0x0F87_AD07
  {
    hide Hash;
    assert LEFT[0] != RIGHT[0];
    HashOfLeft();
    HashOfRight();
  }

  lemma HashOfLeft()
    ensures Hash(LEFT) == 0x0F87_AD07
  {
    hide HashStep;
    Five(5, 0x61, 0x30, 0x30, 0x33, 0x64);
    Evaluates(0x0000_0005, 0x61, 0x706A_F4EE);
    Evaluates(0x706A_F4EE, 0x30, 0x47C2_A5BB);
    Evaluates(0x47C2_A5BB, 0x30, 0x5CF4_A891);
    Evaluates(0x5CF4_A891, 0x33, 0x8754_5749);
    Evaluates(0x8754_5749, 0x64, 0x0F87_AD07);
  }

  lemma HashOfRight()
    ensures Hash(RIGHT) == 0x0F87_AD07
  {
    hide HashStep;
    Five(5, 0x30, 0x52, 0x51, 0x5F, 0x78);
    Evaluates(0x0000_0005, 0x30, 0x706A_F4BF);
    Evaluates(0x706A_F4BF, 0x52, 0x5BAE_C4BB);
    Evaluates(0x5BAE_C4BB, 0x51, 0x5CE8_C491);
    Evaluates(0x5CE8_C491, 0x5F, 0x8754_4B49);
    Evaluates(0x8754_4B49, 0x78, 0x0F87_AD07);
  }
}
