// The RCM server's function table as a value: one static table and up to eight
// dynamic ones, packed function indices, and the key that tells an index from
// a later one for the same slot.

module RcmFxnIndex {

  /** RcmServer_addSymbol's packing: bits 30:20 key, 15:12 table, 11:0 offset. */
  function Pack(key: bv32, tab: bv32, off: bv32): bv32 {
    (key << 20) | (tab << 12) | off
  }

  /** The index of a static function: bit 31, and the offset in 15:0. */
  function PackStatic(off: bv32): bv32 { 0x8000_0000 | off }

  function KeyBits(idx: bv32): bv32 { (idx & 0x7FF0_0000) >> 20 }
  function TabBits(idx: bv32): bv32 { (idx & 0xF000) >> 12 }
  function OffBits(idx: bv32): bv32 { idx & 0xFFF }
  function StaticBits(idx: bv32): bv32 { idx & 0xFFFF }

  // ... and the fields as numbers
  function KeyOf(idx: bv32): nat { KeyBits(idx) as nat }
  function TabOf(idx: bv32): nat { TabBits(idx) as nat }
  function OffOf(idx: bv32): nat { OffBits(idx) as nat }
  function StaticOffOf(idx: bv32): nat { StaticBits(idx) as nat }

  predicate IsStatic(idx: bv32) { idx & 0x8000_0000 != 0 }

  /** The packed fields never overlap: each is read back as it was put in. */
  lemma PackedFields(key: bv32, tab: bv32, off: bv32)
    requires key <= 0x7FF && tab <= 0xF && off <= 0xFFF
    ensures var idx := Pack(key, tab, off);
            KeyBits(idx) == key && TabBits(idx) == tab && OffBits(idx) == off && !IsStatic(idx)
  {
  }

  /** A static index is recognised as one. */
  lemma StaticFields(off: bv32)
    requires off <= 0xFFFF
    ensures IsStatic(PackStatic(off)) && StaticBits(PackStatic(off)) == off
  {
  }

  // ----- numbers of at most sixteen bits as 32-bit words -----

  lemma Twice(w: bv12, b: bv12)
    requires w <= 0x7FF && b <= 1
    ensures ((w << 1) | b) as nat == 2 * (w as nat) + (b as nat)
  {
  }

  lemma Small(w: bv12, n: nat)
    requires w as nat <= n <= 0x7FF
    ensures w <= 0x7FF
  {
  }

  lemma {:induction false} SomeWord(n: nat) returns (w: bv12)
    requires n <= 0xFFF
    ensures w as nat == n
  {
    if n == 0 {
      w := 0;
    } else {
      var v := SomeWord(n / 2);
      Small(v, n / 2);
      var b: bv12 := if n % 2 == 0 then 0 else 1;
      Twice(v, b);
      w := (v << 1) | b;
    }
  }

  lemma Widen(w: bv12)
    ensures (w as bv32) as nat == w as nat && w as bv32 <= 0xFFF
    ensures w as nat <= 0xF ==> w as bv32 <= 0xF
    ensures w as nat <= 0xFF ==> w as bv32 <= 0xFF
    ensures w as nat <= 0x7FF ==> w as bv32 <= 0x7FF
  {
  }

  lemma Back(w: bv32)
    ensures (w as nat) as bv32 == w
  {
  }

  /** A number of at most twelve bits survives the conversion to a word, and keeps its bounds. */
  lemma WordOf(n: nat)
    requires n <= 0xFFF
    ensures (n as bv32) as nat == n && n as bv32 <= 0xFFF
    ensures n <= 0xF ==> n as bv32 <= 0xF
    ensures n <= 0xFF ==> n as bv32 <= 0xFF
    ensures n <= 0x7FF ==> n as bv32 <= 0x7FF
  {
    var w := SomeWord(n);
    Widen(w);
    Back(w as bv32);
  }

  lemma Bytes(h: bv32, l: bv32)
    requires h <= 0xFF && l <= 0xFF
    ensures ((h << 8) | l) as nat == 0x100 * (h as nat) + (l as nat) && (h << 8) | l <= 0xFFFF
  {
  }

  lemma Word(n: nat) returns (w: bv32)
    requires n <= 0xFFFF
    ensures w as nat == n && w <= 0xFFFF
  {
    WordOf(n / 0x100);
    WordOf(n % 0x100);
    w := Joined((n / 0x100) as bv32, (n % 0x100) as bv32, n / 0x100, n % 0x100);
  }

  lemma Joined(h: bv32, l: bv32, a: nat, b: nat) returns (w: bv32)
    requires h <= 0xFF && l <= 0xFF && h as nat == a && l as nat == b
    ensures w as nat == 0x100 * a + b && w <= 0xFFFF
  {
    Bytes(h, l);
    w := (h << 8) | l;
  }

  lemma WordBack(w: bv32)
    requires w <= 0xFFFF
    ensures var n := w as nat; (n as bv32) as nat == n && n as bv32 <= 0xFFFF
  {
    Back(w);
  }

  /** So does one of sixteen bits. */
  lemma WideWordOf(n: nat)
    requires n <= 0xFFFF
    ensures (n as bv32) as nat == n && n as bv32 <= 0xFFFF
  {
    var w := Word(n);
    WordBack(w);
  }

  /** The dynamic index made of these three numbers, and the numbers read back from it. */
  function IndexOf(key: nat, tab: nat, off: nat): bv32
    requires key <= 0x7FF && tab <= 0xF && off <= 0xFFF
  {
    Pack(key as bv32, tab as bv32, off as bv32)
  }

  lemma IndexFields(key: nat, tab: nat, off: nat)
    requires key <= 0x7FF && tab <= 0xF && off <= 0xFFF
    ensures var idx := IndexOf(key, tab, off);
            && !IsStatic(idx)
            && KeyOf(idx) == key && TabOf(idx) == tab && OffOf(idx) == off
  {
    WordOf(key);
    WordOf(tab);
    WordOf(off);
    PackedFields(key as bv32, tab as bv32, off as bv32);
  }

  // ----- the index as a number -----

  lemma LowBits(tab: bv32, off: bv32)
    requires tab <= 0xF && off <= 0xFFF
    ensures ((tab << 12) | off) as nat == 0x1000 * (tab as nat) + (off as nat) && (tab << 12) | off <= 0xFFFF
  {
  }

  lemma HighBits(key: bv32, low: bv32)
    requires key <= 0x7FF && low <= 0xFFFF
    ensures ((key << 20) | low) as nat == 0x10_0000 * (key as nat) + (low as nat)
  {
  }

  lemma PackSplits(key: bv32, tab: bv32, off: bv32)
    ensures Pack(key, tab, off) == (key << 20) | ((tab << 12) | off)
  {
  }

  lemma LowNumber(tab: bv32, off: bv32, i: nat, j: nat) returns (low: bv32)
    requires tab <= 0xF && off <= 0xFFF && tab as nat == i && off as nat == j
    ensures low as nat == 0x1000 * i + j && low <= 0xFFFF && low == (tab << 12) | off
  {
    LowBits(tab, off);
    low := (tab << 12) | off;
  }

  lemma HighNumber(key: bv32, low: bv32, k: nat, l: nat) returns (idx: bv32)
    requires key <= 0x7FF && low <= 0xFFFF && key as nat == k && low as nat == l
    ensures idx as nat == 0x10_0000 * k + l && idx == (key << 20) | low
  {
    HighBits(key, low);
    idx := (key << 20) | low;
  }

  lemma PackNumber(key: bv32, tab: bv32, off: bv32, k: nat, i: nat, j: nat) returns (idx: bv32)
    requires key <= 0x7FF && tab <= 0xF && off <= 0xFFF && key as nat == k && tab as nat == i && off as nat == j
    ensures idx as nat == 0x10_0000 * k + 0x1000 * i + j && idx == Pack(key, tab, off)
  {
    var low := LowNumber(tab, off, i, j);
    idx := HighNumber(key, low, k, 0x1000 * i + j);
    PackSplits(key, tab, off);
  }

  /** The layout of a dynamic index: the key times 2^20, the table times 2^12, the offset. */
  lemma IndexNumber(key: nat, tab: nat, off: nat)
    requires key <= 0x7FF && tab <= 0xF && off <= 0xFFF
    ensures IndexOf(key, tab, off) as nat == 0x10_0000 * key + 0x1000 * tab + off
  {
    WordOf(key);
    WordOf(tab);
    WordOf(off);
    var idx := PackNumber(key as bv32, tab as bv32, off as bv32, key, tab, off);
  }
}

module RcmFxnTable {
  import opened Options
  import opened RcmTypes
  import opened RcmFxnIndex

  const MAX_TABLES: nat := 9
  const KEY_RESET: nat := 0x7FF

  /** A function table element; address 0 is NULL and marks a free slot. */
  datatype Elem = Elem(addr: nat, name: Option<string>, key: nat)

  const EMPTY: Elem := Elem(0, None, 0)

  /** Table 0 is the static one; a table not allocated is []. */
  datatype Tables = Tables(tabs: seq<seq<Elem>>, key: nat)

  /** The size of dynamic table i: 1 << (i + 4). */
  function TabSize(i: nat): nat { if i == 0 then 16 else 2 * TabSize(i - 1) }

  lemma TabSizes()
    ensures TabSize(1) == 32 && TabSize(2) == 64 && TabSize(3) == 128 && TabSize(4) == 256
    ensures TabSize(5) == 512 && TabSize(6) == 1024 && TabSize(7) == 2048 && TabSize(8) == 4096
  {
    assert TabSize(1) == 32 && TabSize(2) == 64 && TabSize(3) == 128 && TabSize(4) == 256;
  }

  ghost predicate Shape(t: Tables) {
    && |t.tabs| == MAX_TABLES && t.key <= KEY_RESET && |t.tabs[0]| <= 0x1_0000
    && (forall i :: 1 <= i < MAX_TABLES ==> t.tabs[i] == [] || |t.tabs[i]| == TabSize(i))
    // the allocated tables are a prefix
    && (forall i, k :: 1 <= i < k < MAX_TABLES && t.tabs[i] == [] ==> t.tabs[k] == [])
    && (forall i, j :: 1 <= i < MAX_TABLES && 0 <= j < |t.tabs[i]| ==> t.tabs[i][j].key <= KEY_RESET)
  }

  // ----- the operations -----

  /** RcmServer_getNextKey_P. */
  function NextKey(key: nat): nat { if key <= 1 then KEY_RESET else key - 1 }

  /** The first free slot of a table, or its length. */
  function FirstFree(tab: seq<Elem>): (j: nat)
    ensures j <= |tab|
    ensures j < |tab| ==> tab[j].addr == 0
    ensures forall m :: 0 <= m < j ==> tab[m].addr != 0
  {
    if tab == [] || tab[0].addr == 0 then 0 else 1 + FirstFree(tab[1..])
  }

  datatype Place = Place(tab: nat, off: nat) | Nowhere

  /** Where addSymbol puts a new function, looking from table i on. */
  function FreePlace(tabs: seq<seq<Elem>>, i: nat): (p: Place)
    requires |tabs| == MAX_TABLES && 1 <= i <= MAX_TABLES
    ensures p.Place? ==> i <= p.tab < MAX_TABLES && (tabs[p.tab] == [] ==> p.off == 0) && (tabs[p.tab] != [] ==> p.off < |tabs[p.tab]|)
    decreases MAX_TABLES - i
  {
    if i == MAX_TABLES then Nowhere
    else if tabs[i] == [] then Place(i, 0)
    else if FirstFree(tabs[i]) < |tabs[i]| then Place(i, FirstFree(tabs[i]))
    else FreePlace(tabs, i + 1)
  }

  /** The tables once the one p is in has been allocated. */
  function Allocated(tabs: seq<seq<Elem>>, i: nat): seq<seq<Elem>>
    requires i < |tabs|
  {
    if tabs[i] == [] then tabs[i := seq(TabSize(i), _ => EMPTY)] else tabs
  }

  function PutElem(tabs: seq<seq<Elem>>, i: nat, j: nat, e: Elem): seq<seq<Elem>>
    requires i < |tabs| && j < |tabs[i]|
  {
    tabs[i := tabs[i][j := e]]
  }

  lemma {:induction false} TabSizePositive(i: nat)
    ensures TabSize(i) >= 16 && (i <= 8 ==> TabSize(i) <= 4096)
  {
    if i > 0 { TabSizePositive(i - 1); }
    TabSizes();
  }

  /** RcmServer_addSymbol: the new tables, and the index issued (None: the table is full). */
  function AddSymbol(t: Tables, name: string, addr: nat): (r: (Tables, Option<bv32>))
    requires Shape(t)
  {
    match FreePlace(t.tabs, 1)
    case Nowhere => (t, None)
    case Place(i, j) =>
      TabSizePositive(i);
      var key := NextKey(t.key);
      (Tables(PutElem(Allocated(t.tabs, i), i, j, Elem(addr, Some(name), key)), key), Some(IndexOf(key, i, j)))
  }

  /** The first element of a table with this name, or the table's length. */
  function NameIn(tab: seq<Elem>, name: string): (j: nat)
    ensures j <= |tab|
    ensures j < |tab| ==> tab[j].name == Some(name)
    ensures forall m :: 0 <= m < j ==> tab[m].name != Some(name)
  {
    if tab == [] || tab[0].name == Some(name) then 0 else 1 + NameIn(tab[1..], name)
  }

  /** Where a name stands, looking from table i on, the static table included. */
  function NamePlace(tabs: seq<seq<Elem>>, name: string, i: nat): (p: Place)
    requires i <= |tabs|
    ensures p.Place? ==> i <= p.tab < |tabs| && p.off < |tabs[p.tab]| && tabs[p.tab][p.off].name == Some(name)
    decreases |tabs| - i
  {
    if i == |tabs| then Nowhere
    else if NameIn(tabs[i], name) < |tabs[i]| then Place(i, NameIn(tabs[i], name))
    else NamePlace(tabs, name, i + 1)
  }

  /** RcmServer_getSymIdx_P. */
  function GetSymIdx(t: Tables, name: string): Option<bv32>
    requires Shape(t)
  {
    match NamePlace(t.tabs, name, 0)
    case Nowhere => None
    case Place(i, j) =>
      TabSizePositive(i);
      if i == 0 then Some(PackStatic(j as bv32)) else Some(IndexOf(t.tabs[i][j].key, i, j))
  }

  datatype Removal = Removed | NotFound | StaticSymbol

  /** RcmServer_removeSymbol. */
  function RemoveSymbol(t: Tables, name: string): (Tables, Removal)
    requires Shape(t)
  {
    match NamePlace(t.tabs, name, 0)
    case Nowhere => (t, NotFound)
    case Place(i, j) => if i == 0 then (t, StaticSymbol) else (t.(tabs := PutElem(t.tabs, i, j, EMPTY)), Removed)
  }

  /** What RcmServer_getFxnAddr_P writes: an error, the function address, or (offset 0) the create function. */
  datatype Resolution = Invalid | Function(addr: nat) | CreateFunction(addr: nat)

  /** The offset of a dynamic index is within its table; forged ones are outside the model. */
  predicate WithinTable(t: Tables, idx: bv32) {
    !IsStatic(idx) && 0 < TabOf(idx) < |t.tabs| && t.tabs[TabOf(idx)] != [] ==>
      OffOf(idx) < |t.tabs[TabOf(idx)]|
  }

  /** RcmServer_getFxnAddr_P. For offset 0 only the create pointer is written: for a dynamic function, with NULL. */
  function GetFxnAddr(t: Tables, idx: bv32): Resolution
    requires |t.tabs| == MAX_TABLES && WithinTable(t, idx)
  {
    if IsStatic(idx) then
      var j := StaticOffOf(idx);
      if j >= |t.tabs[0]| then Invalid
      else if j == 0 then CreateFunction(t.tabs[0][0].addr) else Function(t.tabs[0][j].addr)
    else Slot(t, KeyOf(idx), TabOf(idx), OffOf(idx))
  }

  /** What key k finds at place j of dynamic table i. */
  function Slot(t: Tables, k: nat, i: nat, j: nat): Resolution
    requires |t.tabs| == MAX_TABLES && (0 < i < MAX_TABLES && t.tabs[i] != [] ==> j < |t.tabs[i]|)
  {
    if i == 0 || i >= MAX_TABLES || t.tabs[i] == [] then Invalid
    else if k != t.tabs[i][j].key then Invalid
    else if j == 0 then CreateFunction(0) else Function(t.tabs[i][j].addr)
  }
}
