// Finding, removing and resolving functions, in terms of the tables alone: the
// first slot with a name, and what static indices stand for over every run.

module RcmFxnLookup {
  import opened Options
  import opened RcmTypes
  import opened RcmFxnIndex
  import opened RcmFxnTable
  import opened RcmFxnTheorems

  // ----- names -----

  /** Slot j of table i is the first with this name, going through the tables in order, the static one first. */
  predicate FirstWith(tabs: seq<seq<Elem>>, name: string, i: nat, j: nat) {
    && i < |tabs| && j < |tabs[i]| && tabs[i][j].name == Some(name)
    && (forall m :: 0 <= m < j ==> tabs[i][m].name != Some(name))
    && (forall k, m :: 0 <= k < i && 0 <= m < |tabs[k]| ==> tabs[k][m].name != Some(name))
  }

  predicate Nobody(tabs: seq<seq<Elem>>, name: string) {
    forall k, m :: 0 <= k < |tabs| && 0 <= m < |tabs[k]| ==> tabs[k][m].name != Some(name)
  }

  lemma {:induction false} NamePlaceFrom(tabs: seq<seq<Elem>>, name: string, from: nat)
    requires from <= |tabs|
    ensures var p := NamePlace(tabs, name, from);
            && (p.Nowhere? ==> forall k, m :: from <= k < |tabs| && 0 <= m < |tabs[k]| ==> tabs[k][m].name != Some(name))
            && (p.Place? ==>
                  && (forall m :: 0 <= m < p.off ==> tabs[p.tab][m].name != Some(name))
                  && forall k, m :: from <= k < p.tab && 0 <= m < |tabs[k]| ==> tabs[k][m].name != Some(name))
    decreases |tabs| - from
  {
    if from < |tabs| { NamePlaceFrom(tabs, name, from + 1); }
  }

  /** The search comes to the first slot with the name, and to none exactly when nobody has it. */
  lemma NamePlaceExact(tabs: seq<seq<Elem>>, name: string)
    ensures NamePlace(tabs, name, 0) == Nowhere <==> Nobody(tabs, name)
    ensures forall i: nat, j: nat :: NamePlace(tabs, name, 0) == Place(i, j) <==> FirstWith(tabs, name, i, j)
  {
    NamePlaceFrom(tabs, name, 0);
    var p := NamePlace(tabs, name, 0);
    forall i: nat, j: nat ensures p == Place(i, j) <==> FirstWith(tabs, name, i, j) {
      if FirstWith(tabs, name, i, j) {
        assert p.tab <= i;
        assert p.tab == i;
      }
    }
  }

  /** The index has the static flag and this offset; bits 30:16 are reserved. */
  predicate StaticAt(idx: bv32, j: nat) {
    idx & 0x8000_0000 != 0 && (idx & 0xFFFF) as nat == j
  }

  /** The static index issued for this offset. */
  predicate IssuedStatic(idx: bv32, j: nat) {
    j <= 0xFFFF && idx == 0x8000_0000 | (j as bv32) && StaticAt(idx, j)
  }

  /** A dynamic index with this key, table and offset. */
  predicate DynamicAt(idx: bv32, key: nat, i: nat, j: nat) {
    && idx & 0x8000_0000 == 0 && KeyOf(idx) == key && TabOf(idx) == i && OffOf(idx) == j
    && idx as nat == 0x10_0000 * key + 0x1000 * i + j
  }

  lemma PackedStatic(j: nat)
    requires j <= 0xFFFF
    ensures IssuedStatic(PackStatic(j as bv32), j)
  {
    WideWordOf(j);
    StaticFields(j as bv32);
  }

  lemma PackedDynamic(key: nat, i: nat, j: nat)
    requires key <= 0x7FF && i <= 0xF && j <= 0xFFF
    ensures DynamicAt(IndexOf(key, i, j), key, i, j)
  {
    hide KeyOf, TabOf, OffOf, IndexOf;
    IndexFields(key, i, j);
    IndexNumber(key, i, j);
  }

  /** The index looked up for a name is that of the first slot with it: static flag and offset, or key, table and offset. */
  lemma LookupExact(t: Tables, name: string)
    requires Shape(t)
    ensures GetSymIdx(t, name).None? <==> Nobody(t.tabs, name)
    ensures forall i: nat, j: nat :: FirstWith(t.tabs, name, i, j) ==>
              GetSymIdx(t, name).Some? &&
              var idx := GetSymIdx(t, name).value;
              if i == 0 then IssuedStatic(idx, j) else DynamicAt(idx, t.tabs[i][j].key, i, j)
  {
    hide NamePlace, IssuedStatic, DynamicAt, PackStatic, IndexOf, TabSize, FirstWith, Nobody;
    NamePlaceExact(t.tabs, name);
    var p := NamePlace(t.tabs, name, 0);
    if p.Place? {
      TabSizePositive(p.tab);
      if p.tab == 0 { PackedStatic(p.off); } else { PackedDynamic(t.tabs[p.tab][p.off].key, p.tab, p.off); }
    }
  }

  /** A removal clears the first slot with the name and nothing else; a static function stays, and so does everything when
    * nobody has the name. */
  lemma RemoveExact(t: Tables, name: string)
    requires Shape(t)
    ensures Nobody(t.tabs, name) ==> RemoveSymbol(t, name) == (t, NotFound)
    ensures forall j: nat :: FirstWith(t.tabs, name, 0, j) ==> RemoveSymbol(t, name) == (t, StaticSymbol)
    ensures forall i: nat, j: nat :: i > 0 && FirstWith(t.tabs, name, i, j) ==>
              var (t', r) := RemoveSymbol(t, name);
              && r == Removed && t'.key == t.key && |t'.tabs| == |t.tabs|
              && (forall k :: 0 <= k < |t.tabs| && k != i ==> t'.tabs[k] == t.tabs[k])
              && |t'.tabs[i]| == |t.tabs[i]|
              && forall m :: 0 <= m < |t.tabs[i]| ==> t'.tabs[i][m] == if m == j then Elem(0, None, 0) else t.tabs[i][m]
  {
    NamePlaceExact(t.tabs, name);
  }

  // ----- static functions -----

  /** No addition or removal touches the static table. */
  lemma {:induction false} StaticKept(t: Tables, ops: seq<Op>)
    requires Shape(t)
    ensures Run(t, ops).tabs[0] == t.tabs[0]
    decreases |ops|
  {
    hide NamePlace, TabSize, Clears;
    if ops != [] {
      ShapeKept(t, ops[0]);
      if ops[0].Add? && FreePlace(t.tabs, 1).Place? { AddPuts(t, ops[0].name, ops[0].addr); }
      StaticKept(Step(t, ops[0]), ops[1..]);
    }
  }

  /** What a static index stands for does not depend on the run: the function at its offset in the static table, the create
    * function for offset 0, and nothing past the table's end. */
  lemma StaticResolves(t: Tables, ops: seq<Op>, idx: bv32, j: nat)
    requires InitTables(t) && StaticAt(idx, j)
    ensures Shape(t) && WithinTable(Run(t, ops), idx)
    ensures GetFxnAddr(Run(t, ops), idx) ==
              if j >= |t.tabs[0]| then Invalid else if j == 0 then CreateFunction(t.tabs[0][0].addr) else Function(t.tabs[0][j].addr)
  {
    hide Run;
    InitShape(t);
    StaticKept(t, ops);
  }

  /** Every offset has such an index: bit 31, and the offset below it. */
  lemma StaticIndexOf(t: Tables, ops: seq<Op>, j: nat)
    requires InitTables(t) && j <= 0xFFFF
    ensures Shape(t)
    ensures var t2 := Run(t, ops); var idx := 0x8000_0000 | (j as bv32);
            && WithinTable(t2, idx)
            && (0 < j < |t.tabs[0]| ==> GetFxnAddr(t2, idx) == Function(t.tabs[0][j].addr))
            && (j == 0 < |t.tabs[0]| ==> GetFxnAddr(t2, idx) == CreateFunction(t.tabs[0][0].addr))
            && (j >= |t.tabs[0]| ==> GetFxnAddr(t2, idx) == Invalid)
  {
    hide Run, GetFxnAddr, WithinTable;
    WideWordOf(j);
    StaticFields(j as bv32);
    StaticResolves(t, ops, 0x8000_0000 | (j as bv32), j);
  }

  /** After any run, looking up a static function's name gives an index that resolves to the first function of that name in
    * the static table, whatever dynamic functions there are; and removing it is refused. */
  lemma StaticNameResolves(t: Tables, ops: seq<Op>, name: string, j: nat)
    requires InitTables(t) && j < |t.tabs[0]| && t.tabs[0][j].name == Some(name)
    requires forall m :: 0 <= m < j ==> t.tabs[0][m].name != Some(name)
    ensures Shape(t)
    ensures var t2 := Run(t, ops);
            && GetSymIdx(t2, name).Some?
            && RemoveSymbol(t2, name) == (t2, StaticSymbol)
            && var idx := GetSymIdx(t2, name).value;
               && WithinTable(t2, idx)
               && GetFxnAddr(t2, idx) == if j == 0 then CreateFunction(t.tabs[0][0].addr) else Function(t.tabs[0][j].addr)
  {
    hide Run, GetFxnAddr, WithinTable, GetSymIdx, RemoveSymbol, KeyOf, TabOf, OffOf, StaticAt;
    InitShape(t);
    StaticKept(t, ops);
    var t2 := Run(t, ops);
    assert FirstWith(t2.tabs, name, 0, j);
    LookupExact(t2, name);
    RemoveExact(t2, name);
    assert IssuedStatic(GetSymIdx(t2, name).value, j);
    StaticResolves(t, ops, GetSymIdx(t2, name).value, j);
  }
}
