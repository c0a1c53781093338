// The function table as the C code keeps it: an array of pointers to arrays,
// searched by nested loops and updated in place.

module RcmFxnTabs {
  import opened Options
  import opened RcmTypes
  import opened RcmFxnIndex
  import opened RcmFxnTable
  import opened RcmFxnTheorems

  class FxnTabs {
    const fxnTab: array<array?<Elem>>
    var key: nat

    ghost predicate Valid()
      reads this, fxnTab, set i | 0 <= i < fxnTab.Length :: fxnTab[i]
    {
      && fxnTab.Length == MAX_TABLES
      && (forall i, k :: 0 <= i < k < MAX_TABLES && fxnTab[i] != null ==> fxnTab[i] != fxnTab[k])
      && (forall i :: 0 <= i < MAX_TABLES && fxnTab[i] != null ==> fxnTab[i].Length > 0)
      && Shape(View())
    }

    /** The tables as values; a NULL pointer is the empty table. */
    ghost function View(): (t: Tables)
      reads this, fxnTab, set i | 0 <= i < fxnTab.Length :: fxnTab[i]
      ensures |t.tabs| == fxnTab.Length && t.key == key
      ensures forall i :: 0 <= i < fxnTab.Length ==> t.tabs[i] == if fxnTab[i] == null then [] else fxnTab[i][..]
    {
      Tables(seq(fxnTab.Length, i requires 0 <= i < fxnTab.Length reads this, fxnTab, set k | 0 <= k < fxnTab.Length :: fxnTab[k]
                                => if fxnTab[i] == null then [] else fxnTab[i][..]), key)
    }

    /** An instance with this static table. */
    constructor (fxns: seq<Elem>)
      requires |fxns| <= 0x1_0000
      ensures Valid() && fresh(fxnTab) && InitTables(View()) && View().tabs[0] == fxns
      ensures fxnTab[0] != null ==> fresh(fxnTab[0])
    {
      fxnTab := new array?<Elem>[MAX_TABLES](_ => null);
      key := 0;
      new;
      hide Shape, TabSize;
      if |fxns| > 0 {
        var tab := new Elem[|fxns|](i requires 0 <= i < |fxns| => fxns[i]);
        fxnTab[0] := tab;
        assert tab[..] == fxns;
      }
      assert View().tabs[0] == fxns;
      InitShape(View());
    }

    /** RcmServer_getNextKey_P. */
    method GetNextKey() returns (k: nat)
      modifies this
      ensures k == key == NextKey(old(key))
    {
      if key <= 1 { key := KEY_RESET; } else { key := key - 1; }
      k := key;
    }

    /** The inner search of RcmServer_addSymbol: the first free slot of one table. */
    method FreeIn(tab: array<Elem>) returns (j: nat)
      ensures j == FirstFree(tab[..])
    {
      j := 0;
      while j < tab.Length
        invariant 0 <= j <= tab.Length
        invariant forall m :: 0 <= m < j ==> tab[m].addr != 0
      {
        if tab[j].addr == 0 { break; }
        j := j + 1;
      }
      assert j == tab.Length || tab[..][j].addr == 0;
    }

    /** Allocating and initializing table i. */
    method Allocate(i: nat)
      requires fxnTab.Length == MAX_TABLES && i < MAX_TABLES && fxnTab[i] == null
      modifies fxnTab
      ensures fxnTab[i] != null && fresh(fxnTab[i]) && fxnTab[i].Length == TabSize(i)
      ensures View().tabs == Allocated(old(View()).tabs, i)
      ensures forall k :: 0 <= k < MAX_TABLES && k != i ==> fxnTab[k] == old(fxnTab[k])
    {
      hide TabSize;
      ghost var before := View().tabs;
      var tab := new Elem[TabSize(i)](_ => EMPTY);
      fxnTab[i] := tab;
      assert tab[..] == seq(TabSize(i), _ => EMPTY);
      assert forall k :: 0 <= k < MAX_TABLES && k != i ==> View().tabs[k] == before[k];
    }

    /** The slot search of RcmServer_addSymbol, allocating a new table when all before it are full. */
    method FindSlot() returns (i: nat, j: nat, found: bool)
      requires fxnTab.Length == MAX_TABLES
      requires forall i :: 0 <= i < MAX_TABLES && fxnTab[i] != null ==> fxnTab[i].Length > 0
      modifies fxnTab
      ensures found <==> FreePlace(old(View()).tabs, 1).Place?
      ensures found ==> i < MAX_TABLES && FreePlace(old(View()).tabs, 1) == Place(i, j) && fxnTab[i] != null
                        && View().tabs == Allocated(old(View()).tabs, i)
      ensures !found ==> View() == old(View())
      ensures forall k :: 0 <= k < MAX_TABLES ==>
                fxnTab[k] == old(fxnTab[k]) || (found && k == i && old(fxnTab[k]) == null && fresh(fxnTab[k]) && fxnTab[k].Length == TabSize(k))
    {
      hide FirstFree, TabSize;
      ghost var t := View();
      i := 1;
      j := 0;
      found := false;
      while i < MAX_TABLES
        invariant 1 <= i <= MAX_TABLES && !found
        invariant forall k :: 0 <= k < MAX_TABLES ==> fxnTab[k] == old(fxnTab[k])
        invariant View() == t
        invariant FreePlace(t.tabs, 1) == FreePlace(t.tabs, i)
      {
        assert t.tabs[i] == View().tabs[i];
        if fxnTab[i] != null {
          j := FreeIn(fxnTab[i]);
          found := j < fxnTab[i].Length;
        } else {
          Allocate(i);
          j := 0;
          found := true;
        }
        if found { break; }
        i := i + 1;
      }
    }

    /** RcmServer_addSymbol. */
    method Add(name: string, addr: nat) returns (index: Option<bv32>)
      requires Valid()
      modifies this, fxnTab, set i | 0 <= i < fxnTab.Length :: fxnTab[i]
      ensures Valid()
      ensures (View(), index) == AddSymbol(old(View()), name, addr)
    {
      hide IndexOf, TabSize, FreePlace, FirstFree, Shape;
      ghost var t := View();
      ShapeKept(t, RcmFxnTheorems.Add(name, addr));
      var i, j, found := FindSlot();
      if !found { return None; }
      TabSizePositive(i);
      ghost var grown := View().tabs;
      assert grown[i] == fxnTab[i][..];
      var k := GetNextKey();
      fxnTab[i][j] := Elem(addr, Some(name), k);
      assert View().tabs == PutElem(grown, i, j, Elem(addr, Some(name), k)) by {
        assert fxnTab[i][..] == grown[i][j := Elem(addr, Some(name), k)];
      }
      index := Some(IndexOf(k, i, j));
    }

    /** The name search of RcmServer_getSymIdx_P. */
    method FindName(name: string) returns (i: nat, j: nat, found: bool)
      requires Valid()
      ensures NamePlace(View().tabs, name, 0) == if found then Place(i, j) else Nowhere
      ensures found ==> i < MAX_TABLES && fxnTab[i] != null && j < fxnTab[i].Length
    {
      hide Shape, TabSize;
      i := 0;
      j := 0;
      found := false;
      while i < MAX_TABLES
        invariant 0 <= i <= MAX_TABLES && !found
        invariant NamePlace(View().tabs, name, 0) == NamePlace(View().tabs, name, i)
      {
        if fxnTab[i] != null {
          j := 0;
          while j < fxnTab[i].Length
            invariant 0 <= j <= fxnTab[i].Length && !found
            invariant forall m :: 0 <= m < j ==> fxnTab[i][m].name != Some(name)
          {
            if fxnTab[i][j].name == Some(name) {
              found := true;
              break;
            }
            j := j + 1;
          }
          assert View().tabs[i] == fxnTab[i][..];
        }
        if found { break; }
        i := i + 1;
      }
    }

    /** RcmServer_getSymIdx_P. */
    method SymIdx(name: string) returns (index: Option<bv32>)
      requires Valid()
      ensures index == GetSymIdx(View(), name)
    {
      hide IndexOf, PackStatic, TabSize, NamePlace;
      var i, j, found := FindName(name);
      if !found { return None; }
      TabSizePositive(i);
      assert View().tabs[i][j] == fxnTab[i][j];
      if i == 0 { return Some(PackStatic(j as bv32)); }
      return Some(IndexOf(fxnTab[i][j].key, i, j));
    }

    /** RcmServer_removeSymbol. */
    method Remove(name: string) returns (r: Removal)
      requires Valid()
      modifies set i | 0 <= i < fxnTab.Length :: fxnTab[i]
      ensures Valid()
      ensures (View(), r) == RemoveSymbol(old(View()), name)
    {
      hide IndexOf, PackStatic, TabSize, NamePlace, KeyOf, TabOf, OffOf, IsStatic;
      ghost var t := View();
      ShapeKept(t, RcmFxnTheorems.Remove(name));
      var index := SymIdx(name);
      if index.None? { return NotFound; }
      var idx := index.value;
      IndexSplits(t, name);
      if IsStatic(idx) { return StaticSymbol; }
      var tabIdx := TabOf(idx);
      var tabOff := OffOf(idx);
      assert View().tabs[tabIdx] == fxnTab[tabIdx][..];
      fxnTab[tabIdx][tabOff] := EMPTY;
      assert View().tabs == PutElem(t.tabs, tabIdx, tabOff, EMPTY);
      return Removed;
    }

    /** RcmServer_getFxnAddr_P. */
    method FxnAddr(idx: bv32) returns (r: Resolution)
      requires Valid() && WithinTable(View(), idx)
      ensures r == GetFxnAddr(View(), idx)
    {
      hide TabSize, KeyOf, TabOf, OffOf, IsStatic, StaticOffOf, Shape;
      if IsStatic(idx) {
        var j := StaticOffOf(idx);
        if fxnTab[0] == null || j >= fxnTab[0].Length { return Invalid; }
        return if j == 0 then CreateFunction(fxnTab[0][j].addr) else Function(fxnTab[0][j].addr);
      }
      r := DynamicAddr(KeyOf(idx), TabOf(idx), OffOf(idx));
    }

    method DynamicAddr(k: nat, i: nat, j: nat) returns (r: Resolution)
      requires Valid() && (0 < i < MAX_TABLES && View().tabs[i] != [] ==> j < |View().tabs[i]|)
      ensures r == Slot(View(), k, i, j)
    {
      if i == 0 || i >= MAX_TABLES || fxnTab[i] == null { return Invalid; }
      assert View().tabs[i] == fxnTab[i][..];
      var slot := fxnTab[i][j];
      if k != slot.key { return Invalid; }
      return if j == 0 then CreateFunction(0) else Function(slot.addr);
    }
  }

  /** removeSymbol takes the index apart into the place the name was found at. */
  lemma IndexSplits(t: Tables, name: string)
    requires Shape(t) && GetSymIdx(t, name).Some?
    ensures var idx := GetSymIdx(t, name).value; var p := NamePlace(t.tabs, name, 0);
            && p.Place? && (IsStatic(idx) <==> p.tab == 0)
            && (p.tab != 0 ==> TabOf(idx) == p.tab && OffOf(idx) == p.off)
  {
    var p := NamePlace(t.tabs, name, 0);
    TabSizePositive(p.tab);
    if p.tab == 0 {
      assert IsStatic(0x8000_0000 | p.off as bv32);
    } else {
      IndexFields(t.tabs[p.tab][p.off].key, p.tab, p.off);
    }
  }
}
