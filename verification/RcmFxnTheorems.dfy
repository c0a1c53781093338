// What function indices are good for, over every run of additions and removals.

module RcmFxnTheorems {
  import opened Options
  import opened RcmTypes
  import opened RcmFxnIndex
  import opened RcmFxnTable

  datatype Op = Add(name: string, addr: nat) | Remove(name: string)

  function Step(t: Tables, op: Op): Tables
    requires Shape(t)
  {
    match op
    case Add(name, addr) => AddSymbol(t, name, addr).0
    case Remove(name) => RemoveSymbol(t, name).0
  }

  /** A server just created, with this static table (its keys are 0). */
  ghost predicate InitTables(t: Tables) {
    && |t.tabs| == MAX_TABLES && t.key == 0 && |t.tabs[0]| <= 0x1_0000
    && forall i :: 1 <= i < MAX_TABLES ==> t.tabs[i] == []
  }

  lemma InitShape(t: Tables)
    requires InitTables(t)
    ensures Shape(t)
  {
  }

  // ----- one step -----

  /** An addition fills one free slot and leaves every other slot as it was. */
  lemma AddPuts(t: Tables, name: string, addr: nat)
    requires Shape(t) && FreePlace(t.tabs, 1).Place?
    ensures var t' := AddSymbol(t, name, addr).0; var p := FreePlace(t.tabs, 1);
            && t'.key == NextKey(t.key) && |t'.tabs| == MAX_TABLES && |t'.tabs[p.tab]| == TabSize(p.tab) && p.off < TabSize(p.tab)
            && t'.tabs[p.tab][p.off] == Elem(addr, Some(name), t'.key)
            && (t.tabs[p.tab] != [] ==> |t'.tabs[p.tab]| == |t.tabs[p.tab]| && t.tabs[p.tab][p.off].addr == 0)
            && (forall i :: 0 <= i < MAX_TABLES && i != p.tab ==> t'.tabs[i] == t.tabs[i])
            && (forall j :: 0 <= j < TabSize(p.tab) && j != p.off ==>
                 t'.tabs[p.tab][j] == if t.tabs[p.tab] == [] then EMPTY else t.tabs[p.tab][j])
  {
    TabSizePositive(FreePlace(t.tabs, 1).tab);
    FreePlaceIsFirst(t, 1);
  }

  /** addSymbol takes the first free slot: all slots before it are taken, and it allocates a table only when all
    * earlier tables are full. */
  lemma {:induction false} FreePlaceIsFirst(t: Tables, i: nat)
    requires Shape(t) && 1 <= i <= MAX_TABLES
    ensures var p := FreePlace(t.tabs, i);
            && (p.Place? && t.tabs[p.tab] != [] ==> t.tabs[p.tab][p.off].addr == 0)
            && (p.Place? && t.tabs[p.tab] != [] ==> forall j :: 0 <= j < p.off ==> t.tabs[p.tab][j].addr != 0)
            && (forall k, j :: i <= k < (if p.Place? then p.tab else MAX_TABLES) && 0 <= j < |t.tabs[k]| ==> t.tabs[k][j].addr != 0)
            && (forall k :: i <= k < (if p.Place? then p.tab else MAX_TABLES) ==> t.tabs[k] != [])
    decreases MAX_TABLES - i
  {
    if i < MAX_TABLES && t.tabs[i] != [] && FirstFree(t.tabs[i]) == |t.tabs[i]| {
      FreePlaceIsFirst(t, i + 1);
    }
  }

  /** The tables keep their shape: an allocated prefix, sizes doubling from 32 to 4096, keys of 11 bits. */
  lemma ShapeKept(t: Tables, op: Op)
    requires Shape(t)
    ensures Shape(Step(t, op))
  {
    match op
    case Add(name, addr) =>
      if FreePlace(t.tabs, 1).Place? {
        AddPuts(t, name, addr);
        FreePlaceIsFirst(t, 1);
        TabSizePositive(FreePlace(t.tabs, 1).tab);
      }
    case Remove(name) =>
  }

  // ----- "table full" -----

  function TakenIn(tab: seq<Elem>): nat {
    if tab == [] then 0 else (if tab[0].addr != 0 then 1 else 0) + TakenIn(tab[1..])
  }

  /** The number of taken slots of the dynamic tables from i on. */
  function Taken(tabs: seq<seq<Elem>>, i: nat): nat
    requires i <= |tabs|
    decreases |tabs| - i
  {
    if i == |tabs| then 0 else TakenIn(tabs[i]) + Taken(tabs, i + 1)
  }

  function SlotsFrom(i: nat): nat
    requires i <= MAX_TABLES
    decreases MAX_TABLES - i
  {
    if i == MAX_TABLES then 0 else TabSize(i) + SlotsFrom(i + 1)
  }

  lemma {:induction false} TakenInBound(tab: seq<Elem>)
    ensures TakenIn(tab) <= |tab|
    ensures TakenIn(tab) == |tab| <==> FirstFree(tab) == |tab|
  {
    if tab != [] { TakenInBound(tab[1..]); }
  }

  lemma {:induction false} TakenBound(t: Tables, i: nat)
    requires Shape(t) && 1 <= i <= MAX_TABLES
    ensures Taken(t.tabs, i) <= SlotsFrom(i)
    ensures Taken(t.tabs, i) == SlotsFrom(i) <==> FreePlace(t.tabs, i) == Nowhere
    decreases MAX_TABLES - i
  {
    if i < MAX_TABLES {
      TakenBound(t, i + 1);
      TakenInBound(t.tabs[i]);
      TabSizePositive(i);
    }
  }

  lemma SlotsInAll()
    ensures SlotsFrom(1) == 8160
  {
    TabSizes();
    assert SlotsFrom(9) == 0 && SlotsFrom(8) == 4096 && SlotsFrom(7) == 6144 && SlotsFrom(6) == 7168;
    assert SlotsFrom(5) == 7680 && SlotsFrom(4) == 7936 && SlotsFrom(3) == 8064 && SlotsFrom(2) == 8128;
  }

  /** "Table full" is reported exactly when all 8160 dynamic slots are taken. */
  lemma FullExactlyAt8160(t: Tables, name: string, addr: nat)
    requires Shape(t)
    ensures AddSymbol(t, name, addr).1.None? <==> Taken(t.tabs, 1) == 8160
    ensures AddSymbol(t, name, addr).1.None? ==> AddSymbol(t, name, addr).0 == t
  {
    TakenBound(t, 1);
    SlotsInAll();
  }

  // ----- keys -----

  /** The key issued n additions after one with key k. */
  function KeyAfter(k: nat, n: nat): nat { if n == 0 then k else NextKey(KeyAfter(k, n - 1)) }

  lemma KeyStep(k: nat, n: nat)
    ensures KeyAfter(k, n + 1) == NextKey(KeyAfter(k, n))
  {
  }

  lemma {:induction false} KeyAfterIs(k: nat, n: nat)
    requires 1 <= k <= KEY_RESET
    ensures KeyAfter(k, n) == if n < k then k - n else 1 + (k - 1 - n) % KEY_RESET
  {
    if n != 0 {
      KeyAfterIs(k, n - 1);
      ModBefore(k - n);
    }
  }

  lemma ModBefore(x: int)
    ensures (x - 1) % KEY_RESET == if x % KEY_RESET == 0 then KEY_RESET - 1 else x % KEY_RESET - 1
  {
  }

  /** Keys run through all 2047 non-zero values before one comes back. */
  lemma KeysCycle(k: nat, n: nat)
    requires 1 <= k <= KEY_RESET
    ensures 1 <= KeyAfter(k, n) <= KEY_RESET
    ensures 1 <= n <= 2046 ==> KeyAfter(k, n) != k
    ensures KeyAfter(k, 2047) == k
  {
    KeyAfterIs(k, n);
    KeyAfterIs(k, 2047);
  }

  // ----- runs -----

  function Run(t: Tables, ops: seq<Op>): (r: Tables)
    requires Shape(t)
    ensures Shape(r)
    decreases |ops|
  {
    if ops == [] then t else (ShapeKept(t, ops[0]); Run(Step(t, ops[0]), ops[1..]))
  }

  /** The additions of a run that got a slot. */
  function Issued(t: Tables, ops: seq<Op>): nat
    requires Shape(t)
    decreases |ops|
  {
    if ops == [] then 0
    else
      ShapeKept(t, ops[0]);
      (if ops[0].Add? && FreePlace(t.tabs, 1).Place? then 1 else 0) + Issued(Step(t, ops[0]), ops[1..])
  }

  /** The operation clears slot (i, j). */
  predicate Clears(t: Tables, op: Op, i: nat, j: nat)
    requires Shape(t)
  {
    op.Remove? && i != 0 && NamePlace(t.tabs, op.name, 0) == Place(i, j)
  }

  /** Some operation of the run clears slot (i, j). */
  predicate ClearedIn(t: Tables, ops: seq<Op>, i: nat, j: nat)
    requires Shape(t)
    decreases |ops|
  {
    ops != [] && (ShapeKept(t, ops[0]); Clears(t, ops[0], i, j) || ClearedIn(Step(t, ops[0]), ops[1..], i, j))
  }

  predicate HasSlot(t: Tables, i: nat, j: nat) {
    |t.tabs| == MAX_TABLES && 1 <= i < MAX_TABLES && j < |t.tabs[i]|
  }

  /** What one operation does to an existing slot. */
  lemma SlotAfter(t: Tables, op: Op, i: nat, j: nat)
    requires Shape(t) && HasSlot(t, i, j)
    ensures var t' := Step(t, op);
            && HasSlot(t', i, j)
            && (Clears(t, op, i, j) ==> t'.tabs[i][j] == EMPTY)
            && (!Clears(t, op, i, j) && t.tabs[i][j].addr != 0 ==> t'.tabs[i][j] == t.tabs[i][j])
            && (!Clears(t, op, i, j) ==> t'.tabs[i][j] == t.tabs[i][j] || (op.Add? && FreePlace(t.tabs, 1).Place? && t'.tabs[i][j].key == NextKey(t.key)))
            && t'.key == if op.Add? && FreePlace(t.tabs, 1).Place? then NextKey(t.key) else t.key
  {
    if op.Add? && FreePlace(t.tabs, 1).Place? {
      AddPuts(t, op.name, op.addr);
    }
  }

  /** While nobody clears its slot a function stays in it, however many additions and removals there are. */
  lemma {:induction false} SlotStays(t: Tables, ops: seq<Op>, i: nat, j: nat)
    requires Shape(t) && HasSlot(t, i, j) && t.tabs[i][j].addr != 0 && !ClearedIn(t, ops, i, j)
    ensures HasSlot(Run(t, ops), i, j) && Run(t, ops).tabs[i][j] == t.tabs[i][j]
    decreases |ops|
  {
    if ops != [] {
      ShapeKept(t, ops[0]);
      SlotAfter(t, ops[0], i, j);
      SlotStays(Step(t, ops[0]), ops[1..], i, j);
    }
  }

  /** A slot whose key is not k gets a key other than k from each of the next additions, as long as fewer than 2047
    * additions have been made since k was issued. */
  lemma {:induction false} KeyStaysAway(t: Tables, ops: seq<Op>, i: nat, j: nat, k: nat, n: nat)
    requires Shape(t) && HasSlot(t, i, j) && 1 <= k <= KEY_RESET && t.key == KeyAfter(k, n)
    requires t.tabs[i][j].key != k && n + Issued(t, ops) <= 2046
    ensures HasSlot(Run(t, ops), i, j) && Run(t, ops).tabs[i][j].key != k
    decreases |ops|
  {
    hide Shape, FreePlace, Step, TabSize;
    if ops != [] {
      ShapeKept(t, ops[0]);
      SlotAfter(t, ops[0], i, j);
      var n' := if ops[0].Add? && FreePlace(t.tabs, 1).Place? then n + 1 else n;
      if n' == n + 1 { KeysCycle(k, n + 1); }
      KeyStaysAway(Step(t, ops[0]), ops[1..], i, j, k, n');
    }
  }

  lemma {:induction false} ClearedKeyGone(t: Tables, ops: seq<Op>, i: nat, j: nat, k: nat, n: nat)
    requires Shape(t) && HasSlot(t, i, j) && 1 <= k <= KEY_RESET && t.key == KeyAfter(k, n)
    requires t.tabs[i][j].addr != 0 && ClearedIn(t, ops, i, j) && n + Issued(t, ops) <= 2046
    ensures HasSlot(Run(t, ops), i, j) && Run(t, ops).tabs[i][j].key != k
    decreases |ops|
  {
    hide Shape, FreePlace, Step, TabSize, Clears, KeyAfter;
    ShapeKept(t, ops[0]);
    SlotAfter(t, ops[0], i, j);
    var n' := if ops[0].Add? && FreePlace(t.tabs, 1).Place? then n + 1 else n;
    KeyStep(k, n);
    if Clears(t, ops[0], i, j) {
      KeyStaysAway(Step(t, ops[0]), ops[1..], i, j, k, n');
    } else {
      ClearedKeyGone(Step(t, ops[0]), ops[1..], i, j, k, n');
    }
  }

  /** The slot and key an addition issues. */
  lemma IssuedSlot(t: Tables, name: string, addr: nat) returns (i: nat, j: nat, k: nat)
    requires Shape(t) && AddSymbol(t, name, addr).1.Some?
    ensures var t1 := Step(t, Add(name, addr)); var idx := AddSymbol(t, name, addr).1.value;
            && HasSlot(t1, i, j) && t1.tabs[i][j] == Elem(addr, Some(name), k) && t1.key == k && 1 <= k <= KEY_RESET
            && i <= 0xF && j <= 0xFFF && idx == IndexOf(k, i, j) && FreePlace(t.tabs, 1) == Place(i, j)
            && !IsStatic(idx) && KeyOf(idx) == k && TabOf(idx) == i && OffOf(idx) == j
  {
    AddPuts(t, name, addr);
    var p := FreePlace(t.tabs, 1);
    i, j, k := p.tab, p.off, NextKey(t.key);
    TabSizePositive(i);
    IndexFields(k, i, j);
  }

  lemma SlotOfIndex(t: Tables, idx: bv32, k: nat, i: nat, j: nat)
    requires HasSlot(t, i, j) && !IsStatic(idx) && KeyOf(idx) == k && TabOf(idx) == i && OffOf(idx) == j
    ensures WithinTable(t, idx) && GetFxnAddr(t, idx) == Slot(t, k, i, j)
    ensures j == 0 <==> OffOf(idx) == 0
  {
    hide KeyOf, TabOf, OffOf, IsStatic, StaticOffOf;
  }

  /** While live, an index resolves to exactly its function, after any run; one issued for slot 0 resolves to the null
    * create function. */
  lemma LiveIndexResolves(t: Tables, name: string, addr: nat, ops: seq<Op>)
    requires Shape(t) && addr != 0 && AddSymbol(t, name, addr).1.Some?
    ensures var idx := AddSymbol(t, name, addr).1.value; var t1 := Step(t, Add(name, addr));
            && Shape(t1)
            && (!ClearedIn(t1, ops, TabOf(idx), OffOf(idx)) ==>
                 var t2 := Run(t1, ops);
                 WithinTable(t2, idx) && GetFxnAddr(t2, idx) == if OffOf(idx) == 0 then CreateFunction(0) else Function(addr))
  {
    hide KeyOf, TabOf, OffOf, IsStatic, StaticOffOf, AddSymbol, RemoveSymbol, ClearedIn, Run, TabSize, GetFxnAddr, WithinTable, Shape;
    var i, j, k := IssuedSlot(t, name, addr);
    var t1 := Step(t, Add(name, addr));
    ShapeKept(t, Add(name, addr));
    if !ClearedIn(t1, ops, i, j) {
      SlotStays(t1, ops, i, j);
      SlotOfIndex(Run(t1, ops), AddSymbol(t, name, addr).1.value, k, i, j);
    }
  }

  /** Once its slot has been cleared, an index is rejected throughout the 2046 additions after the one that issued it,
    * whatever its slot is used for by then. */
  lemma RemovedIndexRejected(t: Tables, name: string, addr: nat, ops: seq<Op>)
    requires Shape(t) && addr != 0 && AddSymbol(t, name, addr).1.Some?
    ensures var idx := AddSymbol(t, name, addr).1.value; var t1 := Step(t, Add(name, addr));
            && Shape(t1)
            && (ClearedIn(t1, ops, TabOf(idx), OffOf(idx)) && Issued(t1, ops) <= 2046 ==>
                 var t2 := Run(t1, ops);
                 WithinTable(t2, idx) && GetFxnAddr(t2, idx) == Invalid)
  {
    hide KeyOf, TabOf, OffOf, IsStatic, StaticOffOf, AddSymbol, RemoveSymbol, ClearedIn, Run, TabSize, GetFxnAddr, WithinTable, Shape, Issued;
    var i, j, k := IssuedSlot(t, name, addr);
    var t1 := Step(t, Add(name, addr));
    ShapeKept(t, Add(name, addr));
    if ClearedIn(t1, ops, i, j) && Issued(t1, ops) <= 2046 {
      ClearedKeyGone(t1, ops, i, j, k, 0);
      SlotOfIndex(Run(t1, ops), AddSymbol(t, name, addr).1.value, k, i, j);
    }
  }

  // ----- when an index resolves, exactly -----

  /** Which addition the slot (i, j) was last filled by, counted from the one before the run as the 0th; none if it has been
    * cleared since. n additions have been made and cur is so of the slot now. */
  function Occupant(t: Tables, ops: seq<Op>, i: nat, j: nat, n: nat, cur: Option<nat>): Option<nat>
    requires Shape(t)
    decreases |ops|
  {
    if ops == [] then cur
    else
      ShapeKept(t, ops[0]);
      var adds := ops[0].Add? && FreePlace(t.tabs, 1).Place?;
      Occupant(Step(t, ops[0]), ops[1..], i, j, if adds then n + 1 else n,
               if Clears(t, ops[0], i, j) then None
               else if adds && FreePlace(t.tabs, 1) == Place(i, j) then Some(n + 1) else cur)
  }

  /** The slot's key tells its occupant. */
  predicate Keyed(t: Tables, i: nat, j: nat, k: nat, n: nat, cur: Option<nat>) {
    && HasSlot(t, i, j) && 1 <= k <= KEY_RESET && t.key == KeyAfter(k, n)
    && t.tabs[i][j].key == match cur case Some(m) => KeyAfter(k, m) case None => 0
  }

  /** What one operation does to an existing slot's key. */
  lemma KeyedStep(t: Tables, op: Op, i: nat, j: nat, k: nat, n: nat, cur: Option<nat>)
    requires Shape(t) && Keyed(t, i, j, k, n, cur)
    ensures var adds := op.Add? && FreePlace(t.tabs, 1).Place?;
            Keyed(Step(t, op), i, j, k, if adds then n + 1 else n,
                  if Clears(t, op, i, j) then None else if adds && FreePlace(t.tabs, 1) == Place(i, j) then Some(n + 1) else cur)
  {
    hide TabSize;
    SlotAfter(t, op, i, j);
    if op.Add? && FreePlace(t.tabs, 1).Place? { AddPuts(t, op.name, op.addr); }
  }

  lemma {:induction false} KeyedRun(t: Tables, ops: seq<Op>, i: nat, j: nat, k: nat, n: nat, cur: Option<nat>)
    requires Shape(t) && Keyed(t, i, j, k, n, cur)
    ensures HasSlot(Run(t, ops), i, j)
    ensures Run(t, ops).tabs[i][j].key == match Occupant(t, ops, i, j, n, cur) case Some(m) => KeyAfter(k, m) case None => 0
    decreases |ops|
  {
    hide Shape, FreePlace, Step, TabSize, Clears, KeyAfter;
    if ops != [] {
      var op := ops[0];
      var adds := op.Add? && FreePlace(t.tabs, 1).Place?;
      ShapeKept(t, op);
      KeyedStep(t, op, i, j, k, n, cur);
      KeyedRun(Step(t, op), ops[1..], i, j, k, if adds then n + 1 else n,
               if Clears(t, op, i, j) then None else if adds && FreePlace(t.tabs, 1) == Place(i, j) then Some(n + 1) else cur);
    }
  }

  /** A key comes back after every 2047 additions, and at no other time. */
  lemma KeyComesBack(k: nat, m: nat)
    requires 1 <= k <= KEY_RESET
    ensures KeyAfter(k, m) == k <==> m % KEY_RESET == 0
    ensures KeyAfter(k, m) != 0
  {
    KeyAfterIs(k, m);
    if m >= k { SameRest(k - 1, m); }
  }

  lemma SameRest(a: nat, m: nat)
    requires a < KEY_RESET
    ensures (a - m) % KEY_RESET == a <==> m % KEY_RESET == 0
  {
  }

  /** For every run: an index is accepted exactly when its slot is occupied and the occupant was issued a multiple of 2047
    * additions after it (0 for its own function); it then reaches the occupant's function. */
  lemma IndexExact(t: Tables, name: string, addr: nat, ops: seq<Op>)
    requires Shape(t) && AddSymbol(t, name, addr).1.Some?
    ensures var idx := AddSymbol(t, name, addr).1.value; var t1 := Step(t, Add(name, addr));
            && Shape(t1)
            && var t2 := Run(t1, ops); var occupant := Occupant(t1, ops, TabOf(idx), OffOf(idx), 0, Some(0));
               && WithinTable(t2, idx)
               && (GetFxnAddr(t2, idx) != Invalid <==> occupant.Some? && occupant.value % 2047 == 0)
               && (GetFxnAddr(t2, idx) != Invalid && OffOf(idx) != 0 ==>
                     HasSlot(t2, TabOf(idx), OffOf(idx)) && GetFxnAddr(t2, idx) == Function(t2.tabs[TabOf(idx)][OffOf(idx)].addr))
  {
    hide KeyOf, TabOf, OffOf, IsStatic, StaticOffOf, AddSymbol, RemoveSymbol, Run, TabSize, GetFxnAddr, WithinTable, Shape, Occupant, Clears;
    var i, j, k := IssuedSlot(t, name, addr);
    var t1 := Step(t, Add(name, addr));
    ShapeKept(t, Add(name, addr));
    KeyedRun(t1, ops, i, j, k, 0, Some(0));
    var occupant := Occupant(t1, ops, i, j, 0, Some(0));
    if occupant.Some? { KeyComesBack(k, occupant.value); }
    SlotOfIndex(Run(t1, ops), AddSymbol(t, name, addr).1.value, k, i, j);
  }

  /** From an instance as created, every run keeps the tables in shape, and the issued slots within 8160. */
  lemma ShapeFromStart(t: Tables, ops: seq<Op>)
    requires InitTables(t)
    ensures Shape(t) && Shape(Run(t, ops)) && Taken(Run(t, ops).tabs, 1) <= 8160
  {
    hide Run, Shape, Taken;
    InitShape(t);
    TakenAtMost(Run(t, ops));
  }

  lemma TakenAtMost(t: Tables)
    requires Shape(t)
    ensures Taken(t.tabs, 1) <= 8160
  {
    TakenBound(t, 1);
    SlotsInAll();
  }

  // ----- looking a name up -----

  /** Only slot (i, j) carries the name. */
  ghost predicate OnlyAt(t: Tables, name: string, i: nat, j: nat) {
    && HasSlot(t, i, j) && t.tabs[i][j].name == Some(name)
    && forall k, m :: 0 <= k < MAX_TABLES && 0 <= m < |t.tabs[k]| && t.tabs[k][m].name == Some(name) ==> k == i && m == j
  }

  lemma {:induction false} NamePlaceUnique(t: Tables, name: string, i: nat, j: nat, from: nat)
    requires OnlyAt(t, name, i, j) && from <= i
    ensures NamePlace(t.tabs, name, from) == Place(i, j)
    decreases i - from
  {
    if from < i { NamePlaceUnique(t, name, i, j, from + 1); }
  }

  lemma {:induction false} OnlyAtStays(t: Tables, ops: seq<Op>, name: string, i: nat, j: nat)
    requires Shape(t) && OnlyAt(t, name, i, j) && t.tabs[i][j].addr != 0
    requires !ClearedIn(t, ops, i, j) && forall a :: Add(name, a) !in ops
    ensures OnlyAt(Run(t, ops), name, i, j) && Run(t, ops).tabs[i][j] == t.tabs[i][j]
    decreases |ops|
  {
    if ops != [] {
      var t' := Step(t, ops[0]);
      ShapeKept(t, ops[0]);
      SlotAfter(t, ops[0], i, j);
      if ops[0].Add? {
        assert Add(ops[0].name, ops[0].addr) in ops;
        if FreePlace(t.tabs, 1).Place? { AddPuts(t, ops[0].name, ops[0].addr); }
      }
      assert OnlyAt(t', name, i, j);
      OnlyAtStays(t', ops[1..], name, i, j);
    }
  }

  lemma OnlyAtOnceAdded(t: Tables, name: string, addr: nat, i: nat, j: nat)
    requires Shape(t) && AddSymbol(t, name, addr).1.Some?
    requires forall k, m :: 0 <= k < MAX_TABLES && 0 <= m < |t.tabs[k]| ==> t.tabs[k][m].name != Some(name)
    requires HasSlot(Step(t, Add(name, addr)), i, j) && Step(t, Add(name, addr)).tabs[i][j].name == Some(name)
    ensures OnlyAt(Step(t, Add(name, addr)), name, i, j)
  {
    AddPuts(t, name, addr);
  }

  /** Looking up a name nobody else has returns the index issued for it, after any run that neither removes it nor
    * adds the name again. */
  lemma LookupReturnsIssued(t: Tables, name: string, addr: nat, ops: seq<Op>)
    requires Shape(t) && addr != 0 && AddSymbol(t, name, addr).1.Some?
    requires forall k, m :: 0 <= k < MAX_TABLES && 0 <= m < |t.tabs[k]| ==> t.tabs[k][m].name != Some(name)
    requires forall a :: Add(name, a) !in ops
    ensures var idx := AddSymbol(t, name, addr).1.value; var t1 := Step(t, Add(name, addr));
            && Shape(t1)
            && (!ClearedIn(t1, ops, TabOf(idx), OffOf(idx)) ==> GetSymIdx(Run(t1, ops), name) == Some(idx))
  {
    hide AddSymbol, NamePlace, FreePlace, TabSize, Run, ClearedIn, IndexOf, KeyOf, TabOf, OffOf, IsStatic;
    var i, j, k := IssuedSlot(t, name, addr);
    var t1 := Step(t, Add(name, addr));
    ShapeKept(t, Add(name, addr));
    OnlyAtOnceAdded(t, name, addr, i, j);
    if !ClearedIn(t1, ops, i, j) {
      OnlyAtStays(t1, ops, name, i, j);
      NamePlaceUnique(Run(t1, ops), name, i, j, 0);
    }
  }

  // ----- the bound of 2046 additions is exact -----

  /** m times: a symbol is added, and removed again. */
  function Cycles(name: string, addr: nat, m: nat): seq<Op> {
    if m == 0 then [] else [Add(name, addr), Remove(name)] + Cycles(name, addr, m - 1)
  }

  ghost predicate Absent(t: Tables, name: string) {
    forall k, m :: 0 <= k < |t.tabs| && 0 <= m < |t.tabs[k]| ==> t.tabs[k][m].name != Some(name)
  }

  /** A symbol added to a cleared slot and removed again leaves only the key changed. */
  lemma CycleReturns(t: Tables, name: string, addr: nat)
    requires Shape(t) && addr != 0 && Absent(t, name) && FreePlace(t.tabs, 1).Place?
    requires var p := FreePlace(t.tabs, 1); t.tabs[p.tab] != [] && t.tabs[p.tab][p.off] == EMPTY
    ensures Shape(Step(t, Add(name, addr)))
    ensures Step(Step(t, Add(name, addr)), Remove(name)) == t.(key := NextKey(t.key))
  {
    var p := FreePlace(t.tabs, 1);
    var t1 := Step(t, Add(name, addr));
    ShapeKept(t, Add(name, addr));
    AddPuts(t, name, addr);
    assert OnlyAt(t1, name, p.tab, p.off);
    NamePlaceUnique(t1, name, p.tab, p.off, 0);
    assert t1.tabs[p.tab][p.off := EMPTY] == t.tabs[p.tab];
    assert t1.tabs[p.tab := t.tabs[p.tab]] == t.tabs;
  }

  lemma RunTwo(t: Tables, a: Op, b: Op, rest: seq<Op>)
    requires Shape(t)
    ensures Shape(Step(t, a)) && Shape(Step(Step(t, a), b))
    ensures Run(t, [a, b] + rest) == Run(Step(Step(t, a), b), rest)
    ensures a.Add? && FreePlace(t.tabs, 1).Place? && !b.Add? ==>
              Issued(t, [a, b] + rest) == 1 + Issued(Step(Step(t, a), b), rest)
  {
    hide Shape, Step;
    var ops := [a, b] + rest;
    ShapeKept(t, a);
    ShapeKept(Step(t, a), b);
    assert ops[1..] == [b] + rest && ops[1..][1..] == rest;
  }

  lemma {:induction false} CyclesReturn(t: Tables, name: string, addr: nat, m: nat, last: Op)
    requires Shape(t) && addr != 0 && Absent(t, name) && FreePlace(t.tabs, 1).Place?
    requires var p := FreePlace(t.tabs, 1); t.tabs[p.tab] != [] && t.tabs[p.tab][p.off] == EMPTY
    requires last.Add?
    ensures var ops := Cycles(name, addr, m) + [last];
            && Shape(t.(key := KeyAfter(t.key, m)))
            && Run(t, ops) == Step(t.(key := KeyAfter(t.key, m)), last)
            && Issued(t, ops) == m + 1
    decreases m
  {
    hide AddSymbol, RemoveSymbol, TabSize;
    var ops := Cycles(name, addr, m) + [last];
    if m == 0 {
      assert ops == [last];
      ShapeKept(t, last);
      assert Run(t, ops) == Run(Step(t, last), []);
      assert Issued(t, ops) == 1 + Issued(Step(t, last), []);
    } else {
      var t2 := t.(key := NextKey(t.key));
      CycleReturns(t, name, addr);
      CyclesReturn(t2, name, addr, m - 1, last);
      KeyAfterNext(t.key, m - 1);
      var rest := Cycles(name, addr, m - 1) + [last];
      assert ops == [Add(name, addr), Remove(name)] + rest;
      RunTwo(t, Add(name, addr), Remove(name), rest);
    }
  }

  lemma {:induction false} KeyAfterNext(k: nat, n: nat)
    ensures KeyAfter(NextKey(k), n) == KeyAfter(k, n + 1)
  {
    if n != 0 { KeyAfterNext(k, n - 1); }
  }

  /** A symbol added and removed: its slot is cleared and the first free one again. */
  lemma AddedAndRemoved(t: Tables, name: string, addr: nat)
    requires Shape(t) && addr != 0 && Absent(t, name) && FreePlace(t.tabs, 1).Place?
    ensures var p := FreePlace(t.tabs, 1); var t1 := Step(t, Add(name, addr));
            && Shape(t1) && Clears(t1, Remove(name), p.tab, p.off)
            && var t2 := Step(t1, Remove(name));
            && Shape(t2) && t2.key == t1.key && Absent(t2, name)
            && FreePlace(t2.tabs, 1) == p && t2.tabs[p.tab] != [] && t2.tabs[p.tab][p.off] == EMPTY
  {
    var p := FreePlace(t.tabs, 1);
    var t1 := Step(t, Add(name, addr));
    ShapeKept(t, Add(name, addr));
    AddPuts(t, name, addr);
    OnlyAtOnceAdded(t, name, addr, p.tab, p.off);
    NamePlaceUnique(t1, name, p.tab, p.off, 0);
    ShapeKept(t1, Remove(name));
    FreedIsFree(t, Step(t1, Remove(name)), p);
  }

  /** A run that clears a slot, puts 2046 other functions there one after another, and then one with the same key. */
  lemma StaleRun(t: Tables, name: string, addr: nat, other: string, otherAddr: nat, i: nat, j: nat, k: nat) returns (ops: seq<Op>)
    requires Shape(t) && addr != 0 && otherAddr != 0 && Absent(t, name) && FreePlace(t.tabs, 1) == Place(i, j) && k == NextKey(t.key)
    ensures var t1 := Step(t, Add(name, addr));
            && Shape(t1) && ClearedIn(t1, ops, i, j) && Issued(t1, ops) == 2047
            && HasSlot(Run(t1, ops), i, j) && Run(t1, ops).tabs[i][j] == Elem(otherAddr, Some(other), k)
  {
    hide TabSize, RemoveSymbol, FreePlace, NamePlace, Absent;
    var t1 := Step(t, Add(name, addr));
    AddedAndRemoved(t, name, addr);
    var t2 := Step(t1, Remove(name));
    var rest := Cycles(name, addr, 2046) + [Add(other, otherAddr)];
    ops := [Remove(name)] + rest;
    assert ops[1..] == rest;
    CyclesReturn(t2, name, addr, 2046, Add(other, otherAddr));
    assert Run(t1, ops) == Run(t2, rest) && Issued(t1, ops) == Issued(t2, rest);
    AddPuts(t2.(key := KeyAfter(k, 2046)), other, otherAddr);
    KeysCycle(k, 2047);
  }

  /** The 2047th addition after the one that issued an index can issue the same index again: a client still using the
    * old one then reaches the new function. */
  lemma StaleIndexAfter2047(t: Tables, name: string, addr: nat, other: string, otherAddr: nat) returns (ops: seq<Op>)
    requires Shape(t) && addr != 0 && otherAddr != 0 && Absent(t, name) && FreePlace(t.tabs, 1).Place? && FreePlace(t.tabs, 1).off != 0
    ensures var idx := AddSymbol(t, name, addr).1.value; var t1 := Step(t, Add(name, addr));
            && Shape(t1) && ClearedIn(t1, ops, TabOf(idx), OffOf(idx)) && Issued(t1, ops) == 2047
            && WithinTable(Run(t1, ops), idx) && GetFxnAddr(Run(t1, ops), idx) == Function(otherAddr)
  {
    hide Shape, Run, Issued, ClearedIn, TabSize, RemoveSymbol, FreePlace, NamePlace, Absent;
    hide KeyOf, TabOf, OffOf, IsStatic, StaticOffOf, GetFxnAddr, WithinTable;
    var i, j, k := IssuedSlot(t, name, addr);
    ops := StaleRun(t, name, addr, other, otherAddr, i, j, k);
    SlotOfIndex(Run(Step(t, Add(name, addr)), ops), AddSymbol(t, name, addr).1.value, k, i, j);
  }

  /** A slot just cleared is the first free one again. */
  lemma FreedIsFree(t: Tables, t2: Tables, p: Place)
    requires Shape(t) && Shape(t2) && p == FreePlace(t.tabs, 1) && p.Place?
    requires |t2.tabs[p.tab]| > p.off && t2.tabs[p.tab][p.off] == EMPTY
    requires forall m :: 0 <= m < p.off ==> t.tabs[p.tab] != [] && t2.tabs[p.tab][m] == t.tabs[p.tab][m]
    requires forall k :: 0 <= k < MAX_TABLES && k != p.tab ==> t2.tabs[k] == t.tabs[k]
    ensures FreePlace(t2.tabs, 1) == p
  {
    FreePlaceIsFirst(t, 1);
    FirstFreeFrom(t, t2, p, 1);
  }

  lemma {:induction false} FirstFreeFrom(t: Tables, t2: Tables, p: Place, i: nat)
    requires Shape(t) && Shape(t2) && p.Place? && 1 <= i <= p.tab < MAX_TABLES && p == FreePlace(t.tabs, i)
    requires |t2.tabs[p.tab]| > p.off && t2.tabs[p.tab][p.off] == EMPTY
    requires forall m :: 0 <= m < p.off ==> t2.tabs[p.tab][m].addr != 0
    requires forall k :: 0 <= k < MAX_TABLES && k != p.tab ==> t2.tabs[k] == t.tabs[k]
    ensures FreePlace(t2.tabs, i) == p
    decreases MAX_TABLES - i
  {
    if i < p.tab { FirstFreeFrom(t, t2, p, i + 1); }
  }
}
