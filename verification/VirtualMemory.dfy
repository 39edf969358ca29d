/** kernel/kalloc.c and kernel/vm.c: the page pool and the operations on user page tables. */
module VirtualMemory {
  import opened Prelude
  import opened PageTables
  import opened PageBudget

  const PGSIZE: nat := 4096
  const USER_PERM: nat := 30     // PTE_W | PTE_X | PTE_R | PTE_U

  lemma UserLeaf()
    ensures USER_PERM < 1024 && IsLeaf(USER_PERM)
  {
  }

  /** The list threaded through the first word of the free pages, as physical addresses. */
  ghost predicate Chain(mem: Mem, free: seq<nat>, head: nat) {
    && head == (if free == [] then 0 else free[0] * PGSIZE)
    && (forall i :: 0 <= i < |free| ==> free[i] in mem && free[i] != 0)
    && (forall i: nat {:trigger Points(mem, free, i)} :: i < |free| ==> Points(mem, free, i))
  }

  /** Free page i points to the next one, the last to 0. */
  ghost predicate Points(mem: Mem, free: seq<nat>, i: nat)
    requires i < |free| && free[i] in mem
  {
    mem[free[i]][0] == if i + 1 < |free| then free[i + 1] * PGSIZE else 0
  }

  /** The free list holds every free page once and nothing else. */
  ghost predicate PoolOk(mem: Mem, use: map<nat, Use>, free: seq<nat>, head: nat) {
    && Chain(mem, free, head)
    && (forall i, j :: 0 <= i < j < |free| ==> free[i] != free[j])
    && (forall p :: p in use ==> (use[p] == Free <==> p in free) && p != 0)
    && (forall p :: p in free ==> p in use)
  }

  function Junk(x: nat): Page { seq(ENTRIES, i => x) }

  lemma PoolFrame(mem: Mem, mem': Mem, use: map<nat, Use>, use': map<nat, Use>, free: seq<nat>, head: nat)
    requires PoolOk(mem, use, free, head) && use'.Keys == use.Keys
    requires forall p :: p in use ==> (use'[p] == Free <==> use[p] == Free)
    requires forall p :: p in use && use[p] == Free ==> p in mem && p in mem' && mem'[p] == mem[p]
    ensures PoolOk(mem', use', free, head)
  {
    forall i: nat | i < |free| ensures free[i] in mem' && Points(mem', free, i) {
      assert free[i] in free && Points(mem, free, i);
    }
  }

  lemma PoolPush(mem: Mem, use: map<nat, Use>, free: seq<nat>, head: nat, p: nat, x: Page)
    requires PoolOk(mem, use, free, head) && p in use && p in mem && use[p] != Free && x[0] == head
    ensures PoolOk(mem[p := x], use[p := Free], [p] + free, p * PGSIZE)
  {
    var mem', all := mem[p := x], [p] + free;
    forall i: nat | i < |all| ensures all[i] in mem' && Points(mem', all, i) {
      if i > 0 { assert all[i] == free[i - 1] && all[i] in free && Points(mem, free, i - 1); }
    }
  }

  lemma PoolPop(mem: Mem, use: map<nat, Use>, free: seq<nat>, head: nat)
    requires PoolOk(mem, use, free, head)
    ensures head == 0 <==> free == []
    ensures free != [] ==> head / PGSIZE == free[0]
    ensures free != [] ==>
              PoolOk(mem[free[0] := Junk(0x505050505050505)], use[free[0] := Held], free[1..], mem[free[0]][0])
  {
    if free != [] {
      assert free[0] in free;
      var mem', use' := mem[free[0] := Junk(0x505050505050505)], use[free[0] := Held];
      assert free == [free[0]] + free[1..];
      assert forall q :: q in use' ==> (use'[q] == Free <==> q in free[1..]);
      ChainPop(mem, free, head, Junk(0x505050505050505));
    }
  }

  lemma ChainPop(mem: Mem, free: seq<nat>, head: nat, x: Page)
    requires Chain(mem, free, head) && free != [] && forall i, j :: 0 <= i < j < |free| ==> free[i] != free[j]
    ensures Chain(mem[free[0] := x], free[1..], mem[free[0]][0])
  {
    var mem', rest := mem[free[0] := x], free[1..];
    assert Points(mem, free, 0);
    forall i: nat | i < |rest| ensures rest[i] in mem' && Points(mem', rest, i) {
      assert Points(mem, free, i + 1) && rest[i] == free[i + 1] != free[0];
    }
  }

  /** The flat maps of all page tables agree. */
  ghost predicate SameMaps(mem: Mem, mem': Mem, use: map<nat, Use>) {
    forall r, v: nat {:trigger Pte(mem', r, v)} :: IsRoot(use, r) && v < MAXV ==> Pte(mem', r, v) == Pte(mem, r, v)
  }

  /** From `use` to `use'` some free pages became tables of root r, and nothing else happened. */
  ghost predicate TablesGrew(mem: Mem, mem': Mem, use: map<nat, Use>, use': map<nat, Use>, r: nat) {
    && use'.Keys == use.Keys
    && (forall p :: p in use ==>
          use'[p] == use[p] || (use[p] == Free && use'[p].Table? && use'[p].root == r && use'[p].level < 2))
    && (forall p :: p in use && (use[p].Data? || use[p].Held? || use[p].Other?) ==>
          p in mem && p in mem' && mem'[p] == mem[p])
  }

  /** All flat maps agree, except that virtual page v of root r now has PTE e. */
  ghost predicate MapsUpdated(mem: Mem, mem': Mem, use: map<nat, Use>, r: nat, v: nat, e: nat) {
    forall r', v': nat {:trigger Pte(mem', r', v')} :: IsRoot(use, r') && v' < MAXV ==>
      Pte(mem', r', v') == if r' == r && v' == v then e else Pte(mem, r', v')
  }

  /** Like TablesGrew, and page n, if it was held, became the data page of v. */
  ghost predicate PageMapped(mem: Mem, mem': Mem, use: map<nat, Use>, use': map<nat, Use>, r: nat, v: nat, n: nat) {
    && use'.Keys == use.Keys
    && (forall p :: p in use && p != n ==>
          use'[p] == use[p] || (use[p] == Free && use'[p].Table? && use'[p].root == r && use'[p].level < 2))
    && (n in use ==> use'[n] == if use[n] == Held then Data(r, v) else use[n])
    && (forall p :: p in use && (use[p].Data? || use[p].Held? || use[p].Other?) ==>
          p in mem && p in mem' && mem'[p] == mem[p])
  }

  lemma SameMapsTrans(m0: Mem, m1: Mem, m2: Mem, use: map<nat, Use>, use1: map<nat, Use>)
    requires SameMaps(m0, m1, use) && SameMaps(m1, m2, use1)
    requires forall r :: IsRoot(use, r) ==> IsRoot(use1, r)
    ensures SameMaps(m0, m2, use)
  {
  }

  lemma TablesGrewTrans(m0: Mem, m1: Mem, m2: Mem, u0: map<nat, Use>, u1: map<nat, Use>, u2: map<nat, Use>, r: nat)
    requires TablesGrew(m0, m1, u0, u1, r) && TablesGrew(m1, m2, u1, u2, r)
    ensures TablesGrew(m0, m2, u0, u2, r)
  {
  }

  lemma PrefixTop(v: nat)
    requires v < MAXV
    ensures Prefix(2, v) == 0
  {
    assert Prefix(2, v) == Prefix(1, v) / ENTRIES && Prefix(1, v) == Prefix(0, v) / ENTRIES;
  }

  /** A free page turned into the table below entry i of table p, seen as one change. */
  lemma AllocLink(mem: Mem, use: map<nat, Use>, p: nat, i: nat, n: nat, junk: Page)
    requires TreesOk(mem, use) && p in use && use[p].Table? && use[p].level > 0 && i < ENTRIES
    requires !IsValid(mem[p][i]) && n in use && use[n] == Free
    ensures var mem' := Linked(mem[n := junk], p, i, n);
            var use' := use[n := Table(use[p].root, use[p].level - 1, use[p].prefix * ENTRIES + i)];
            && TreesOk(mem', use')
            && SameMaps(mem, mem', use) && TablesGrew(mem, mem', use, use', use[p].root)
            && LevelMade(mem, mem', use[p].root, use[p].level - 1, use[p].prefix * ENTRIES + i)
  {
    var m1, u1 := mem[n := junk], use[n := Held];
    TreesFrame(mem, m1, use, u1);
    LinkTable(m1, u1, p, i, n);
    assert u1[n := Table(use[p].root, use[p].level - 1, use[p].prefix * ENTRIES + i)]
        == use[n := Table(use[p].root, use[p].level - 1, use[p].prefix * ENTRIES + i)];
    assert TableOk(mem, use, p, use[p].root, use[p].level, use[p].prefix);
    forall r, v: nat | IsRoot(use, r) && v < MAXV ensures Pte(Linked(m1, p, i, n), r, v) == Pte(mem, r, v) {
      PteFrame(mem, m1, use, r, v);
      PteLink(m1, u1, p, i, n, r, v);
    }
    LinkMade(mem, use, m1, u1, p, i, n);
  }

  lemma LinkMade(mem: Mem, use: map<nat, Use>, m1: Mem, u1: map<nat, Use>, p: nat, i: nat, n: nat)
    requires TreesOk(mem, use) && TreesOk(m1, u1) && p in use && use[p].Table? && use[p].level > 0 && i < ENTRIES
    requires n in use && u1 == use[n := Held] && n != p &&
             (forall q :: q in use && use[q].Table? ==> q != n && q in m1 && m1[q] == mem[q])
    requires !IsValid(m1[p][i])
    ensures LevelMade(mem, Linked(m1, p, i, n), use[p].root, use[p].level - 1, use[p].prefix * ENTRIES + i)
  {
    var r := use[p].root;
    assert TableOk(mem, use, p, r, use[p].level, use[p].prefix);
    forall l: nat, x: nat | l < 2 && InRange(l, x)
      ensures Has(Linked(m1, p, i, n), r, l, x) <==>
                Has(mem, r, l, x) || (l == use[p].level - 1 && x == use[p].prefix * ENTRIES + i)
    {
      TableAtFrame(mem, m1, use, r, l, x);
      TableAtLink(m1, u1, p, i, n, r, l, x);
    }
  }

  lemma TableEntry(mem: Mem, use: map<nat, Use>, p: nat, i: nat)
    requires TreesOk(mem, use) && p in use && use[p].Table? && use[p].level > 0 && i < ENTRIES
    requires IsValid(mem[p][i])
    ensures Ppn(mem[p][i]) in use
    ensures use[Ppn(mem[p][i])] == Table(use[p].root, use[p].level - 1, use[p].prefix * ENTRIES + i)
  {
    assert TableOk(mem, use, p, use[p].root, use[p].level, use[p].prefix);
    assert EntryOk(use, use[p].root, use[p].level, use[p].prefix, i, Word(mem, p, i));
  }

  /** The table below entry PX(level, v) of table p is the next one on the way to v, and it is there
      exactly if the entry is valid. */
  lemma StepBelow(m: Mem, u: map<nat, Use>, p: nat, level: nat, v: nat)
    requires TreesOk(m, u) && p in u && u[p].Table? && 0 < level <= 2 && u[p].level == level && v < MAXV
    requires u[p].prefix == Prefix(level, v)
    ensures u[p].prefix * ENTRIES + Index(level, v) == Prefix(level - 1, v)
    ensures Has(m, u[p].root, level - 1, Prefix(level - 1, v)) <==> IsValid(m[p][Index(level, v)])
  {
    assert TableOk(m, u, p, u[p].root, level, u[p].prefix);
    assert Prefix(1, v) == Prefix(0, v) / ENTRIES;
  }

  lemma NoSlotNoPte(mem: Mem, use: map<nat, Use>, p: nat, v: nat)
    requires TreesOk(mem, use) && p in use && use[p].Table? && use[p].level > 0 && v < MAXV
    requires use[p].prefix == Prefix(use[p].level, v) && !IsValid(mem[p][Index(use[p].level, v)])
    ensures Pte(mem, use[p].root, v) == 0
  {
    var r, l := use[p].root, use[p].level;
    assert TableOk(mem, use, p, r, l, use[p].prefix);
    assert TableAt(mem, r, l - 1, Prefix(l - 1, v)) == None;
    if l == 2 { assert TableAt(mem, r, 0, Prefix(0, v)) == None; }
  }

  lemma StoreMaps(m0: Mem, use0: map<nat, Use>, mem: Mem, use: map<nat, Use>, p: nat, i: nat, e: nat, r: nat, v: nat)
    requires TreesOk(mem, use) && SameMaps(m0, mem, use0) && i < ENTRIES
    requires p in use && use[p] == Table(r, 0, v / ENTRIES) && i == v % ENTRIES
    requires forall q :: IsRoot(use0, q) ==> IsRoot(use, q)
    ensures MapsUpdated(m0, mem[p := mem[p][i := e]], use0, r, v, e)
  {
    var m2 := mem[p := mem[p][i := e]];
    forall r', v': nat {:trigger Pte(m2, r', v')} | IsRoot(use0, r') && v' < MAXV
      ensures Pte(m2, r', v') == if r' == r && v' == v then e else Pte(m0, r', v')
    {
      assert Pte(mem, r', v') == Pte(m0, r', v');
      PteStore(mem, use, p, i, e, r', v');
    }
  }

  lemma GrewThenMapped(m0: Mem, u0: map<nat, Use>, m1: Mem, u1: map<nat, Use>, p: nat, page: Page, r: nat, v: nat,
                       n: nat)
    requires TablesGrew(m0, m1, u0, u1, r) && p in u1 && u1[p].Table? && p in m1
    requires n in u0 ==> u0[n] in {Held, Other}
    ensures PageMapped(m0, m1[p := page], u0, Mapped(u1, r, v, n), r, v, n)
  {
  }

  /** What mappages() does to the slot that walk() found. */
  lemma StoreSlot(m0: Mem, u0: map<nat, Use>, m1: Mem, u1: map<nat, Use>, free: seq<nat>, head: nat,
                  p: nat, i: nat, n: nat, perm: nat, r: nat, v: nat)
    requires TreesOk(m1, u1) && PoolOk(m1, u1, free, head) && IsRoot(u0, r) && v < MAXV
    requires SameMaps(m0, m1, u0) && TablesGrew(m0, m1, u0, u1, r)
    requires p in u1 && u1[p] == Table(r, 0, v / ENTRIES) && i == v % ENTRIES
    requires !IsValid(Pte(m0, r, v)) && perm < 1024 && IsLeaf(perm) && (n in u0 ==> u0[n] in {Held, Other})
    ensures var m2, u2 := m1[p := m1[p][i := MakePte(n, perm)]], Mapped(u1, r, v, n);
            && TreesOk(m2, u2) && PoolOk(m2, u2, free, head)
            && MapsUpdated(m0, m2, u0, r, v, MakePte(n, perm)) && PageMapped(m0, m2, u0, u2, r, v, n)
  {
    PteAt(m1, u1, p, i);
    MapLeaf(m1, u1, p, i, n, perm);
    StoreMaps(m0, u0, m1, u1, p, i, MakePte(n, perm), r, v);
    GrewThenMapped(m0, u0, m1, u1, p, m1[p][i := MakePte(n, perm)], r, v, n);
    PoolFrame(m1, m1[p := m1[p][i := MakePte(n, perm)]], u1, Mapped(u1, r, v, n), free, head);
  }

  /** Stores in pages other than upper tables do not matter to which tables there are. */
  lemma StoreMade(m0: Mem, m: Mem, u: map<nat, Use>, p: nat, page: Page, r: nat, v: nat)
    requires TreesOk(m, u) && IsRoot(u, r) && MadeTo(m0, m, r, v, 0) && (p in u && u[p].Table? ==> u[p].level == 0)
    ensures MadeTo(m0, m[p := page], r, v, 0)
  {
    forall i: nat, x: nat | i < 2 && InRange(i, x) ensures TableAt(m[p := page], r, i, x) == TableAt(m, r, i, x) {
      TableAtFrame(m, m[p := page], u, r, i, x);
    }
    MadeFrame(m0, m, m[p := page], r, v, 0);
  }

  /** Filling a page that is not a table, before the walk. */
  lemma FillMade(m0: Mem, u0: map<nat, Use>, n: nat, content: Page, m: Mem, r: nat, v: nat)
    requires TreesOk(m0, u0) && IsRoot(u0, r) && n in u0 && !u0[n].Table? && v < MAXV
    ensures Lack(m0[n := content], r, v) == Lack(m0, r, v)
    ensures MadeTo(m0[n := content], m, r, v, 0) ==> MadeTo(m0, m, r, v, 0)
  {
    forall i: nat, x: nat | i < 2 && InRange(i, x) ensures Has(m0[n := content], r, i, x) == Has(m0, r, i, x) {
      TableAtFrame(m0, m0[n := content], u0, r, i, x);
    }
    PrefixRange(0, v);
    PrefixRange(1, v);
  }

  // ---------------------------------------------------------------- ranges

  /** Virtual pages first .. first+k of root r map to the physical pages from `base` on; all else as before. */
  ghost predicate RangeMaps(m0: Mem, m: Mem, u0: map<nat, Use>, r: nat, first: nat, k: nat, base: nat, perm: nat)
    requires perm < 1024
  {
    forall r', v: nat {:trigger Pte(m, r', v)} :: IsRoot(u0, r') && v < MAXV ==>
      Pte(m, r', v) == if r' == r && first <= v < first + k then MakePte(base + v - first, perm) else Pte(m0, r', v)
  }

  ghost predicate RangeUse(m0: Mem, m: Mem, u0: map<nat, Use>, u: map<nat, Use>, r: nat, first: nat, k: nat,
                           base: nat) {
    && u.Keys == u0.Keys
    && (forall p :: p in u0 ==>
          if u0[p] == Held && base <= p < base + k then u[p] == Data(r, first + p - base)
          else u[p] == u0[p] || (u0[p] == Free && u[p].Table? && u[p].root == r && u[p].level < 2))
    && (forall p :: p in u0 && (u0[p].Data? || u0[p].Held? || u0[p].Other?) ==> p in m0 && p in m && m[p] == m0[p])
  }

  /** mappages() with k pages mapped. */
  ghost predicate Mapping(m0: Mem, u0: map<nat, Use>, m: Mem, u: map<nat, Use>, r: nat, first: nat, k: nat, base: nat,
                          perm: nat) {
    && perm < 1024 && IsRoot(u0, r) && IsRoot(u, r)
    && RangeMaps(m0, m, u0, r, first, k, base, perm) && RangeUse(m0, m, u0, u, r, first, k, base)
  }

  /** The page that mappages() maps next is still unmapped and still to be given away. */
  lemma MappingNext(m0: Mem, u0: map<nat, Use>, m: Mem, u: map<nat, Use>, r: nat, first: nat, k: nat, base: nat,
                    perm: nat, v: nat, n: nat)
    requires Mapping(m0, u0, m, u, r, first, k, base, perm) && v == first + k < MAXV && n == base + k
    requires !IsValid(Pte(m0, r, v)) && (n in u0 ==> u0[n] in {Held, Other})
    ensures IsRoot(u, r) && !IsValid(Pte(m, r, v)) && (n in u ==> u[n] in {Held, Other})
  {
  }

  lemma MappingStep(m0: Mem, u0: map<nat, Use>, m1: Mem, u1: map<nat, Use>, m2: Mem, u2: map<nat, Use>,
                    r: nat, first: nat, k: nat, base: nat, perm: nat, v: nat, n: nat)
    requires Mapping(m0, u0, m1, u1, r, first, k, base, perm) && v == first + k && n == base + k
    requires MapsUpdated(m1, m2, u1, r, v, MakePte(n, perm)) && PageMapped(m1, m2, u1, u2, r, v, n)
    ensures Mapping(m0, u0, m2, u2, r, first, k + 1, base, perm)
  {
    assert forall q :: IsRoot(u0, q) ==> IsRoot(u1, q);
  }

  lemma MappingFail(m0: Mem, u0: map<nat, Use>, m1: Mem, u1: map<nat, Use>, m2: Mem, u2: map<nat, Use>,
                    r: nat, first: nat, k: nat, base: nat, perm: nat)
    requires Mapping(m0, u0, m1, u1, r, first, k, base, perm)
    requires SameMaps(m1, m2, u1) && TablesGrew(m1, m2, u1, u2, r)
    ensures Mapping(m0, u0, m2, u2, r, first, k, base, perm)
  {
    assert forall q :: IsRoot(u0, q) ==> IsRoot(u1, q);
  }

  // ---------------------------------------------------------------- unmapping

  /** The data pages of virtual pages first .. first+k of root r got use `to`; no other use changed. */
  ghost predicate RangeReleased(u0: map<nat, Use>, u: map<nat, Use>, r: nat, first: nat, k: nat, to: Use) {
    && u.Keys == u0.Keys
    && forall p :: p in u0 ==>
         u[p] == if u0[p].Data? && u0[p].root == r && first <= u0[p].vpn < first + k then to else u0[p]
  }

  ghost predicate RangeCleared(m0: Mem, m: Mem, u0: map<nat, Use>, r: nat, first: nat, k: nat) {
    forall r', v: nat {:trigger Pte(m, r', v)} :: IsRoot(u0, r') && v < MAXV ==>
      Pte(m, r', v) == if r' == r && first <= v < first + k then 0 else Pte(m0, r', v)
  }

  /** Pages that are neither tables nor free now keep their contents. */
  ghost predicate ContentsKept(m0: Mem, m: Mem, u: map<nat, Use>) {
    forall p :: p in u && (u[p].Data? || u[p].Held? || u[p].Other?) ==> p in m0 && p in m && m[p] == m0[p]
  }

  lemma ClearStep(m0: Mem, u0: map<nat, Use>, m1: Mem, u1: map<nat, Use>, m2: Mem, u2: map<nat, Use>, r: nat,
                  first: nat, k: nat, to: Use)
    requires RangeCleared(m0, m1, u0, r, first, k) && RangeReleased(u0, u1, r, first, k, to)
    requires MapsUpdated(m1, m2, u1, r, first + k, 0) && RangeReleased(u1, u2, r, first + k, 1, to)
    requires ContentsKept(m0, m1, u1) && ContentsKept(m1, m2, u2) && to in {Free, Held}
    ensures RangeCleared(m0, m2, u0, r, first, k + 1) && RangeReleased(u0, u2, r, first, k + 1, to)
    ensures ContentsKept(m0, m2, u2)
  {
    assert forall q :: IsRoot(u0, q) ==> IsRoot(u1, q);
  }

  /** What uvmunmap() does to the slot of v when it frees the page: kfree, then *pte = 0. */
  lemma FreeSlot(m0: Mem, u0: map<nat, Use>, p: nat, i: nat, m1: Mem, r: nat, v: nat)
    requires TreesOk(m0, u0) && v < MAXV && p in u0 && u0[p] == Table(r, 0, v / ENTRIES) && i == v % ENTRIES
    requires IsValid(m0[p][i]) && Ppn(m0[p][i]) in u0 && u0[Ppn(m0[p][i])] == Data(r, v)
    requires m1.Keys == m0.Keys && forall q :: q in m0 && q != Ppn(m0[p][i]) ==> m1[q] == m0[q]
    ensures var m2, u2 := m1[p := m1[p][i := 0]], u0[Ppn(m0[p][i]) := Free];
            TreesOk(m2, u2) && MapsUpdated(m0, m2, u0, r, v, 0)
  {
    var n := Ppn(m0[p][i]);
    var mm, uu := m0[p := m0[p][i := 0]], u0[n := Held];
    UnmapLeaf(m0, u0, p, i);
    assert Unmapped(u0, r, v, n) == uu;
    var m2, u2 := m1[p := m1[p][i := 0]], u0[n := Free];
    TreesFrame(mm, m2, uu, u2);
    forall r', v': nat {:trigger Pte(m2, r', v')} | IsRoot(u0, r') && v' < MAXV
      ensures Pte(m2, r', v') == if r' == r && v' == v then 0 else Pte(m0, r', v')
    {
      PteStore(m0, u0, p, i, 0, r', v');
      PteFrame(mm, m2, uu, r', v');
    }
  }

  lemma OneReleased(m0: Mem, u0: map<nat, Use>, r: nat, v: nat, n: nat)
    requires TreesOk(m0, u0) && n in u0 && u0[n] == Data(r, v)
    ensures RangeReleased(u0, u0[n := Free], r, v, 1, Free)
  {
    OneOwner(m0, u0, r, v, n);
    forall q | q in u0 && u0[q] == Data(r, v) ensures q == n { OneOwner(m0, u0, r, v, q); }
  }

  /** ... and when it keeps the page: only *pte = 0. */
  lemma KeepSlot(m0: Mem, u0: map<nat, Use>, p: nat, i: nat, r: nat, v: nat, m2: Mem)
    requires TreesOk(m0, u0) && v < MAXV && p in u0 && u0[p] == Table(r, 0, v / ENTRIES) && i == v % ENTRIES
    requires IsValid(m0[p][i]) && m2 == m0[p := m0[p][i := 0]]
    ensures TreesOk(m2, Unmapped(u0, r, v, Ppn(m0[p][i]))) && MapsUpdated(m0, m2, u0, r, v, 0)
  {
    UnmapLeaf(m0, u0, p, i);
    forall r', v': nat {:trigger Pte(m2, r', v')} | IsRoot(u0, r') && v' < MAXV
      ensures Pte(m2, r', v') == if r' == r && v' == v then 0 else Pte(m0, r', v')
    {
      PteStore(m0, u0, p, i, 0, r', v');
    }
  }

  lemma OneOwner(mem: Mem, use: map<nat, Use>, r: nat, v: nat, q: nat)
    requires TreesOk(mem, use) && q in use && use[q] == Data(r, v)
    ensures Ppn(Pte(mem, r, v)) == q && IsValid(Pte(mem, r, v))
  {
    assert DataOk(mem, use, q, use[q].root, use[q].vpn);
  }

  // ---------------------------------------------------------------- adding user pages

  function WithV(perm: nat): nat { if perm % 2 == 1 then perm else perm + 1 }

  /** Virtual page v of root r is backed by a data page of its own with this content. */
  ghost predicate Backed(m: Mem, u: map<nat, Use>, r: nat, v: nat, content: Page, perm: nat) {
    var e := Pte(m, r, v);
    && IsValid(e) && Flags(e) == WithV(perm)
    && Ppn(e) in u && u[Ppn(e)] == Data(r, v) && Ppn(e) in m && m[Ppn(e)] == content
  }

  /** Outside virtual pages first .. first+k of root r all flat maps agree. */
  ghost predicate SameOutside(m0: Mem, m: Mem, u0: map<nat, Use>, r: nat, first: nat, k: nat) {
    forall r', v: nat {:trigger Pte(m, r', v)} :: IsRoot(u0, r') && v < MAXV && !(r' == r && first <= v < first + k) ==>
      Pte(m, r', v) == Pte(m0, r', v)
  }

  /** Free pages became tables of r or data pages of the given range; nothing else changed hands. */
  ghost predicate PagesTaken(m0: Mem, m: Mem, u0: map<nat, Use>, u: map<nat, Use>, r: nat, first: nat, k: nat) {
    && u.Keys == u0.Keys
    && (forall p :: p in u0 ==>
          || u[p] == u0[p]
          || (u0[p] == Free && u[p].Table? && u[p].root == r && u[p].level < 2)
          || (u0[p] == Free && u[p].Data? && u[p].root == r && first <= u[p].vpn < first + k))
    && (forall p :: p in u0 && (u0[p].Data? || u0[p].Held? || u0[p].Other?) ==> p in m0 && p in m && m[p] == m0[p])
  }

  lemma RootsFrame(m0: Mem, m1: Mem, u0: map<nat, Use>, u1: map<nat, Use>)
    requires TreesOk(m0, u0) && SameTables(m0, m1, u0)
    ensures SameMaps(m0, m1, u0)
  {
    forall r, v: nat | IsRoot(u0, r) && v < MAXV ensures Pte(m1, r, v) == Pte(m0, r, v) { PteFrame(m0, m1, u0, r, v); }
  }

  lemma AddedPage(m0: Mem, u0: map<nat, Use>, n: nat, content: Page, m2: Mem, u2: map<nat, Use>, r: nat, v: nat,
                  perm: nat)
    requires TreesOk(m0, u0) && n in u0 && u0[n] == Free && perm < 1024 && IsRoot(u0, r) && v < MAXV
    requires MapsUpdated(m0[n := content], m2, u0[n := Held], r, v, MakePte(n, perm))
    requires PageMapped(m0[n := content], m2, u0[n := Held], u2, r, v, n)
    ensures Backed(m2, u2, r, v, content, perm) && SameOutside(m0, m2, u0, r, v, 1) &&
            PagesTaken(m0, m2, u0, u2, r, v, 1)
  {
    MakePteFields(n, perm);
    RootsFrame(m0, m0[n := content], u0, u0[n := Held]);
    assert forall q :: IsRoot(u0, q) ==> IsRoot(u0[n := Held], q);
  }

  lemma NotAddedPage(m0: Mem, u0: map<nat, Use>, n: nat, content: Page, m2: Mem, u2: map<nat, Use>, m3: Mem, r: nat)
    requires TreesOk(m0, u0) && n in u0 && u0[n] == Free && TreesOk(m2, u2)
    requires SameMaps(m0[n := content], m2, u0[n := Held]) && TablesGrew(m0[n := content], m2, u0[n := Held], u2, r)
    requires m3.Keys == m2.Keys && forall q :: q in m2 && q != n ==> m3[q] == m2[q]
    ensures TreesOk(m3, u2[n := Free]) && SameMaps(m0, m3, u0) && TablesGrew(m0, m3, u0, u2[n := Free], r)
  {
    RootsFrame(m0, m0[n := content], u0, u0[n := Held]);
    TreesFrame(m2, m3, u2, u2[n := Free]);
    RootsFrame(m2, m3, u2, u2[n := Free]);
    assert forall q :: IsRoot(u0, q) ==> IsRoot(u0[n := Held], q) && IsRoot(u2, q);
  }

  /** The number of pages that sz bytes take. */
  function Pages(sz: nat): nat { (sz + PGSIZE - 1) / PGSIZE }

  /** What a page of the copied or grown range must hold: content(v) and perm(v). */
  ghost predicate RangeBacked(m: Mem, u: map<nat, Use>, r: nat, first: nat, k: nat, content: nat -> Page,
                              perm: nat -> nat) {
    forall v: nat {:trigger Backed(m, u, r, v, content(v), perm(v))} :: first <= v < first + k ==>
      Backed(m, u, r, v, content(v), perm(v))
  }

  lemma BackedKept(m1: Mem, u1: map<nat, Use>, m2: Mem, u2: map<nat, Use>, r: nat, v: nat, w: nat, k: nat,
                   content: Page, perm: nat)
    requires Backed(m1, u1, r, v, content, perm) && v < MAXV && !(w <= v < w + k) && IsRoot(u1, r)
    requires SameOutside(m1, m2, u1, r, w, k) && PagesTaken(m1, m2, u1, u2, r, w, k)
    ensures Backed(m2, u2, r, v, content, perm)
  {
  }

  /** Since m0, u0 the first k pages of a range of root r were added, and nothing else happened
      but that tables were allocated for them. */
  ghost predicate Growing(m0: Mem, u0: map<nat, Use>, m: Mem, u: map<nat, Use>, r: nat, first: nat, k: nat,
                          content: nat -> Page, perm: nat -> nat) {
    && IsRoot(u0, r) && first + k <= MAXV
    && SameOutside(m0, m, u0, r, first, k) && PagesTaken(m0, m, u0, u, r, first, k)
    && RangeBacked(m, u, r, first, k, content, perm)
  }

  lemma GrowingNext(m0: Mem, u0: map<nat, Use>, m: Mem, u: map<nat, Use>, r: nat, first: nat, k: nat,
                    content: nat -> Page, perm: nat -> nat)
    requires Growing(m0, u0, m, u, r, first, k, content, perm) && first + k < MAXV
    ensures IsRoot(u, r) && Pte(m, r, first + k) == Pte(m0, r, first + k)
  {
  }

  /** One more page at the end of the range. */
  lemma AddStep(m0: Mem, u0: map<nat, Use>, m1: Mem, u1: map<nat, Use>, m2: Mem, u2: map<nat, Use>,
                r: nat, v: nat, page: Page, flags: nat, first: nat, k: nat, content: nat -> Page, perm: nat -> nat)
    requires Growing(m0, u0, m1, u1, r, first, k, content, perm)
    requires v == first + k < MAXV && page == content(v) && flags == perm(v)
    requires SameOutside(m1, m2, u1, r, v, 1) && PagesTaken(m1, m2, u1, u2, r, v, 1) &&
             Backed(m2, u2, r, v, page, flags)
    ensures Growing(m0, u0, m2, u2, r, first, k + 1, content, perm)
  {
    assert forall q :: IsRoot(u0, q) ==> IsRoot(u1, q);
    forall w: nat | first <= w < first + k + 1 ensures Backed(m2, u2, r, w, content(w), perm(w)) {
      if w < v {
        assert Backed(m1, u1, r, w, content(w), perm(w));
        BackedKept(m1, u1, m2, u2, r, w, v, 1, content(w), perm(w));
      }
    }
  }

  /** A page that could not be added leaves the range so far as it was. */
  lemma FailStep(m0: Mem, u0: map<nat, Use>, m1: Mem, u1: map<nat, Use>, m2: Mem, u2: map<nat, Use>,
                 r: nat, first: nat, k: nat, content: nat -> Page, perm: nat -> nat)
    requires Growing(m0, u0, m1, u1, r, first, k, content, perm)
    requires SameMaps(m1, m2, u1) && TablesGrew(m1, m2, u1, u2, r)
    ensures Growing(m0, u0, m2, u2, r, first, k, content, perm)
  {
    assert forall q :: IsRoot(u0, q) ==> IsRoot(u1, q);
    forall v: nat | first <= v < first + k ensures Backed(m2, u2, r, v, content(v), perm(v)) {
      assert Backed(m1, u1, r, v, content(v), perm(v));
      BackedKept(m1, u1, m2, u2, r, v, first + k, 0, content(v), perm(v));
    }
  }

  ghost predicate Owned(m: Mem, u: map<nat, Use>, r: nat, v: nat) {
    IsValid(Pte(m, r, v)) && Ppn(Pte(m, r, v)) in u && u[Ppn(Pte(m, r, v))] == Data(r, v)
  }

  lemma GrowingOwned(m0: Mem, u0: map<nat, Use>, m: Mem, u: map<nat, Use>, r: nat, first: nat, k: nat,
                     content: nat -> Page, perm: nat -> nat)
    requires Growing(m0, u0, m, u, r, first, k, content, perm)
    ensures IsRoot(u, r) && forall v: nat :: first <= v < first + k ==> Owned(m, u, r, v)
  {
    forall v: nat | first <= v < first + k ensures Owned(m, u, r, v) {
      assert Backed(m, u, r, v, content(v), perm(v));
    }
  }

  /** Rolling the range back restores every flat map and leaks no page. */
  lemma RolledBack(m0: Mem, u0: map<nat, Use>, m2: Mem, u2: map<nat, Use>, m3: Mem, u3: map<nat, Use>, r: nat,
                   first: nat, k: nat)
    requires TreesOk(m0, u0) && IsRoot(u0, r) && first + k <= MAXV
    requires forall v: nat :: first <= v < first + k ==> !IsValid(Pte(m0, r, v))
    requires SameOutside(m0, m2, u0, r, first, k) && PagesTaken(m0, m2, u0, u2, r, first, k)
    requires RangeCleared(m2, m3, u2, r, first, k) && RangeReleased(u2, u3, r, first, k, Free) &&
             ContentsKept(m2, m3, u3)
    ensures SameMaps(m0, m3, u0) && TablesGrew(m0, m3, u0, u3, r)
  {
    assert forall q :: IsRoot(u0, q) ==> IsRoot(u2, q);
    forall r', v: nat | IsRoot(u0, r') && v < MAXV ensures Pte(m3, r', v) == Pte(m0, r', v) {
      if r' == r && first <= v < first + k { InvalidIsZero(m0, u0, r, v); }
    }
    forall p | p in u0 && u0[p].Data? && u0[p].root == r ensures !(first <= u0[p].vpn < first + k) {
      OneOwner(m0, u0, r, u0[p].vpn, p);
    }
  }

  /** What the page behind virtual page v of a parent holds, and its flags. */
  ghost function PageOf(m: Mem, r: nat): nat -> Page {
    v => if Ppn(Pte(m, r, v)) in m then m[Ppn(Pte(m, r, v))] else ZeroPage()
  }

  ghost function FlagsOf(m: Mem, r: nat): nat -> nat {
    v => Flags(Pte(m, r, v))
  }

  /** While the child grows the parent's translations and pages stay as they were. */
  lemma GrowingKeeps(m0: Mem, u0: map<nat, Use>, m: Mem, u: map<nat, Use>, child: nat, k: nat,
                     content: nat -> Page, perm: nat -> nat, parent: nat)
    requires Growing(m0, u0, m, u, child, 0, k, content, perm) && parent != child && IsRoot(u0, parent)
    ensures IsRoot(u, parent) && IsRoot(u, child)
    ensures k < MAXV && Owned(m0, u0, parent, k) ==>
              Pte(m, parent, k) == Pte(m0, parent, k) && m[Ppn(Pte(m0, parent, k))] == m0[Ppn(Pte(m0, parent, k))]
  {
  }

  lemma LowBits(x: nat, a: nat, b: nat)
    requires x == 16 * a + b && b < 16
    ensures IsLeaf(x) <==> b >= 2
    ensures IsValid(x) <==> b % 2 == 1
  {
    assert x / 2 == 8 * a + b / 2;
  }

  lemma FlagBits(e: nat)
    ensures IsValid(Flags(e)) <==> IsValid(e)
    ensures IsLeaf(Flags(e)) <==> IsLeaf(e)
  {
    var q, f := e / 1024, e % 1024;
    var a, b := f / 16, f % 16;
    LowBits(f, a, b);
    LowBits(e, 64 * q + a, b);
  }

  lemma LeafFlags(m: Mem, u: map<nat, Use>, p: nat, i: nat)
    requires TreesOk(m, u) && p in u && u[p].Table? && u[p].level == 0 && i < ENTRIES && IsValid(m[p][i])
    ensures IsLeaf(Flags(m[p][i])) && WithV(Flags(m[p][i])) == Flags(m[p][i])
  {
    assert TableOk(m, u, p, u[p].root, u[p].level, u[p].prefix);
    assert EntryOk(u, u[p].root, 0, u[p].prefix, i, Word(m, p, i));
    FlagBits(m[p][i]);
  }

  lemma NewRoot(m0: Mem, u0: map<nat, Use>, r: nat, m: Mem)
    requires TreesOk(m0, u0) && r in u0 && u0[r] == Free && m == m0[r := ZeroPage()]
    ensures TreesOk(m, u0[r := Table(r, 2, 0)]) && SameMaps(m0, m, u0)
    ensures forall v: nat :: v < MAXV ==> Pte(m, r, v) == 0
  {
    var u := u0[r := Table(r, 2, 0)];
    RootsFrame(m0, m, u0, u0);
    forall q | q in u && u[q].Table? ensures TableOk(m, u, q, u[q].root, u[q].level, u[q].prefix) {
      if q != r {
        assert TableOk(m0, u0, q, u0[q].root, u0[q].level, u0[q].prefix);
        TableAtFrame(m0, m, u0, u0[q].root, u0[q].level, u0[q].prefix);
        forall i: nat | i < ENTRIES ensures EntryOk(u, u[q].root, u[q].level, u[q].prefix, i, Word(m, q, i)) {
          assert EntryOk(u0, u0[q].root, u0[q].level, u0[q].prefix, i, Word(m0, q, i));
        }
      }
    }
    forall q | q in u && u[q].Data? ensures DataOk(m, u, q, u[q].root, u[q].vpn) {
      assert DataOk(m0, u0, q, u0[q].root, u0[q].vpn);
    }
    forall v: nat | v < MAXV ensures Pte(m, r, v) == 0 {
      assert TableAt(m, r, 1, v / ENTRIES / ENTRIES) == None;
    }
  }

  /** Growing by up to n pages, which need `need` free pages altogether. */
  ghost predicate Grown(m0: Mem, u0: map<nat, Use>, f0: nat, m: Mem, u: map<nat, Use>, free: seq<nat>, head: nat,
                        r: nat, first: nat, k: nat, n: nat, need: nat, content: nat -> Page, perm: nat -> nat) {
    && TreesOk(m, u) && PoolOk(m, u, free, head)
    && Growing(m0, u0, m, u, r, first, k, content, perm) && need == Need(m0, r, first, n, true)
    && Paid(m0, m, r, first, k, true, f0, |free|)
  }

  lemma GrowStart(m: Mem, u: map<nat, Use>, free: seq<nat>, head: nat, r: nat, first: nat, n: nat, need: nat,
                  content: nat -> Page, perm: nat -> nat)
    requires TreesOk(m, u) && PoolOk(m, u, free, head) && IsRoot(u, r) && first <= MAXV &&
             need == Need(m, r, first, n, true)
    ensures Grown(m, u, |free|, m, u, free, head, r, first, 0, n, need, content, perm)
  {
    PaidNone(m, r, first, true, |free|);
  }

  lemma GrowEnd(m0: Mem, u0: map<nat, Use>, f0: nat, m: Mem, u: map<nat, Use>, free: seq<nat>, head: nat, r: nat,
                first: nat, n: nat, need: nat, content: nat -> Page, perm: nat -> nat)
    requires Grown(m0, u0, f0, m, u, free, head, r, first, n, n, need, content, perm)
    ensures need <= f0 && Growing(m0, u0, m, u, r, first, n, content, perm)
  {
    PaidAll(m0, m, r, first, n, true, f0, |free|, n, need);
  }

  /** The next page of a walk up to newsz: it lies below newsz as long as not all n pages are done. */
  lemma PageTurn(first: nat, k: nat, n: nat, newsz: nat)
    requires first + n == Pages(newsz) && k <= n
    ensures (first + k) * PGSIZE / PGSIZE == first + k
    ensures (first + k) * PGSIZE < newsz <==> k < n
    ensures (first + k) * PGSIZE + PGSIZE == (first + k + 1) * PGSIZE
  {
    assert k < n ==> first + k + 1 <= Pages(newsz);
  }

  class PageMemory {
    var mem: Mem
    var freelist: nat
    ghost var free: seq<nat>
    ghost var use: map<nat, Use>

    ghost predicate Valid()
      reads this
    {
      TreesOk(mem, use) && PoolOk(mem, use, free, freelist)
    }

    /** kinit(): freerange() puts every page of RAM on the free list. */
    constructor (ram: Mem, lo: nat, hi: nat)
      requires 0 < lo <= hi && forall p: nat :: p in ram <==> lo <= p < hi
      ensures Valid() && use.Keys == ram.Keys && forall p :: p in use ==> use[p] == Free
    {
      mem, freelist, free := ram, 0, [];
      use := map p | p in ram :: Held;
      new;
      FreeRange(lo, hi);
    }

    method FreeRange(lo: nat, hi: nat)
      requires PoolOk(mem, use, free, freelist) && lo <= hi
      requires forall p: nat :: lo <= p < hi ==> p in mem && p in use && use[p] != Free
      modifies this
      ensures PoolOk(mem, use, free, freelist) && mem.Keys == old(mem).Keys && use.Keys == old(use).Keys
      ensures forall q :: q in use ==> use[q] == if lo <= q < hi then Free else old(use)[q]
    {
      var p := lo;
      while p + 1 <= hi
        invariant lo <= p <= hi && PoolOk(mem, use, free, freelist)
        invariant mem.Keys == old(mem).Keys && use.Keys == old(use).Keys
        invariant forall q :: q in use ==> use[q] == if lo <= q < p then Free else old(use)[q]
      {
        Kfree(p);
        p := p + 1;
      }
    }

    /** uvmcreate(): an empty page table, or 0. */
    method UvmCreate() returns (r: nat)
      requires Valid()
      modifies this
      ensures Valid()
      ensures r == 0 <==> old(free) == []
      ensures r == 0 ==> mem == old(mem) && use == old(use)
      ensures r != 0 ==> && r in old(use) && old(use)[r] == Free && use == old(use)[r := Table(r, 2, 0)]
                         && (forall v: nat :: v < MAXV ==> Pte(mem, r, v) == 0) && SameMaps(old(mem), mem, old(use))
    {
      ghost var m0, u0 := mem, use;
      r := Kalloc();
      if r == 0 {
        return;
      }
      ghost var m1, u1 := mem, use;
      mem := mem[r := ZeroPage()];
      use := u0[r := Table(r, 2, 0)];
      assert mem == m0[r := ZeroPage()];
      NewRoot(m0, u0, r, mem);
      PoolFrame(m1, mem, u1, use, free, freelist);
    }

    /** kalloc(): the page at the head of the free list, or 0. */
    method Kalloc() returns (p: nat)
      requires Valid()
      modifies this
      ensures Valid()
      ensures old(free) == [] ==> p == 0 && mem == old(mem) && use == old(use) && free == []
      ensures old(free) != [] ==>
                && p == old(free)[0] && p != 0 && p in old(use) && old(use)[p] == Free
                && free == old(free)[1..] && use == old(use)[p := Held] && mem == old(mem)[p := Junk(0x505050505050505)]
    {
      PoolPop(mem, use, free, freelist);
      var r := freelist;
      if r == 0 {
        return 0;
      }
      p := r / PGSIZE;
      assert p in free;
      TreesFrame(mem, mem[p := Junk(0x505050505050505)], use, use[p := Held]);
      freelist := mem[p][0];
      mem := mem[p := Junk(0x505050505050505)];
      use := use[p := Held];
      free := free[1..];
    }

    /** kfree(p): the page goes to the head of the free list.  What else holds of `use`
        and the trees is the caller's business. */
    method Kfree(p: nat)
      requires PoolOk(mem, use, free, freelist) && p in use && p in mem && use[p] != Free
      modifies this
      ensures PoolOk(mem, use, free, freelist)
      ensures free == [p] + old(free) && use == old(use)[p := Free]
      ensures mem.Keys == old(mem).Keys && forall q :: q in mem && q != p ==> mem[q] == old(mem)[q]
    {
      PoolPush(mem, use, free, freelist, p, Junk(0x101010101010101)[0 := freelist]);
      mem := mem[p := Junk(0x101010101010101)[0 := freelist]];
      freelist := p * PGSIZE;
      use := use[p := Free];
      free := [p] + free;
    }

    /** The allocating arm of walk(): a zeroed page becomes the table below entry i of table pt. */
    method NewTable(pt: nat, i: nat) returns (n: nat)
      requires Valid() && pt in use && use[pt].Table? && use[pt].level > 0 && i < ENTRIES && !IsValid(mem[pt][i])
      modifies this
      ensures Valid() && SameMaps(old(mem), mem, old(use)) &&
              TablesGrew(old(mem), mem, old(use), use, old(use)[pt].root)
      ensures n == 0 <==> old(free) == []
      ensures n == 0 ==> free == [] && mem == old(mem)
      ensures n != 0 ==>
                n in use && use[n] == Table(old(use)[pt].root, old(use)[pt].level - 1,
                                            old(use)[pt].prefix * ENTRIES + i)
      ensures n != 0 ==> |free| == |old(free)| - 1
      ensures n != 0 ==>
                LevelMade(old(mem), mem, old(use)[pt].root, old(use)[pt].level - 1, old(use)[pt].prefix * ENTRIES + i)
    {
      ghost var m0, u0 := mem, use;
      n := Kalloc();
      if n == 0 {
        return;
      }
      ghost var m1, u1 := mem, use;
      AllocLink(m0, u0, pt, i, n, Junk(0x505050505050505));
      mem := mem[n := ZeroPage()];
      mem := mem[pt := mem[pt][i := MakePte(n, 0)]];
      use := u0[n := Table(u0[pt].root, u0[pt].level - 1, u0[pt].prefix * ENTRIES + i)];
      assert mem == Linked(m1, pt, i, n);
      PoolFrame(m1, mem, u1, use, free, freelist);
    }

    /** One turn of the loop of walk(): the table below on the way to v, made if it is missing; 0
        without `alloc`, or without a free page. */
    method Descend(r: nat, v: nat, pt: nat, level: nat, alloc: bool) returns (n: nat)
      requires Valid() && IsRoot(use, r) && v < MAXVPN && 0 < level <= 2 && pt in use &&
               use[pt] == Table(r, level, Prefix(level, v))
      modifies this
      ensures Valid() && SameMaps(old(mem), mem, old(use)) && TablesGrew(old(mem), mem, old(use), use, r)
      ensures !alloc ==> mem == old(mem) && use == old(use) && free == old(free)
      ensures n != 0 ==> n in use && use[n] == Table(r, level - 1, Prefix(level - 1, v))
      ensures n == 0 && !alloc ==> Pte(mem, r, v) == 0
      ensures n == 0 && alloc ==> free == old(free) == [] && !Has(old(mem), r, level - 1, Prefix(level - 1, v))
      ensures n != 0 ==> LevelMade(old(mem), mem, r, level - 1, Prefix(level - 1, v))
      ensures n != 0 ==> |free| + One(!Has(old(mem), r, level - 1, Prefix(level - 1, v))) == |old(free)|
    {
      var i := Index(level, v);
      var e := mem[pt][i];
      StepBelow(mem, use, pt, level, v);
      if IsValid(e) {
        TableEntry(mem, use, pt, i);
        n := Ppn(e);
      } else if !alloc {
        NoSlotNoPte(mem, use, pt, v);
        n := 0;
      } else {
        n := NewTable(pt, i);
      }
    }

    /** walk(): the slot of virtual page v.  No translation changes, in this or any other page
        table; without `alloc` nothing changes at all.  With `alloc` it fails exactly if there are
        fewer free pages than tables missing on the way. */
    method Walk(r: nat, v: nat, alloc: bool) returns (slot: Option<(nat, nat)>)
      requires Valid() && IsRoot(use, r) && v < MAXVPN
      modifies this
      ensures Valid() && SameMaps(old(mem), mem, old(use)) && TablesGrew(old(mem), mem, old(use), use, r)
      ensures slot.Some? ==>
                slot.value.0 in use && use[slot.value.0] == Table(r, 0, v / ENTRIES) && slot.value.1 == v % ENTRIES
      ensures !alloc ==> mem == old(mem) && use == old(use) && free == old(free)
      ensures !alloc && slot.None? ==> Pte(mem, r, v) == 0
      ensures alloc && slot.None? ==> free == [] && |old(free)| < Lack(old(mem), r, v)
      ensures slot.Some? ==> MadeTo(old(mem), mem, r, v, 0) && |free| + Lack(old(mem), r, v) == |old(free)|
    {
      var pt, level := r, 2;
      PrefixTop(v);
      while level > 0
        invariant 0 <= level <= 2 && Valid() && IsRoot(use, r)
        invariant SameMaps(old(mem), mem, old(use)) && TablesGrew(old(mem), mem, old(use), use, r)
        invariant pt in use && use[pt] == Table(r, level, Prefix(level, v))
        invariant !alloc ==> mem == old(mem) && use == old(use) && free == old(free)
        invariant MadeTo(old(mem), mem, r, v, level) && |free| + LackTo(old(mem), r, v, level) == |old(free)|
      {
        ghost var m1, u1 := mem, use;
        var n := Descend(r, v, pt, level, alloc);
        SameMapsTrans(old(mem), m1, mem, old(use), u1);
        TablesGrewTrans(old(mem), m1, mem, old(use), u1, use, r);
        if n == 0 {
          LackMore(old(mem), m1, r, v, level);
          return None;
        }
        WalkDown(old(mem), m1, mem, r, v, level);
        pt := n;
        level := level - 1;
      }
      slot := Some((pt, Index(0, v)));
    }

    /** The slot of a mapped page, as walk() without alloc finds it. */
    method FindSlot(r: nat, v: nat) returns (p: nat, i: nat)
      requires Valid() && IsRoot(use, r) && v < MAXVPN && IsValid(Pte(mem, r, v))
      modifies this
      ensures Valid() && mem == old(mem) && use == old(use) && free == old(free)
      ensures p in use && use[p] == Table(r, 0, v / ENTRIES) && i == v % ENTRIES && mem[p][i] == Pte(mem, r, v)
    {
      var slot := Walk(r, v, false);
      p, i := slot.value.0, slot.value.1;
      PteAt(mem, use, p, i);
    }

    /** One turn of mappages(): page n becomes the translation of v, or no table page was left. */
    method MapPage(r: nat, v: nat, n: nat, perm: nat) returns (ok: bool)
      requires Valid() && IsRoot(use, r) && v < MAXVPN && perm < 1024 && IsLeaf(perm)
      requires !IsValid(Pte(mem, r, v)) && (n in use ==> use[n] in {Held, Other})
      modifies this
      ensures Valid()
      ensures ok ==>
                MapsUpdated(old(mem), mem, old(use), r, v, MakePte(n, perm)) &&
                PageMapped(old(mem), mem, old(use), use, r, v, n)
      ensures !ok ==> SameMaps(old(mem), mem, old(use)) && TablesGrew(old(mem), mem, old(use), use, r) && free == []
      ensures ok ==> MadeTo(old(mem), mem, r, v, 0) && |free| + Lack(old(mem), r, v) == |old(free)|
      ensures !ok ==> |old(free)| < Lack(old(mem), r, v)
    {
      var slot := Walk(r, v, true);
      if slot.None? {
        return false;
      }
      var (p, i) := slot.value;
      SetPte(r, v, p, i, n, perm, old(mem), old(use));
      ok := true;
    }

    /** *pte = PA2PTE(pa) | perm | PTE_V */
    method SetPte(r: nat, v: nat, p: nat, i: nat, n: nat, perm: nat, ghost m0: Mem, ghost u0: map<nat, Use>)
      requires Valid() && IsRoot(u0, r) && v < MAXV && SameMaps(m0, mem, u0) && TablesGrew(m0, mem, u0, use, r)
      requires p in use && use[p] == Table(r, 0, v / ENTRIES) && i == v % ENTRIES && MadeTo(m0, mem, r, v, 0)
      requires !IsValid(Pte(m0, r, v)) && perm < 1024 && IsLeaf(perm) && (n in u0 ==> u0[n] in {Held, Other})
      modifies this
      ensures Valid() && free == old(free) && MadeTo(m0, mem, r, v, 0)
      ensures MapsUpdated(m0, mem, u0, r, v, MakePte(n, perm)) && PageMapped(m0, mem, u0, use, r, v, n)
    {
      StoreSlot(m0, u0, mem, use, free, freelist, p, i, n, perm, r, v);
      StoreMade(m0, mem, use, p, mem[p][i := MakePte(n, perm)], r, v);
      mem := mem[p := mem[p][i := MakePte(n, perm)]];
      use := Mapped(use, r, v, n);
    }

    /** The next page of a range. */
    method MapNext(r: nat, a: nat, page: nat, perm: nat, ghost m0: Mem, ghost u0: map<nat, Use>,
                   ghost first: nat, ghost k: nat, ghost base: nat, ghost f0: nat, ghost n: nat,
                   ghost need: nat) returns (ok: bool)
      requires Paid(m0, mem, r, first, k, false, f0, |free|) && k < n && need == Need(m0, r, first, n, false)
      requires Valid() && IsRoot(u0, r) && a == first + k < MAXVPN && page == base + k && perm < 1024 && IsLeaf(perm)
      requires Mapping(m0, u0, mem, use, r, first, k, base, perm)
      requires !IsValid(Pte(m0, r, a)) && (page in u0 ==> u0[page] in {Held, Other})
      modifies this
      ensures Valid() && Mapping(m0, u0, mem, use, r, first, if ok then k + 1 else k, base, perm)
      ensures ok ==> Paid(m0, mem, r, first, k + 1, false, f0, |free|)
      ensures !ok ==> f0 < need
    {
      ghost var m1, u1, f1 := mem, use, |free|;
      MappingNext(m0, u0, mem, use, r, first, k, base, perm, a, page);
      ok := MapPage(r, a, page, perm);
      if ok {
        MappingStep(m0, u0, m1, u1, mem, use, r, first, k, base, perm, a, page);
        PaidNext(m0, m1, mem, r, first, k, false, f0, f1, |free|, a);
      } else {
        MappingFail(m0, u0, m1, u1, mem, use, r, first, k, base, perm);
        PaidShort(m0, m1, r, first, k, false, f0, f1, a, n, need);
      }
    }

    /** The loop of mappages(), on page numbers: from `first` to `last`. */
    method MapRange(r: nat, first: nat, last: nat, base: nat, perm: nat, ghost n: nat,
                    ghost need: nat) returns (ok: bool, ghost done: nat)
      requires Valid() && IsRoot(use, r) && perm < 1024 && IsLeaf(perm) && first <= last < MAXVPN &&
               n == last - first + 1
      requires forall v :: first <= v <= last ==> !IsValid(Pte(mem, r, v))
      requires forall p :: p in use && base <= p <= base + last - first ==> use[p] in {Held, Other}
      requires need == Need(mem, r, first, n, false)
      modifies this
      ensures Valid() && done <= n && (ok <==> done == n) && (ok <==> need <= |old(free)|)
      ensures RangeMaps(old(mem), mem, old(use), r, first, done, base, perm)
      ensures RangeUse(old(mem), mem, old(use), use, r, first, done, base)
    {
      var a, page := first, base;
      done := 0;
      PaidNone(mem, r, first, false, |free|);
      while true
        invariant first <= a <= last && a == first + done && page == base + done && Valid()
        invariant Mapping(old(mem), old(use), mem, use, r, first, done, base, perm)
        invariant Paid(old(mem), mem, r, first, done, false, |old(free)|, |free|)
        decreases last - a
      {
        ok := MapNext(r, a, page, perm, old(mem), old(use), first, done, base, |old(free)|, n, need);
        if !ok {
          return;
        }
        done := done + 1;
        if a == last {
          PaidAll(old(mem), mem, r, first, done, false, |old(free)|, |free|, n, need);
          return;
        }
        a := a + 1;
        page := page + 1;
      }
    }

    /** mappages(): point updates of the flat map for the pages from va to va + size - 1, in order.
        It fails exactly if there are fewer free pages than missing tables; then the `done` pages
        before stay mapped. */
    method MapPages(r: nat, va: nat, size: nat, pa: nat, perm: nat) returns (ok: bool, ghost done: nat)
      requires Valid() && IsRoot(use, r) && size > 0 && perm < 1024 && IsLeaf(perm)
      requires (va + size - 1) / PGSIZE < MAXVPN
      requires forall v :: va / PGSIZE <= v <= (va + size - 1) / PGSIZE ==> !IsValid(Pte(mem, r, v))
      requires forall p :: p in use && pa / PGSIZE <= p <= pa / PGSIZE + (va + size - 1) / PGSIZE - va / PGSIZE ==>
                 use[p] in {Held, Other}
      modifies this
      ensures var n := (va + size - 1) / PGSIZE - va / PGSIZE + 1;
              Valid() && done <= n && (ok <==> done == n) &&
              (ok <==> Need(old(mem), r, va / PGSIZE, n, false) <= |old(free)|)
      ensures RangeMaps(old(mem), mem, old(use), r, va / PGSIZE, done, pa / PGSIZE, perm)
      ensures RangeUse(old(mem), mem, old(use), use, r, va / PGSIZE, done, pa / PGSIZE)
    {
      ghost var n := (va + size - 1) / PGSIZE - va / PGSIZE + 1;
      ok, done := MapRange(r, va / PGSIZE, (va + size - 1) / PGSIZE, pa / PGSIZE, perm, n,
                           Need(mem, r, va / PGSIZE, n, false));
    }

    /** One turn of uvmunmap() with do_free: the translation goes, its page returns to the free list. */
    method UnmapFree(r: nat, v: nat)
      requires Valid() && IsRoot(use, r) && v < MAXVPN && IsValid(Pte(mem, r, v))
      requires Ppn(Pte(mem, r, v)) in use && use[Ppn(Pte(mem, r, v))] == Data(r, v)
      modifies this
      ensures Valid() && MapsUpdated(old(mem), mem, old(use), r, v, 0)
      ensures RangeReleased(old(use), use, r, v, 1, Free) && ContentsKept(old(mem), mem, use)
      ensures free == [Ppn(Pte(old(mem), r, v))] + old(free)
    {
      ghost var m0, u0 := mem, use;
      var p, i := FindSlot(r, v);
      var n := Ppn(mem[p][i]);
      OneReleased(m0, u0, r, v, n);
      Kfree(n);
      FreeSlot(m0, u0, p, i, mem, r, v);
      PoolFrame(mem, mem[p := mem[p][i := 0]], use, use, free, freelist);
      mem := mem[p := mem[p][i := 0]];
    }

    /** One turn of uvmunmap() without do_free. */
    method UnmapKeep(r: nat, v: nat)
      requires Valid() && IsRoot(use, r) && v < MAXVPN && IsValid(Pte(mem, r, v))
      modifies this
      ensures Valid() && MapsUpdated(old(mem), mem, old(use), r, v, 0)
      ensures RangeReleased(old(use), use, r, v, 1, Held) && ContentsKept(old(mem), mem, use)
      ensures free == old(free)
    {
      ghost var m0, u0 := mem, use;
      var p, i := FindSlot(r, v);
      ghost var n := Ppn(mem[p][i]);
      forall q | q in u0 && u0[q] == Data(r, v) ensures q == n { OneOwner(m0, u0, r, v, q); }
      KeepSlot(m0, u0, p, i, r, v, m0[p := m0[p][i := 0]]);
      PoolFrame(m0, m0[p := m0[p][i := 0]], u0, Unmapped(u0, r, v, n), free, freelist);
      mem := mem[p := mem[p][i := 0]];
      use := Unmapped(use, r, v, n);
    }

    /** uvmunmap(): exactly the given range of translations goes; with do_free exactly its pages
        return to the free list.  None of its panics can be reached under the stated demands. */
    method UvmUnmap(r: nat, va: nat, npages: nat, doFree: bool)
      requires Valid() && IsRoot(use, r) && va % PGSIZE == 0 && va / PGSIZE + npages <= MAXVPN
      requires forall v :: va / PGSIZE <= v < va / PGSIZE + npages ==> IsValid(Pte(mem, r, v))
      requires doFree ==> forall v :: va / PGSIZE <= v < va / PGSIZE + npages ==>
                 Ppn(Pte(mem, r, v)) in use && use[Ppn(Pte(mem, r, v))] == Data(r, v)
      modifies this
      ensures Valid() && RangeCleared(old(mem), mem, old(use), r, va / PGSIZE, npages)
      ensures RangeReleased(old(use), use, r, va / PGSIZE, npages, if doFree then Free else Held)
      ensures ContentsKept(old(mem), mem, use)
    {
      ghost var first, to := va / PGSIZE, if doFree then Free else Held;
      var a := 0;
      while a < npages
        invariant 0 <= a <= npages && Valid() && IsRoot(use, r)
        invariant RangeCleared(old(mem), mem, old(use), r, first, a) && RangeReleased(old(use), use, r, first, a, to)
        invariant ContentsKept(old(mem), mem, use)
      {
        ghost var m1, u1 := mem, use;
        assert Pte(mem, r, first + a) == Pte(old(mem), r, first + a);
        if doFree {
          UnmapFree(r, va / PGSIZE + a);
        } else {
          UnmapKeep(r, va / PGSIZE + a);
        }
        ClearStep(old(mem), old(use), m1, u1, mem, use, r, first, a, to);
        a := a + 1;
      }
    }

    /** kalloc, fill, mappages of one page, and kfree if the mapping fails: one turn of the loops
        of uvmalloc() and uvmcopy().  On failure only new tables remain. */
    method AddPage(r: nat, v: nat, content: Page, perm: nat) returns (ok: bool)
      requires Valid() && IsRoot(use, r) && v < MAXVPN && perm < 1024 && IsLeaf(perm) && !IsValid(Pte(mem, r, v))
      modifies this
      ensures Valid()
      ensures ok ==> Backed(mem, use, r, v, content, perm) && SameOutside(old(mem), mem, old(use), r, v, 1)
                     && PagesTaken(old(mem), mem, old(use), use, r, v, 1)
      ensures !ok ==> SameMaps(old(mem), mem, old(use)) && TablesGrew(old(mem), mem, old(use), use, r)
      ensures ok ==> MadeTo(old(mem), mem, r, v, 0) && |free| + Lack(old(mem), r, v) + 1 == |old(free)|
      ensures !ok ==> |old(free)| < Lack(old(mem), r, v) + 1
    {
      ghost var m0, u0 := mem, use;
      var n := Kalloc();
      if n == 0 {
        return false;
      }
      mem := mem[n := content];
      assert mem == m0[n := content];
      TreesFrame(m0, mem, u0, use);
      PoolFrame(m0[n := Junk(0x505050505050505)], mem, use, use, free, freelist);
      PteFrame(m0, mem, u0, r, v);
      ok := MapPage(r, v, n, perm);
      FillMade(m0, u0, n, content, mem, r, v);
      if ok {
        AddedPage(m0, u0, n, content, mem, use, r, v, perm);
      } else {
        ghost var m2, u2 := mem, use;
        Kfree(n);
        NotAddedPage(m0, u0, n, content, m2, u2, mem, r);
      }
    }

    /** uvmdealloc(): gives back the pages between the two sizes. */
    method UvmDealloc(r: nat, oldsz: nat, newsz: nat) returns (sz: nat)
      requires Valid() && IsRoot(use, r) && Pages(oldsz) <= MAXVPN
      requires forall v: nat :: Pages(newsz) <= v < Pages(oldsz) ==> Owned(mem, use, r, v)
      modifies this
      ensures Valid() && sz == if newsz < oldsz then newsz else oldsz
      ensures var k := if newsz < oldsz then Pages(oldsz) - Pages(newsz) else 0;
              && RangeCleared(old(mem), mem, old(use), r, Pages(newsz), k)
              && RangeReleased(old(use), use, r, Pages(newsz), k, Free) && ContentsKept(old(mem), mem, use)
    {
      if newsz >= oldsz {
        return oldsz;
      }
      if Pages(newsz) < Pages(oldsz) {
        forall v: nat | Pages(newsz) <= v < Pages(oldsz)
          ensures IsValid(Pte(mem, r, v)) && Ppn(Pte(mem, r, v)) in use && use[Ppn(Pte(mem, r, v))] == Data(r, v) {
          assert Owned(mem, use, r, v);
        }
        UvmUnmap(r, Pages(newsz) * PGSIZE, Pages(oldsz) - Pages(newsz), true);
      }
      return newsz;
    }

    /** The next page of a growing range. */
    method AddNext(r: nat, v: nat, page: Page, flags: nat, ghost m0: Mem, ghost u0: map<nat, Use>,
                   ghost first: nat, ghost k: nat, ghost content: nat -> Page, ghost perm: nat -> nat,
                   ghost f0: nat, ghost n: nat, ghost need: nat) returns (ok: bool)
      requires Valid() && Growing(m0, u0, mem, use, r, first, k, content, perm)
      requires Paid(m0, mem, r, first, k, true, f0, |free|) && k < n && need == Need(m0, r, first, n, true)
      requires v == first + k < MAXVPN && page == content(v) && flags == perm(v) && flags < 1024 && IsLeaf(flags)
      requires !IsValid(Pte(m0, r, v))
      modifies this
      ensures Valid() && Growing(m0, u0, mem, use, r, first, if ok then k + 1 else k, content, perm)
      ensures ok ==> Paid(m0, mem, r, first, k + 1, true, f0, |free|)
      ensures !ok ==> f0 < need
    {
      ghost var m1, u1, f1 := mem, use, |free|;
      GrowingNext(m0, u0, m1, u1, r, first, k, content, perm);
      ok := AddPage(r, v, page, flags);
      if ok {
        AddStep(m0, u0, m1, u1, mem, use, r, v, page, flags, first, k, content, perm);
        PaidNext(m0, m1, mem, r, first, k, true, f0, f1, |free|, v);
      } else {
        PaidShort(m0, m1, r, first, k, true, f0, f1, v, n, need);
        FailStep(m0, u0, m1, u1, mem, use, r, first, k, content, perm);
      }
    }

    /** The error path of uvmalloc(): uvmdealloc() back to where the range began. */
    method GiveBack(r: nat, a: nat, base: nat, ghost m0: Mem, ghost u0: map<nat, Use>,
                    ghost first: nat, ghost k: nat, ghost content: nat -> Page, ghost perm: nat -> nat)
      requires Valid() && TreesOk(m0, u0) && Growing(m0, u0, mem, use, r, first, k, content, perm)
      requires a == (first + k) * PGSIZE && base == first * PGSIZE && first + k <= MAXVPN
      requires forall v: nat :: first <= v < first + k ==> !IsValid(Pte(m0, r, v))
      modifies this
      ensures Valid() && SameMaps(m0, mem, u0) && TablesGrew(m0, mem, u0, use, r)
    {
      ghost var m2, u2 := mem, use;
      GrowingOwned(m0, u0, m2, u2, r, first, k, content, perm);
      assert Pages(a) == first + k && Pages(base) == first;
      var _ := UvmDealloc(r, a, base);
      RolledBack(m0, u0, m2, u2, mem, use, r, first, k);
    }

    /** A turn of the loop of uvmalloc(): one more zeroed page, or all of them given back. */
    method GrowTurn(r: nat, a: nat, from: nat, ghost m0: Mem, ghost u0: map<nat, Use>, ghost first: nat,
                    ghost k: nat, ghost zero: nat -> Page, ghost up: nat -> nat, ghost f0: nat, ghost n: nat,
                    ghost need: nat) returns (ok: bool)
      requires TreesOk(m0, u0) && Grown(m0, u0, f0, mem, use, free, freelist, r, first, k, n, need, zero, up)
      requires from == first * PGSIZE && a == (first + k) * PGSIZE && k < n && first + n <= MAXVPN
      requires a / PGSIZE == first + k
      requires forall v: nat :: zero(v) == ZeroPage() && up(v) == USER_PERM
      requires forall v: nat :: first <= v < first + n ==> !IsValid(Pte(m0, r, v))
      modifies this
      ensures Valid()
      ensures ok ==> Grown(m0, u0, f0, mem, use, free, freelist, r, first, k + 1, n, need, zero, up)
      ensures !ok ==> f0 < need && SameMaps(m0, mem, u0) && TablesGrew(m0, mem, u0, use, r)
    {
      UserLeaf();
      var v := a / PGSIZE;
      ok := AddNext(r, v, ZeroPage(), USER_PERM, m0, u0, first, k, zero, up, f0, n, need);
      if !ok {
        GiveBack(r, a, from, m0, u0, first, k, zero, up);
      }
    }

    /** The loop of uvmalloc(): pages from address `from` on, until newsz is covered. */
    method GrowTo(r: nat, from: nat, newsz: nat, ghost first: nat, ghost n: nat, ghost need: nat,
                  ghost zero: nat -> Page, ghost up: nat -> nat) returns (ok: bool)
      requires Valid() && IsRoot(use, r) && from == first * PGSIZE && first + n == Pages(newsz) <= MAXVPN
      requires forall v: nat :: first <= v < first + n ==> !IsValid(Pte(mem, r, v))
      requires need == Need(mem, r, first, n, true)
      requires forall v: nat :: zero(v) == ZeroPage() && up(v) == USER_PERM
      modifies this
      ensures Valid() && (ok <==> need <= |old(free)|)
      ensures ok ==> Growing(old(mem), old(use), mem, use, r, first, n, zero, up)
      ensures !ok ==> SameMaps(old(mem), mem, old(use)) && TablesGrew(old(mem), mem, old(use), use, r)
    {
      ghost var k := 0;
      var a := from;
      GrowStart(mem, use, free, freelist, r, first, n, need, zero, up);
      while a < newsz
        invariant a == (first + k) * PGSIZE && k <= n
        invariant Grown(old(mem), old(use), |old(free)|, mem, use, free, freelist, r, first, k, n, need, zero, up)
      {
        PageTurn(first, k, n, newsz);
        var good := GrowTurn(r, a, from, old(mem), old(use), first, k, zero, up, |old(free)|, n, need);
        if !good {
          return false;
        }
        a := a + PGSIZE;
        k := k + 1;
      }
      PageTurn(first, k, n, newsz);
      GrowEnd(old(mem), old(use), |old(free)|, mem, use, free, freelist, r, first, n, need, zero, up);
      return true;
    }

    /** uvmalloc(): either every page of the new range is backed by a zeroed page of its own,
        or all flat maps are as before and no data page was lost.  It fails exactly if there are
        fewer free pages than new pages and missing tables. */
    method UvmAlloc(r: nat, oldsz: nat, newsz: nat) returns (sz: nat, ghost ok: bool)
      requires Valid() && IsRoot(use, r) && Pages(newsz) <= MAXVPN
      requires forall v: nat :: Pages(oldsz) <= v < Pages(newsz) ==> !IsValid(Pte(mem, r, v))
      modifies this
      ensures Valid()
      ensures sz == if newsz < oldsz then oldsz else if ok then newsz else 0
      ensures newsz < oldsz ==> mem == old(mem) && use == old(use)
      ensures newsz >= oldsz && ok ==>
                Growing(old(mem), old(use), mem, use, r, Pages(oldsz), Pages(newsz) - Pages(oldsz), v => ZeroPage(),
                        v => USER_PERM)
      ensures newsz >= oldsz && !ok ==> SameMaps(old(mem), mem, old(use)) && TablesGrew(old(mem), mem, old(use), use, r)
      ensures newsz >= oldsz ==>
                (ok <==> Need(old(mem), r, Pages(oldsz), Pages(newsz) - Pages(oldsz), true) <= |old(free)|)
    {
      if newsz < oldsz {
        return oldsz, true;
      }
      ghost var n := Pages(newsz) - Pages(oldsz);
      var good := GrowTo(r, Pages(oldsz) * PGSIZE, newsz, Pages(oldsz), n, Need(mem, r, Pages(oldsz), n, true),
                         v => ZeroPage(), v => USER_PERM);
      sz, ok := if good then newsz else 0, good;
    }

    /** The error path of uvmcopy(): uvmunmap() of everything mapped so far. */
    method Undo(r: nat, k: nat, ghost m0: Mem, ghost u0: map<nat, Use>, ghost content: nat -> Page,
                ghost perm: nat -> nat)
      requires Valid() && TreesOk(m0, u0) && Growing(m0, u0, mem, use, r, 0, k, content, perm) && k <= MAXVPN
      requires forall v: nat :: v < k ==> !IsValid(Pte(m0, r, v))
      modifies this
      ensures Valid() && SameMaps(m0, mem, u0) && TablesGrew(m0, mem, u0, use, r)
    {
      ghost var m2, u2 := mem, use;
      GrowingOwned(m0, u0, m2, u2, r, 0, k, content, perm);
      forall v: nat | v < k
        ensures IsValid(Pte(mem, r, v)) && Ppn(Pte(mem, r, v)) in use && use[Ppn(Pte(mem, r, v))] == Data(r, v) {
        assert Owned(mem, use, r, v);
      }
      UvmUnmap(r, 0, k, true);
      RolledBack(m0, u0, m2, u2, mem, use, r, 0, k);
    }

    /** The PTE of a mapped page, as walk() without alloc finds it. */
    method FindPte(r: nat, v: nat) returns (pte: nat)
      requires Valid() && IsRoot(use, r) && v < MAXVPN && IsValid(Pte(mem, r, v))
      modifies this
      ensures Valid() && mem == old(mem) && use == old(use) && free == old(free)
      ensures pte == Pte(mem, r, v) && IsLeaf(Flags(pte)) && WithV(Flags(pte)) == Flags(pte)
    {
      var p, j := FindSlot(r, v);
      pte := mem[p][j];
      LeafFlags(mem, use, p, j);
    }

    /** One turn of the loop of uvmcopy(). */
    method CopyOne(parent: nat, child: nat, k: nat, ghost m0: Mem, ghost u0: map<nat, Use>,
                   ghost f0: nat, ghost n: nat, ghost need: nat) returns (ok: bool)
      requires Paid(m0, mem, child, 0, k, true, f0, |free|) && k < n && need == Need(m0, child, 0, n, true)
      requires Valid() && Growing(m0, u0, mem, use, child, 0, k, PageOf(m0, parent), FlagsOf(m0, parent))
      requires parent != child && IsRoot(u0, parent) && k < MAXVPN
      requires Owned(m0, u0, parent, k) && !IsValid(Pte(m0, child, k)) && Ppn(Pte(m0, parent, k)) in m0
      modifies this
      ensures Valid() &&
              Growing(m0, u0, mem, use, child, 0, if ok then k + 1 else k, PageOf(m0, parent), FlagsOf(m0, parent))
      ensures ok ==> Paid(m0, mem, child, 0, k + 1, true, f0, |free|)
      ensures !ok ==> f0 < need
    {
      GrowingKeeps(m0, u0, mem, use, child, k, PageOf(m0, parent), FlagsOf(m0, parent), parent);
      var pte := FindPte(parent, k);
      ok := AddNext(child, k, mem[Ppn(pte)], Flags(pte), m0, u0, 0, k, PageOf(m0, parent), FlagsOf(m0, parent),
                    f0, n, need);
    }

    /** The loop of uvmcopy(). */
    method CopyTo(parent: nat, child: nat, sz: nat, ghost n: nat, ghost need: nat) returns (ok: bool)
      requires Valid() && IsRoot(use, parent) && IsRoot(use, child) && parent != child && n == Pages(sz) <= MAXVPN
      requires forall v: nat :: v < n ==> Owned(mem, use, parent, v) && !IsValid(Pte(mem, child, v))
      requires need == Need(mem, child, 0, n, true)
      modifies this
      ensures Valid() && (ok <==> need <= |old(free)|)
      ensures ok ==>
                Growing(old(mem), old(use), mem, use, child, 0, n, PageOf(old(mem), parent), FlagsOf(old(mem), parent))
      ensures !ok ==> SameMaps(old(mem), mem, old(use)) && TablesGrew(old(mem), mem, old(use), use, child)
    {
      var i, k := 0, 0;
      PaidNone(mem, child, 0, true, |free|);
      while i < sz
        invariant 0 <= k <= n && i == k * PGSIZE && Valid()
        invariant Growing(old(mem), old(use), mem, use, child, 0, k, PageOf(old(mem), parent),
                          FlagsOf(old(mem), parent))
        invariant Paid(old(mem), mem, child, 0, k, true, |old(free)|, |free|)
      {
        assert Owned(old(mem), old(use), parent, k);
        ok := CopyOne(parent, child, k, old(mem), old(use), |old(free)|, n, need);
        if !ok {
          Undo(child, k, old(mem), old(use), PageOf(old(mem), parent), FlagsOf(old(mem), parent));
          return;
        }
        k := k + 1;
        i := i + PGSIZE;
      }
      PaidAll(old(mem), mem, child, 0, k, true, |old(free)|, |free|, n, need);
      ok := true;
    }

    /** uvmcopy(): on success the child has, page by page, the parent's bytes and flags on pages
        of its own; on failure all flat maps are as before and no data page was lost.  It fails
        exactly if there are fewer free pages than pages to copy and missing tables. */
    method UvmCopy(parent: nat, child: nat, sz: nat) returns (ok: bool)
      requires Valid() && IsRoot(use, parent) && IsRoot(use, child) && parent != child && Pages(sz) <= MAXVPN
      requires forall v: nat :: v < Pages(sz) ==> Owned(mem, use, parent, v) && !IsValid(Pte(mem, child, v))
      modifies this
      ensures Valid() && (ok <==> Need(old(mem), child, 0, Pages(sz), true) <= |old(free)|)
      ensures ok ==>
                Growing(old(mem), old(use), mem, use, child, 0, Pages(sz), PageOf(old(mem), parent),
                        FlagsOf(old(mem), parent))
      ensures !ok ==> SameMaps(old(mem), mem, old(use)) && TablesGrew(old(mem), mem, old(use), use, child)
    {
      ok := CopyTo(parent, child, sz, Pages(sz), Need(mem, child, 0, Pages(sz), true));
    }
  }
}
