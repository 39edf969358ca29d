/** Physical pages, what each is used for, and three-level Sv39 page tables inside them.
    A page is 512 words.  `Use` gives every page one owner, so that handing pages around
    without losing or duplicating any is a matter of how `use` changes. */
module PageTables {
  import opened Prelude

  const ENTRIES: nat := 512        // PTEs per page-table page
  const MAXV: nat := ENTRIES * ENTRIES * ENTRIES   // virtual pages three levels can name
  const MAXVPN: nat := 0x400_0000                   // MAXVA / PGSIZE == 2^26, half of MAXV

  type Page = p: seq<nat> | |p| == ENTRIES witness seq(ENTRIES, i => 0)
  type Mem = map<nat, Page>        // by physical page number

  /** A table of level l with prefix x covers the virtual pages v with v / 512^(l+1) == x. */
  datatype Use =
    | Free
    | Held                                        // handed out by kalloc, not mapped yet
    | Table(root: nat, level: nat, prefix: nat)
    | Data(root: nat, vpn: nat)
    | Other                                       // mapped kernel pages: trampoline, trapframe

  // ---------------------------------------------------------------- page-table entries

  predicate IsValid(pte: nat) { pte % 2 == 1 }                 // PTE_V
  predicate IsLeaf(pte: nat) { (pte / 2) % 8 != 0 }            // PTE_R | PTE_W | PTE_X
  function Ppn(pte: nat): nat { pte / 1024 }                   // PTE2PA(pte) / PGSIZE
  function Flags(pte: nat): nat { pte % 1024 }                 // PTE_FLAGS

  /** PA2PTE(pa) | perm | PTE_V */
  function MakePte(ppn: nat, perm: nat): nat
    requires perm < 1024
  {
    ppn * 1024 + (if perm % 2 == 1 then perm else perm + 1)
  }

  lemma MakePteFields(ppn: nat, perm: nat)
    requires perm < 1024
    ensures IsValid(MakePte(ppn, perm)) && Ppn(MakePte(ppn, perm)) == ppn
    ensures Flags(MakePte(ppn, perm)) == if perm % 2 == 1 then perm else perm + 1
    ensures IsLeaf(MakePte(ppn, perm)) <==> IsLeaf(perm)
  {
    var f := if perm % 2 == 1 then perm else perm + 1;
    PteBits(ppn, f);
    assert f / 2 == perm / 2;
  }

  lemma PteBits(ppn: nat, f: nat)
    requires f < 1024
    ensures (ppn * 1024 + f) / 1024 == ppn && (ppn * 1024 + f) % 1024 == f && (ppn * 1024 + f) % 2 == f % 2
    ensures (ppn * 1024 + f) / 2 % 8 == f / 2 % 8
  {
    var x := ppn * 1024 + f;
    Digit(x, ppn, 1024, f);
    Digit(x, ppn * 512 + f / 2, 2, f % 2);
    Digit(x / 2, ppn * 64 + f / 2 / 8, 8, f / 2 % 8);
  }

  // ---------------------------------------------------------------- walking

  function Word(mem: Mem, p: nat, i: nat): nat
    requires i < ENTRIES
  {
    if p in mem then mem[p][i] else 0
  }

  /** The page holding the table of level l and prefix x, if the tree reaches that far. */
  function TableAt(mem: Mem, r: nat, l: nat, x: nat): Option<nat>
    decreases 2 - l
  {
    if l >= 2 then Some(r)
    else match TableAt(mem, r, l + 1, x / ENTRIES)
      case None => None
      case Some(q) =>
        var e := Word(mem, q, x % ENTRIES);
        if IsValid(e) then Some(Ppn(e)) else None
  }

  /** The flat map a page table stands for: the PTE of virtual page v, 0 where there is none. */
  function Pte(mem: Mem, r: nat, v: nat): nat {
    match TableAt(mem, r, 0, v / ENTRIES)
    case None => 0
    case Some(p) => Word(mem, p, v % ENTRIES)
  }

  // ---------------------------------------------------------------- the invariant

  predicate IsRoot(use: map<nat, Use>, r: nat) {
    r in use && use[r] == Table(r, 2, 0)
  }

  /** Bounds of prefixes: level 2 has one table, level 1 up to 512, level 0 up to 512^2. */
  predicate InRange(l: nat, x: nat) {
    if l >= 2 then x == 0 else if l == 1 then x < ENTRIES else x < ENTRIES * ENTRIES
  }

  predicate EntryOk(use: map<nat, Use>, r: nat, l: nat, x: nat, i: nat, e: nat) {
    if !IsValid(e) then e == 0
    else
      if l > 0 then Flags(e) == 1 && Ppn(e) in use && use[Ppn(e)] == Table(r, l - 1, x * ENTRIES + i)
      else IsLeaf(e) && (Ppn(e) in use ==> use[Ppn(e)] == Data(r, x * ENTRIES + i) || use[Ppn(e)] == Other)
  }

  ghost predicate TableOk(mem: Mem, use: map<nat, Use>, p: nat, r: nat, l: nat, x: nat) {
    && l <= 2 && InRange(l, x) && IsRoot(use, r)
    && TableAt(mem, r, l, x) == Some(p)
    && (forall i: nat {:trigger EntryOk(use, r, l, x, i, Word(mem, p, i))} ::
          i < ENTRIES ==> EntryOk(use, r, l, x, i, Word(mem, p, i)))
  }

  /** Data page p is mapped where its use says. */
  predicate DataOk(mem: Mem, use: map<nat, Use>, p: nat, r: nat, v: nat) {
    IsRoot(use, r) && v < MAXV && IsValid(Pte(mem, r, v)) && Ppn(Pte(mem, r, v)) == p
  }

  /** Tables form unshared trees, and every data page is mapped exactly once. */
  ghost predicate TreesOk(mem: Mem, use: map<nat, Use>) {
    && (forall p :: p in use ==> p in mem)
    && (forall p {:trigger TableOk(mem, use, p, use[p].root, use[p].level, use[p].prefix)} ::
          p in use && use[p].Table? ==> TableOk(mem, use, p, use[p].root, use[p].level, use[p].prefix))
    && (forall p {:trigger DataOk(mem, use, p, use[p].root, use[p].vpn)} ::
          p in use && use[p].Data? ==> DataOk(mem, use, p, use[p].root, use[p].vpn))
  }

  lemma {:induction false} TableAtUse(mem: Mem, use: map<nat, Use>, r: nat, l: nat, x: nat)
    requires TreesOk(mem, use) && IsRoot(use, r) && l <= 2 && InRange(l, x)
    ensures TableAt(mem, r, l, x).Some? ==>
              TableAt(mem, r, l, x).value in use && use[TableAt(mem, r, l, x).value] == Table(r, l, x)
    decreases 2 - l
  {
    if l < 2 {
      TableAtUse(mem, use, r, l + 1, x / ENTRIES);
      match TableAt(mem, r, l + 1, x / ENTRIES) {
        case None =>
        case Some(q) =>
          assert TableOk(mem, use, q, r, l + 1, x / ENTRIES);
          assert EntryOk(use, r, l + 1, x / ENTRIES, x % ENTRIES, Word(mem, q, x % ENTRIES));
      }
    }
  }

  /** Pages that are not tables can change freely: no walk ever reads them above the last level. */
  lemma {:induction false} TableAtFrame(mem: Mem, mem': Mem, use: map<nat, Use>, r: nat, l: nat, x: nat)
    requires TreesOk(mem, use) && IsRoot(use, r) && l <= 2 && InRange(l, x)
    requires forall p :: p in use && use[p].Table? && use[p].root == r && use[p].level > 0 ==>
               p in mem' && mem'[p] == mem[p]
    ensures TableAt(mem', r, l, x) == TableAt(mem, r, l, x)
    decreases 2 - l
  {
    if l < 2 {
      TableAtFrame(mem, mem', use, r, l + 1, x / ENTRIES);
      TableAtUse(mem, use, r, l + 1, x / ENTRIES);
    }
  }

  predicate SameTables(mem: Mem, mem': Mem, use: map<nat, Use>) {
    forall p :: p in use && use[p].Table? ==> p in mem && p in mem' && mem'[p] == mem[p]
  }

  predicate SameTree(mem: Mem, mem': Mem, use: map<nat, Use>, r: nat) {
    forall p :: p in use && use[p].Table? && use[p].root == r ==> p in mem && p in mem' && mem'[p] == mem[p]
  }

  lemma PteFrame(mem: Mem, mem': Mem, use: map<nat, Use>, r: nat, v: nat)
    requires TreesOk(mem, use) && IsRoot(use, r) && v < MAXV && SameTree(mem, mem', use, r)
    ensures Pte(mem', r, v) == Pte(mem, r, v)
  {
    TableAtFrame(mem, mem', use, r, 0, v / ENTRIES);
    TableAtUse(mem, use, r, 0, v / ENTRIES);
  }

  /** Contents of other pages, and which of them are free or held, do not matter to the trees. */
  lemma TreesFrame(mem: Mem, mem': Mem, use: map<nat, Use>, use': map<nat, Use>)
    requires TreesOk(mem, use) && SameTables(mem, mem', use)
    requires use'.Keys == use.Keys && forall p :: p in use ==> p in mem'
    requires forall p :: p in use ==> use'[p] == use[p] || (use[p] in {Free, Held} && use'[p] in {Free, Held})
    ensures TreesOk(mem', use')
  {
    forall p | p in use' && use'[p].Table?
      ensures TableOk(mem', use', p, use'[p].root, use'[p].level, use'[p].prefix)
    {
      var r, l, x := use[p].root, use[p].level, use[p].prefix;
      assert TableOk(mem, use, p, r, l, x);
      TableAtFrame(mem, mem', use, r, l, x);
      forall i: nat | i < ENTRIES ensures EntryOk(use', r, l, x, i, Word(mem', p, i)) {
        assert EntryOk(use, r, l, x, i, Word(mem, p, i));
      }
    }
    forall p | p in use' && use'[p].Data? ensures DataOk(mem', use', p, use'[p].root, use'[p].vpn) {
      assert DataOk(mem, use, p, use[p].root, use[p].vpn);
      PteFrame(mem, mem', use, use[p].root, use[p].vpn);
    }
  }

  // ---------------------------------------------------------------- storing a leaf

  /** Storing a PTE at the last level changes the flat map at one point and nowhere else. */
  lemma PteStore(mem: Mem, use: map<nat, Use>, p: nat, i: nat, e: nat, r: nat, v: nat)
    requires TreesOk(mem, use) && p in use && use[p].Table? && use[p].level == 0 && i < ENTRIES
    requires IsRoot(use, r) && v < MAXV
    ensures Pte(mem[p := mem[p][i := e]], r, v) ==
            if r == use[p].root && v == use[p].prefix * ENTRIES + i then e else Pte(mem, r, v)
  {
    var mem' := mem[p := mem[p][i := e]];
    assert TableOk(mem, use, p, use[p].root, 0, use[p].prefix);
    TableAtFrame(mem, mem', use, r, 0, v / ENTRIES);
    TableAtUse(mem, use, r, 0, v / ENTRIES);
  }

  lemma TablesStore(mem: Mem, use: map<nat, Use>, p: nat, i: nat, e: nat, use': map<nat, Use>)
    requires TreesOk(mem, use) && p in use && use[p].Table? && use[p].level == 0 && i < ENTRIES
    requires use'.Keys == use.Keys && forall q :: q in use && use[q].Table? <==> q in use' && use'[q].Table?
    requires forall q :: q in use && use[q].Table? ==> use'[q] == use[q]
    requires EntryOk(use', use[p].root, 0, use[p].prefix, i, e)
    requires forall q :: q in use && use'[q] != use[q] ==>
               use[q] in {Held, Data(use[p].root, use[p].prefix * ENTRIES + i)}
    ensures forall q :: q in use' && use'[q].Table? ==>
              TableOk(mem[p := mem[p][i := e]], use', q, use'[q].root, use'[q].level, use'[q].prefix)
  {
    var mem' := mem[p := mem[p][i := e]];
    assert TableOk(mem, use, p, use[p].root, 0, use[p].prefix);
    forall q | q in use' && use'[q].Table?
      ensures TableOk(mem', use', q, use'[q].root, use'[q].level, use'[q].prefix)
    {
      var r, l, x := use[q].root, use[q].level, use[q].prefix;
      assert TableOk(mem, use, q, r, l, x);
      TableAtFrame(mem, mem', use, r, l, x);
      forall j: nat | j < ENTRIES ensures EntryOk(use', r, l, x, j, Word(mem', q, j)) {
        if q == p && j == i {
        } else {
          assert EntryOk(use, r, l, x, j, Word(mem, q, j));
        }
      }
    }
  }

  /** Data pages other than the one behind the slot do not notice the store. */
  lemma DataStore(mem: Mem, use: map<nat, Use>, p: nat, i: nat, e: nat, use': map<nat, Use>, q: nat)
    requires TreesOk(mem, use) && p in use && use[p].Table? && use[p].level == 0 && i < ENTRIES
    requires q in use && use[q].Data? && use[q] != Data(use[p].root, use[p].prefix * ENTRIES + i)
    requires forall r :: IsRoot(use, r) ==> IsRoot(use', r)
    ensures DataOk(mem[p := mem[p][i := e]], use', q, use[q].root, use[q].vpn)
  {
    assert DataOk(mem, use, q, use[q].root, use[q].vpn);
    PteStore(mem, use, p, i, e, use[q].root, use[q].vpn);
  }

  /** A slot whose entry is invalid has no data page behind it; a valid one has at most its own. */
  lemma SlotOwner(mem: Mem, use: map<nat, Use>, p: nat, i: nat, q: nat)
    requires TreesOk(mem, use) && p in use && use[p].Table? && use[p].level == 0 && i < ENTRIES
    requires q in use && use[q] == Data(use[p].root, use[p].prefix * ENTRIES + i)
    ensures IsValid(mem[p][i]) && Ppn(mem[p][i]) == q
  {
    assert DataOk(mem, use, q, use[q].root, use[q].vpn);
    PteAt(mem, use, p, i);
  }

  /** Mapping a page at a free slot: a held page becomes data of that slot, any other keeps its use. */
  lemma MapLeaf(mem: Mem, use: map<nat, Use>, p: nat, i: nat, n: nat, perm: nat)
    requires TreesOk(mem, use) && p in use && use[p].Table? && use[p].level == 0 && i < ENTRIES
    requires !IsValid(mem[p][i]) && perm < 1024 && IsLeaf(perm)
    requires n in use ==> use[n] in {Held, Other}
    ensures TreesOk(mem[p := mem[p][i := MakePte(n, perm)]], Mapped(use, use[p].root, use[p].prefix * ENTRIES + i, n))
  {
    var r, v, e := use[p].root, use[p].prefix * ENTRIES + i, MakePte(n, perm);
    var mem', use' := mem[p := mem[p][i := e]], Mapped(use, r, v, n);
    MakePteFields(n, perm);
    TablesStore(mem, use, p, i, e, use');
    PteAt(mem, use, p, i);
    PteStore(mem, use, p, i, e, r, v);
    forall q | q in use' && use'[q].Data? ensures DataOk(mem', use', q, use'[q].root, use'[q].vpn) {
      if q in use && use[q].Data? { LeafOthers(mem, use, p, i, e, use', q); }
    }
  }

  /** A store at a free slot leaves the data pages of the other slots where they are. */
  lemma LeafOthers(mem: Mem, use: map<nat, Use>, p: nat, i: nat, e: nat, use': map<nat, Use>, q: nat)
    requires TreesOk(mem, use) && p in use && use[p].Table? && use[p].level == 0 && i < ENTRIES
    requires !IsValid(mem[p][i]) && q in use && use[q].Data?
    requires forall r :: IsRoot(use, r) ==> IsRoot(use', r)
    ensures DataOk(mem[p := mem[p][i := e]], use', q, use[q].root, use[q].vpn)
  {
    if use[q] == Data(use[p].root, use[p].prefix * ENTRIES + i) { SlotOwner(mem, use, p, i, q); }
    DataStore(mem, use, p, i, e, use', q);
  }

  function Mapped(use: map<nat, Use>, r: nat, v: nat, n: nat): map<nat, Use> {
    if n in use && use[n] == Held then use[n := Data(r, v)] else use
  }

  function Unmapped(use: map<nat, Use>, r: nat, v: nat, n: nat): map<nat, Use> {
    if n in use && use[n] == Data(r, v) then use[n := Held] else use
  }

  lemma PteAt(mem: Mem, use: map<nat, Use>, p: nat, i: nat)
    requires TreesOk(mem, use) && p in use && use[p].Table? && use[p].level == 0 && i < ENTRIES
    ensures use[p].prefix * ENTRIES + i < MAXV && IsRoot(use, use[p].root)
    ensures Pte(mem, use[p].root, use[p].prefix * ENTRIES + i) == mem[p][i]
  {
    assert TableOk(mem, use, p, use[p].root, 0, use[p].prefix);
    var x := use[p].prefix;
    assert (x * ENTRIES + i) / ENTRIES == x && (x * ENTRIES + i) % ENTRIES == i;
  }

  lemma InvalidIsZero(mem: Mem, use: map<nat, Use>, r: nat, v: nat)
    requires TreesOk(mem, use) && IsRoot(use, r) && v < MAXV && !IsValid(Pte(mem, r, v))
    ensures Pte(mem, r, v) == 0
  {
    TableAtUse(mem, use, r, 0, v / ENTRIES);
    match TableAt(mem, r, 0, v / ENTRIES) {
      case None =>
      case Some(p) =>
        assert TableOk(mem, use, p, use[p].root, use[p].level, use[p].prefix);
        assert EntryOk(use, r, 0, v / ENTRIES, v % ENTRIES, Word(mem, p, v % ENTRIES));
    }
  }

  /** Clearing a leaf: its data page, if it has one, becomes a held page again. */
  lemma UnmapLeaf(mem: Mem, use: map<nat, Use>, p: nat, i: nat)
    requires TreesOk(mem, use) && p in use && use[p].Table? && use[p].level == 0 && i < ENTRIES
    requires IsValid(mem[p][i])
    ensures TreesOk(mem[p := mem[p][i := 0]], Unmapped(use, use[p].root, use[p].prefix * ENTRIES + i, Ppn(mem[p][i])))
  {
    var r, v, n := use[p].root, use[p].prefix * ENTRIES + i, Ppn(mem[p][i]);
    var mem', use' := mem[p := mem[p][i := 0]], Unmapped(use, r, v, n);
    assert forall q :: q in use ==> use'[q] == use[q] || (use[q] == Data(r, v) && use'[q] == Held);
    TablesStore(mem, use, p, i, 0, use');
    forall q | q in use' && use'[q].Data? ensures DataOk(mem', use', q, use'[q].root, use'[q].vpn) {
      assert use[q] != Data(r, v) by {
        if use[q] == Data(r, v) { SlotOwner(mem, use, p, i, q); }
      }
      DataStore(mem, use, p, i, 0, use', q);
    }
  }

  // ---------------------------------------------------------------- adding a table

  function ZeroPage(): (z: Page)
    ensures forall i :: 0 <= i < ENTRIES ==> z[i] == 0
  {
    seq(ENTRIES, i => 0)
  }

  /** Memory after a zeroed page n was linked as the table below entry i of table p. */
  function Linked(mem: Mem, p: nat, i: nat, n: nat): Mem
    requires p in mem && i < ENTRIES
  {
    mem[n := ZeroPage()][p := mem[p][i := MakePte(n, 0)]]
  }

  lemma {:induction false} TableAtLink(mem: Mem, use: map<nat, Use>, p: nat, i: nat, n: nat, r: nat, l: nat, x: nat)
    requires TreesOk(mem, use) && p in use && use[p].Table? && use[p].level > 0 && i < ENTRIES
    requires !IsValid(mem[p][i]) && n in use && use[n] == Held
    requires IsRoot(use, r) && l <= 2 && InRange(l, x)
    ensures TableAt(Linked(mem, p, i, n), r, l, x) ==
            if r == use[p].root && l == use[p].level - 1 && x == use[p].prefix * ENTRIES + i then Some(n)
            else TableAt(mem, r, l, x)
    decreases 2 - l
  {
    MakePteFields(n, 0);
    assert TableOk(mem, use, p, use[p].root, use[p].level, use[p].prefix);
    if l < 2 {
      TableAtLink(mem, use, p, i, n, r, l + 1, x / ENTRIES);
      TableAtUse(mem, use, r, l + 1, x / ENTRIES);
      var k := use[p].prefix;
      assert (k * ENTRIES + i) / ENTRIES == k && (k * ENTRIES + i) % ENTRIES == i;
      assert x == x / ENTRIES * ENTRIES + x % ENTRIES;
    }
  }

  /** Linking an empty table changes no translation of any page table. */
  lemma PteLink(mem: Mem, use: map<nat, Use>, p: nat, i: nat, n: nat, r: nat, v: nat)
    requires TreesOk(mem, use) && p in use && use[p].Table? && use[p].level > 0 && i < ENTRIES
    requires !IsValid(mem[p][i]) && n in use && use[n] == Held
    requires IsRoot(use, r) && v < MAXV
    ensures Pte(Linked(mem, p, i, n), r, v) == Pte(mem, r, v)
  {
    TableAtLink(mem, use, p, i, n, r, 0, v / ENTRIES);
    TableAtUse(mem, use, r, 0, v / ENTRIES);
    LinkedSlotWasEmpty(mem, use, p, i);
  }

  lemma LinkedSlotWasEmpty(mem: Mem, use: map<nat, Use>, p: nat, i: nat)
    requires TreesOk(mem, use) && p in use && use[p].Table? && use[p].level > 0 && i < ENTRIES
    requires !IsValid(mem[p][i])
    ensures TableAt(mem, use[p].root, use[p].level - 1, use[p].prefix * ENTRIES + i) == None
    ensures InRange(use[p].level - 1, use[p].prefix * ENTRIES + i)
  {
    assert TableOk(mem, use, p, use[p].root, use[p].level, use[p].prefix);
    var k := use[p].prefix;
    assert (k * ENTRIES + i) / ENTRIES == k && (k * ENTRIES + i) % ENTRIES == i;
  }

  lemma LinkedTableOk(mem: Mem, use: map<nat, Use>, p: nat, i: nat, n: nat, q: nat)
    requires TreesOk(mem, use) && p in use && use[p].Table? && use[p].level > 0 && i < ENTRIES
    requires !IsValid(mem[p][i]) && n in use && use[n] == Held
    requires q in use && use[q].Table?
    ensures var use' := use[n := Table(use[p].root, use[p].level - 1, use[p].prefix * ENTRIES + i)];
            TableOk(Linked(mem, p, i, n), use', q, use[q].root, use[q].level, use[q].prefix)
  {
    var mem', use' := Linked(mem, p, i, n), use[n := Table(use[p].root, use[p].level - 1, use[p].prefix * ENTRIES + i)];
    var r, l, x := use[q].root, use[q].level, use[q].prefix;
    assert TableOk(mem, use, q, r, l, x);
    LinkedSlotWasEmpty(mem, use, p, i);
    TableAtLink(mem, use, p, i, n, r, l, x);
    MakePteFields(n, 0);
    forall j: nat | j < ENTRIES ensures EntryOk(use', r, l, x, j, Word(mem', q, j)) {
      assert EntryOk(use, r, l, x, j, Word(mem, q, j));
    }
  }

  lemma LinkTable(mem: Mem, use: map<nat, Use>, p: nat, i: nat, n: nat)
    requires TreesOk(mem, use) && p in use && use[p].Table? && use[p].level > 0 && i < ENTRIES
    requires !IsValid(mem[p][i]) && n in use && use[n] == Held
    ensures TreesOk(Linked(mem, p, i, n), use[n := Table(use[p].root, use[p].level - 1, use[p].prefix * ENTRIES + i)])
  {
    var mem', use' := Linked(mem, p, i, n), use[n := Table(use[p].root, use[p].level - 1, use[p].prefix * ENTRIES + i)];
    assert TableOk(mem, use, p, use[p].root, use[p].level, use[p].prefix);
    LinkedSlotWasEmpty(mem, use, p, i);
    TableAtLink(mem, use, p, i, n, use[p].root, use[p].level - 1, use[p].prefix * ENTRIES + i);
    forall q | q in use' && use'[q].Table?
      ensures TableOk(mem', use', q, use'[q].root, use'[q].level, use'[q].prefix)
    {
      if q != n { LinkedTableOk(mem, use, p, i, n, q); }
    }
    forall q | q in use' && use'[q].Data? ensures DataOk(mem', use', q, use'[q].root, use'[q].vpn) {
      assert DataOk(mem, use, q, use[q].root, use[q].vpn);
      PteLink(mem, use, p, i, n, use[q].root, use[q].vpn);
    }
  }
}
