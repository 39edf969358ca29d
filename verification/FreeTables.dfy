/** Tearing a page table down: freewalk() and uvmfree() give back exactly the pages of one tree. */
module FreeTables {
  import opened PageTables
  import opened VirtualMemory

  function Up(x: nat, d: nat): nat {
    if d == 0 then x else Up(x / ENTRIES, d - 1)
  }

  /** A table page in the subtree of the table with root r, level l and prefix x. */
  predicate Under(u: Use, r: nat, l: nat, x: nat) {
    u.Table? && u.root == r && u.level <= l && Up(u.prefix, l - u.level) == x
  }

  /** A table page below one of the entries up to i of that table. */
  predicate UnderEntries(u: Use, r: nat, l: nat, x: nat, i: nat) {
    && u.Table? && u.root == r && u.level < l
    && Up(u.prefix, l - u.level) == x && Up(u.prefix, l - 1 - u.level) % ENTRIES < i
  }

  lemma {:induction false} UpStep(x: nat, d: nat)
    ensures Up(x, d + 1) == Up(x, d) / ENTRIES
  {
    if d > 0 { UpStep(x / ENTRIES, d - 1); }
  }

  lemma UnderChild(u: Use, r: nat, l: nat, x: nat, i: nat)
    requires 0 < l && i < ENTRIES
    ensures Under(u, r, l - 1, x * ENTRIES + i) <==> UnderEntries(u, r, l, x, i + 1) && !UnderEntries(u, r, l, x, i)
  {
    if u.Table? && u.level < l {
      UpStep(u.prefix, l - 1 - u.level);
      var y := Up(u.prefix, l - 1 - u.level);
      assert (x * ENTRIES + i) / ENTRIES == x && (x * ENTRIES + i) % ENTRIES == i;
      assert y == y / ENTRIES * ENTRIES + y % ENTRIES;
    }
  }

  lemma {:induction false} TableAtUp(m: Mem, r: nat, l: nat, x: nat, d: nat)
    requires TableAt(m, r, l, x).Some?
    ensures TableAt(m, r, l + d, Up(x, d)).Some?
    decreases d
  {
    if d > 0 && l < 2 {
      TableAtUp(m, r, l + 1, x / ENTRIES, d - 1);
    }
  }

  /** Below an entry that is not valid there is no table. */
  lemma NoTableBelow(m: Mem, u: map<nat, Use>, p: nat, i: nat, q: nat)
    requires TreesOk(m, u) && p in u && u[p].Table? && u[p].level > 0 && i < ENTRIES && !IsValid(m[p][i])
    requires q in u
    ensures !Under(u[q], u[p].root, u[p].level - 1, u[p].prefix * ENTRIES + i)
  {
    var r, l, x := u[p].root, u[p].level, u[p].prefix;
    if Under(u[q], r, l - 1, x * ENTRIES + i) {
      assert TableOk(m, u, q, u[q].root, u[q].level, u[q].prefix);
      TableAtUp(m, r, u[q].level, u[q].prefix, l - 1 - u[q].level);
      LinkedSlotWasEmpty(m, u, p, i);
    }
  }

  /** Taking away one whole tree leaves the others in order. */
  lemma TreesWithout(m0: Mem, u0: map<nat, Use>, m1: Mem, u1: map<nat, Use>, r: nat)
    requires TreesOk(m0, u0) && u1.Keys == u0.Keys && m1.Keys == m0.Keys
    requires forall q :: q in u0 ==> u1[q] == if u0[q].Table? && u0[q].root == r then Free else u0[q]
    requires forall q :: q in u0 && !(u0[q].Table? && u0[q].root == r) ==> m1[q] == m0[q]
    requires forall q :: q in u0 && u0[q].Data? ==> u0[q].root != r
    ensures TreesOk(m1, u1)
    ensures forall r', v: nat :: IsRoot(u1, r') && v < MAXV ==> Pte(m1, r', v) == Pte(m0, r', v)
  {
    forall q | q in u1 && u1[q].Table? ensures TableOk(m1, u1, q, u1[q].root, u1[q].level, u1[q].prefix) {
      var r', l, x := u0[q].root, u0[q].level, u0[q].prefix;
      assert TableOk(m0, u0, q, r', l, x);
      TableAtFrame(m0, m1, u0, r', l, x);
      forall i: nat | i < ENTRIES ensures EntryOk(u1, r', l, x, i, Word(m1, q, i)) {
        assert EntryOk(u0, r', l, x, i, Word(m0, q, i));
      }
    }
    forall r', v: nat | IsRoot(u1, r') && v < MAXV ensures Pte(m1, r', v) == Pte(m0, r', v) {
      PteFrame(m0, m1, u0, r', v);
    }
    forall q | q in u1 && u1[q].Data? ensures DataOk(m1, u1, q, u1[q].root, u1[q].vpn) {
      assert DataOk(m0, u0, q, u0[q].root, u0[q].vpn);
      PteFrame(m0, m1, u0, u0[q].root, u0[q].vpn);
    }
  }

  /** The pages of the subtree are still as they were in the snapshot m0, u0. */
  ghost predicate Intact(m0: Mem, u0: map<nat, Use>, m: Mem, u: map<nat, Use>, r: nat, l: nat, x: nat) {
    && u.Keys == u0.Keys && m.Keys == m0.Keys
    && forall q :: q in u0 && Under(u0[q], r, l, x) ==> q in m0 && m[q] == m0[q] && u[q] == u0[q]
  }

  /** From m1, u1 to m, u exactly the tables below the entries up to i were freed;
      table p may have lost those entries. */
  ghost predicate FreedBelow(u0: map<nat, Use>, m1: Mem, u1: map<nat, Use>, m: Mem, u: map<nat, Use>, p: nat, r: nat,
                             l: nat, x: nat, i: nat) {
    && u.Keys == u1.Keys == u0.Keys && m.Keys == m1.Keys && p in m
    && (forall q :: q in u0 ==> u[q] == if UnderEntries(u0[q], r, l, x, i) then Free else u1[q])
    && (forall q :: q in u0 && q in m && q != p && !UnderEntries(u0[q], r, l, x, i) ==> m[q] == m1[q])
    && (forall j :: i <= j < ENTRIES ==> m[p][j] == m1[p][j])
  }

  ghost predicate Freed(u0: map<nat, Use>, m1: Mem, u1: map<nat, Use>, m: Mem, u: map<nat, Use>, r: nat, l: nat,
                        x: nat) {
    && u.Keys == u1.Keys == u0.Keys && m.Keys == m1.Keys
    && (forall q :: q in u0 ==> u[q] == if Under(u0[q], r, l, x) then Free else u1[q])
    && (forall q :: q in u0 && q in m && !Under(u0[q], r, l, x) ==> m[q] == m1[q])
  }

  ghost predicate NoLeaves(m0: Mem, u0: map<nat, Use>, r: nat) {
    forall q, i :: q in u0 && u0[q].Table? && u0[q].root == r && u0[q].level == 0 && q in m0 && 0 <= i < ENTRIES ==>
      !IsValid(m0[q][i])
  }

  lemma ChildIntact(m0: Mem, u0: map<nat, Use>, m1: Mem, u1: map<nat, Use>, m: Mem, u: map<nat, Use>, p: nat, r: nat,
                    l: nat, x: nat, i: nat)
    requires Intact(m0, u0, m1, u1, r, l, x) && p in u0 && u0[p] == Table(r, l, x) && l > 0 && i < ENTRIES
    requires FreedBelow(u0, m1, u1, m, u, p, r, l, x, i) && forall q :: q in u0 ==> q in m0
    ensures Intact(m0, u0, m, u, r, l - 1, x * ENTRIES + i)
  {
    forall q | q in u0 && Under(u0[q], r, l - 1, x * ENTRIES + i) ensures m[q] == m0[q] && u[q] == u0[q] {
      UnderChild(u0[q], r, l, x, i);
      UpStep(u0[q].prefix, l - 1 - u0[q].level);
      assert Under(u0[q], r, l, x);
    }
  }

  lemma ChildFreed(u0: map<nat, Use>, m1: Mem, u1: map<nat, Use>, m: Mem, u: map<nat, Use>, m': Mem, u': map<nat, Use>,
                   p: nat, r: nat, l: nat, x: nat, i: nat)
    requires FreedBelow(u0, m1, u1, m, u, p, r, l, x, i) && l > 0 && i < ENTRIES && p in u0 && u0[p] == Table(r, l, x)
    requires Freed(u0, m, u, m', u', r, l - 1, x * ENTRIES + i)
    ensures FreedBelow(u0, m1, u1, m'[p := m'[p][i := 0]], u', p, r, l, x, i + 1)
  {
    forall q | q in u0
      ensures Under(u0[q], r, l - 1, x * ENTRIES + i) <==>
                UnderEntries(u0[q], r, l, x, i + 1) && !UnderEntries(u0[q], r, l, x, i)
    {
      UnderChild(u0[q], r, l, x, i);
    }
  }

  lemma ChildAbsent(m0: Mem, u0: map<nat, Use>, m1: Mem, u1: map<nat, Use>, m: Mem, u: map<nat, Use>, p: nat, r: nat,
                    l: nat, x: nat, i: nat)
    requires TreesOk(m0, u0) && FreedBelow(u0, m1, u1, m, u, p, r, l, x, i) && i < ENTRIES && p in u0 &&
             u0[p] == Table(r, l, x)
    requires !IsValid(m0[p][i])
    ensures FreedBelow(u0, m1, u1, m, u, p, r, l, x, i + 1)
  {
    if l > 0 {
      forall q | q in u0 ensures UnderEntries(u0[q], r, l, x, i + 1) <==> UnderEntries(u0[q], r, l, x, i) {
        UnderChild(u0[q], r, l, x, i);
        NoTableBelow(m0, u0, p, i, q);
      }
    }
  }

  /** All entries handled, the table page itself is the last one of its subtree. */
  lemma SubtreeFreed(m0: Mem, u0: map<nat, Use>, m1: Mem, u1: map<nat, Use>, m: Mem, u: map<nat, Use>, m': Mem, p: nat,
                     r: nat, l: nat, x: nat)
    requires TreesOk(m0, u0) && FreedBelow(u0, m1, u1, m, u, p, r, l, x, ENTRIES) && p in u0 && u0[p] == Table(r, l, x)
    requires m'.Keys == m.Keys && forall q :: q in m && q != p ==> m'[q] == m[q]
    ensures Freed(u0, m1, u1, m', u[p := Free], r, l, x)
  {
    assert TableOk(m0, u0, p, u0[p].root, u0[p].level, u0[p].prefix);
    forall q | q in u0 ensures Under(u0[q], r, l, x) <==> q == p || UnderEntries(u0[q], r, l, x, ENTRIES) {
      if u0[q] == Table(r, l, x) {
        assert TableOk(m0, u0, q, u0[q].root, u0[q].level, u0[q].prefix);
      }
    }
  }

  /** The state of freewalk() on table p before entry i. */
  ghost predicate Walked(u0: map<nat, Use>, m1: Mem, u1: map<nat, Use>, m: Mem, u: map<nat, Use>, free: seq<nat>,
                         head: nat,
                         p: nat, r: nat, l: nat, x: nat, i: nat) {
    PoolOk(m, u, free, head) && FreedBelow(u0, m1, u1, m, u, p, r, l, x, i)
  }

  lemma ChildDone(u0: map<nat, Use>, m1: Mem, u1: map<nat, Use>, m: Mem, u: map<nat, Use>, m': Mem, u': map<nat, Use>,
                  free: seq<nat>, head: nat, p: nat, r: nat, l: nat, x: nat, i: nat)
    requires FreedBelow(u0, m1, u1, m, u, p, r, l, x, i) && l > 0 && i < ENTRIES && p in u0 && u0[p] == Table(r, l, x)
    requires Freed(u0, m, u, m', u', r, l - 1, x * ENTRIES + i) && PoolOk(m', u', free, head) && u1[p] == u0[p]
    ensures Walked(u0, m1, u1, m'[p := m'[p][i := 0]], u', free, head, p, r, l, x, i + 1)
  {
    ChildFreed(u0, m1, u1, m, u, m', u', p, r, l, x, i);
    assert u'[p] == u0[p];
    PoolFrame(m', m'[p := m'[p][i := 0]], u', u', free, head);
  }

  /** One turn of the loop of freewalk(). */
  method FreeEntry(k: PageMemory, p: nat, i: nat, ghost m0: Mem, ghost u0: map<nat, Use>, ghost m1: Mem,
                   ghost u1: map<nat, Use>,
                   ghost r: nat, ghost l: nat, ghost x: nat)
    requires TreesOk(m0, u0) && p in u0 && u0[p] == Table(r, l, x) && NoLeaves(m0, u0, r)
    requires Intact(m0, u0, m1, u1, r, l, x) && m1[p] == m0[p] && u1[p] == u0[p]
    requires i < ENTRIES && Walked(u0, m1, u1, k.mem, k.use, k.free, k.freelist, p, r, l, x, i)
    modifies k
    ensures Walked(u0, m1, u1, k.mem, k.use, k.free, k.freelist, p, r, l, x, i + 1)
    decreases l, 1
  {
    var pte := k.mem[p][i];
    if IsValid(pte) && !IsLeaf(pte) {
      NonLeafChild(m0, u0, p, i);
      ChildIntact(m0, u0, m1, u1, k.mem, k.use, p, r, l, x, i);
      FreeChild(k, p, i, Ppn(pte), m0, u0, m1, u1, r, l, x);
    } else {
      LeafChild(m0, u0, p, i);          // so the "freewalk: leaf" panic is unreachable
      ChildAbsent(m0, u0, m1, u1, k.mem, k.use, p, r, l, x, i);
    }
  }

  /** The recursive call of freewalk() and the clearing of the entry that follows it. */
  method FreeChild(k: PageMemory, p: nat, i: nat, child: nat, ghost m0: Mem, ghost u0: map<nat, Use>, ghost m1: Mem,
                   ghost u1: map<nat, Use>,
                   ghost r: nat, ghost l: nat, ghost x: nat)
    requires TreesOk(m0, u0) && p in u0 && u0[p] == Table(r, l, x) && NoLeaves(m0, u0, r) && p in u1 && u1[p] == u0[p]
    requires l > 0 && i < ENTRIES && child in u0 && u0[child] == Table(r, l - 1, x * ENTRIES + i)
    requires Intact(m0, u0, k.mem, k.use, r, l - 1, x * ENTRIES + i)
    requires Walked(u0, m1, u1, k.mem, k.use, k.free, k.freelist, p, r, l, x, i)
    modifies k
    ensures Walked(u0, m1, u1, k.mem, k.use, k.free, k.freelist, p, r, l, x, i + 1)
    decreases l, 0
  {
    ghost var m, u := k.mem, k.use;
    FreeWalk(k, child, m0, u0, r, l - 1, x * ENTRIES + i);
    ChildDone(u0, m1, u1, m, u, k.mem, k.use, k.free, k.freelist, p, r, l, x, i);
    k.mem := k.mem[p := k.mem[p][i := 0]];
  }

  /** freewalk(): every table page of the subtree goes back to the free list, nothing else. */
  method FreeWalk(k: PageMemory, p: nat, ghost m0: Mem, ghost u0: map<nat, Use>, ghost r: nat, ghost l: nat,
                  ghost x: nat)
    requires PoolOk(k.mem, k.use, k.free, k.freelist)
    requires TreesOk(m0, u0) && p in u0 && u0[p] == Table(r, l, x) && NoLeaves(m0, u0, r)
    requires Intact(m0, u0, k.mem, k.use, r, l, x)
    modifies k
    ensures PoolOk(k.mem, k.use, k.free, k.freelist)
    ensures Freed(u0, old(k.mem), old(k.use), k.mem, k.use, r, l, x)
    decreases l, 2
  {
    assert Under(u0[p], r, l, x);
    ghost var m1, u1 := k.mem, k.use;
    var i := 0;
    while i < ENTRIES
      invariant 0 <= i <= ENTRIES
      invariant Walked(u0, m1, u1, k.mem, k.use, k.free, k.freelist, p, r, l, x, i)
    {
      FreeEntry(k, p, i, m0, u0, m1, u1, r, l, x);
      i := i + 1;
    }
    ghost var m, u := k.mem, k.use;
    k.Kfree(p);
    SubtreeFreed(m0, u0, m1, u1, m, u, k.mem, p, r, l, x);
  }

  lemma {:induction false} UpZero(x: nat, l: nat)
    requires InRange(l, x) && l <= 2
    ensures Up(x, 2 - l) == 0
    decreases 2 - l
  {
    if l < 2 { UpZero(x / ENTRIES, l + 1); }
  }

  /** Every table of root r lies under the root, and with no translation left no table has a leaf. */
  lemma WholeTree(m: Mem, u: map<nat, Use>, r: nat)
    requires TreesOk(m, u) && IsRoot(u, r)
    requires forall v: nat :: v < MAXV ==> !IsValid(Pte(m, r, v))
    ensures NoLeaves(m, u, r)
    ensures forall q :: q in u ==> (Under(u[q], r, 2, 0) <==> u[q].Table? && u[q].root == r)
    ensures forall q :: q in u && u[q].Data? ==> u[q].root != r
  {
    forall q, i: nat | q in u && u[q].Table? && u[q].root == r && u[q].level == 0 && q in m && i < ENTRIES
      ensures !IsValid(m[q][i]) {
      PteAt(m, u, q, i);
    }
    forall q | q in u && u[q].Table? && u[q].root == r ensures Under(u[q], r, 2, 0) {
      assert TableOk(m, u, q, u[q].root, u[q].level, u[q].prefix);
      UpZero(u[q].prefix, u[q].level);
    }
    forall q | q in u && u[q].Data? ensures u[q].root != r {
      OneOwner(m, u, u[q].root, u[q].vpn, q);
      assert DataOk(m, u, q, u[q].root, u[q].vpn);
    }
  }

  lemma OwnedPages(m: Mem, u: map<nat, Use>, r: nat, n: nat)
    requires forall v: nat :: v < n ==> Owned(m, u, r, v)
    ensures forall v: nat :: v < n ==>
              IsValid(Pte(m, r, v)) && Ppn(Pte(m, r, v)) in u && u[Ppn(Pte(m, r, v))] == Data(r, v)
  {
    forall v: nat | v < n
      ensures IsValid(Pte(m, r, v)) && Ppn(Pte(m, r, v)) in u && u[Ppn(Pte(m, r, v))] == Data(r, v)
    {
      assert Owned(m, u, r, v);
    }
  }

  /** uvmfree(): each table page and each user page of r returns to the free list, nothing else
      changes hands, and no other page table notices. */
  method UvmFree(k: PageMemory, r: nat, sz: nat)
    requires k.Valid() && IsRoot(k.use, r) && Pages(sz) <= MAXVPN
    requires forall v: nat :: v < Pages(sz) ==> Owned(k.mem, k.use, r, v)
    requires forall v: nat :: Pages(sz) <= v < MAXV ==> !IsValid(Pte(k.mem, r, v))
    modifies k
    ensures k.Valid() && k.use.Keys == old(k.use).Keys
    ensures forall q :: q in k.use ==>
              k.use[q] == if (old(k.use)[q].Table? || old(k.use)[q].Data?) && old(k.use)[q].root == r then Free
              else old(k.use)[q]
    ensures forall r', v: nat :: IsRoot(old(k.use), r') && r' != r && v < MAXV ==>
              Pte(k.mem, r', v) == Pte(old(k.mem), r', v)
  {
    if sz > 0 {
      OwnedPages(k.mem, k.use, r, Pages(sz));
      k.UvmUnmap(r, 0, Pages(sz), true);
    }
    ghost var m0, u0 := k.mem, k.use;
    forall v: nat | v < MAXV ensures !IsValid(Pte(m0, r, v)) {}
    WholeTree(m0, u0, r);
    FreeWalk(k, r, m0, u0, r, 2, 0);
    TreesWithout(m0, u0, k.mem, k.use, r);
  }

  lemma NonLeafChild(m0: Mem, u0: map<nat, Use>, p: nat, i: nat)
    requires TreesOk(m0, u0) && p in u0 && u0[p].Table? && i < ENTRIES && IsValid(m0[p][i]) && !IsLeaf(m0[p][i])
    ensures u0[p].level > 0 && Ppn(m0[p][i]) in u0
    ensures u0[Ppn(m0[p][i])] == Table(u0[p].root, u0[p].level - 1, u0[p].prefix * ENTRIES + i)
  {
    assert TableOk(m0, u0, p, u0[p].root, u0[p].level, u0[p].prefix);
    assert EntryOk(u0, u0[p].root, u0[p].level, u0[p].prefix, i, Word(m0, p, i));
  }

  lemma LeafChild(m0: Mem, u0: map<nat, Use>, p: nat, i: nat)
    requires TreesOk(m0, u0) && p in u0 && u0[p].Table? && i < ENTRIES && NoLeaves(m0, u0, u0[p].root)
    requires !(IsValid(m0[p][i]) && !IsLeaf(m0[p][i]))
    ensures !IsValid(m0[p][i])
  {
    assert TableOk(m0, u0, p, u0[p].root, u0[p].level, u0[p].prefix);
    assert EntryOk(u0, u0[p].root, u0[p].level, u0[p].prefix, i, Word(m0, p, i));
  }
}
