/** The heap of user/umalloc.c in units of one header.  `ring` lists the nodes of the circular free
    list in address order from base on; `live` gives the blocks handed out; `own` says for every
    unit ever obtained whether it is free or in which live block it lies. */
module HeapModel {

  const BASE: nat := 1             // &base: below everything sbrk() returns; 0 is the null pointer
  const UNIT: nat := 16            // sizeof(Header)

  datatype Owner = Alien | Free | Live(a: nat)

  /** The header words at every unit, as the C program sees them. */
  datatype Mem = Mem(ptr: map<nat, nat>, size: map<nat, nat>)

  function Size(m: Mem, a: nat): nat { if a in m.size then m.size[a] else 0 }
  function Ptr(m: Mem, a: nat): nat { if a in m.ptr then m.ptr[a] else 0 }
  function End(m: Mem, a: nat): nat { a + Size(m, a) }

  /** Alien units were never obtained from sbrk(). */
  function Of(own: map<nat, Owner>, u: nat): Owner { if u in own then own[u] else Alien }

  function Succ(ring: seq<nat>, i: nat): nat
    requires i < |ring|
  {
    if i + 1 < |ring| then ring[i + 1] else ring[0]
  }

  // ---------------------------------------------------------------- the invariant

  /** Node i of the list: it points to the next one, the last one to base.  Base is empty; every
      other free block is nonempty and ends below the next one, without touching it. */
  predicate NodeOk(m: Mem, ring: seq<nat>, i: nat)
    requires i < |ring|
  {
    && Ptr(m, ring[i]) == Succ(ring, i)
    && (if i == 0 then ring[i] == BASE && Size(m, ring[i]) == 0 else Size(m, ring[i]) > 0)
    && (i + 1 < |ring| ==> if i == 0 then BASE < ring[i + 1] else End(m, ring[i]) < ring[i + 1])
  }

  /** One address-sorted cycle of fully coalesced blocks. */
  ghost predicate RingOk(m: Mem, ring: seq<nat>) {
    |ring| > 0 && forall i: nat {:trigger NodeOk(m, ring, i)} :: i < |ring| ==> NodeOk(m, ring, i)
  }

  ghost predicate AllOf(own: map<nat, Owner>, lo: nat, hi: nat, o: Owner) {
    forall u: nat {:trigger Of(own, u)} :: lo <= u < hi ==> Of(own, u) == o
  }

  ghost predicate BlockFree(m: Mem, own: map<nat, Owner>, a: nat) { AllOf(own, a, End(m, a), Free) }

  predicate Within(m: Mem, ring: seq<nat>, u: nat, i: nat) { 1 <= i < |ring| && ring[i] <= u < End(m, ring[i]) }

  ghost predicate InFree(m: Mem, ring: seq<nat>, u: nat) { exists i: nat :: Within(m, ring, u, i) }

  /** The free units are exactly those of the free blocks. */
  ghost predicate FreeUnits(m: Mem, ring: seq<nat>, own: map<nat, Owner>) {
    && (forall i: nat {:trigger BlockFree(m, own, ring[i])} :: 1 <= i < |ring| ==> BlockFree(m, own, ring[i]))
    && (forall u: nat {:trigger InFree(m, ring, u)} :: Of(own, u) == Free ==> InFree(m, ring, u))
  }

  ghost predicate BlockLive(m: Mem, own: map<nat, Owner>, a: nat, n: nat) {
    a > BASE && n > 0 && Size(m, a) == n && AllOf(own, a, a + n, Live(a))
  }

  /** The other units are exactly those of the live blocks, whose headers are intact. */
  ghost predicate LiveUnits(m: Mem, live: map<nat, nat>, own: map<nat, Owner>) {
    && (forall a {:trigger BlockLive(m, own, a, live[a])} :: a in live ==> BlockLive(m, own, a, live[a]))
    && (forall u: nat {:trigger Of(own, u)} :: Of(own, u).Live? ==>
          Of(own, u).a in live && Of(own, u).a <= u < Of(own, u).a + live[Of(own, u).a])
  }

  ghost predicate Inv(m: Mem, ring: seq<nat>, live: map<nat, nat>, own: map<nat, Owner>) {
    && RingOk(m, ring) && FreeUnits(m, ring, own) && LiveUnits(m, live, own)
    && forall u: nat {:trigger Of(own, u)} :: Of(own, u) != Alien ==> u > BASE
  }

  // ---------------------------------------------------------------- order

  lemma {:induction false} Sorted(m: Mem, ring: seq<nat>, i: nat, j: nat)
    requires RingOk(m, ring) && i < j < |ring|
    ensures ring[i] < ring[j]
    decreases j - i
  {
    assert NodeOk(m, ring, i);
    if i + 1 < j { Sorted(m, ring, i + 1, j); }
  }

  /** Node j is the last one below address b. */
  ghost predicate Before(ring: seq<nat>, j: nat, b: nat) {
    j < |ring| && ring[j] < b && (j + 1 < |ring| ==> b < ring[j + 1])
  }

  lemma {:induction false} FindBefore(ring: seq<nat>, b: nat, n: nat) returns (j: nat)
    requires 0 < n <= |ring| && ring[0] < b && b !in ring
    requires n < |ring| ==> b < ring[n]
    ensures Before(ring, j, b)
  {
    if ring[n - 1] < b { j := n - 1; } else { j := FindBefore(ring, b, n - 1); }
  }

  lemma BeforeUnique(m: Mem, ring: seq<nat>, i: nat, j: nat, b: nat)
    requires RingOk(m, ring) && Before(ring, i, b) && Before(ring, j, b)
    ensures i == j
  {
    if i + 1 < j { Sorted(m, ring, i + 1, j); }
    if j + 1 < i { Sorted(m, ring, j + 1, i); }
  }

  lemma FreeNode(m: Mem, ring: seq<nat>, live: map<nat, nat>, own: map<nat, Owner>, i: nat, u: nat)
    requires Inv(m, ring, live, own) && 1 <= i < |ring| && ring[i] <= u < End(m, ring[i])
    ensures Of(own, u) == Free
  {
    assert BlockFree(m, own, ring[i]);
  }

  lemma LiveHeader(m: Mem, ring: seq<nat>, live: map<nat, nat>, own: map<nat, Owner>, b: nat)
    requires Inv(m, ring, live, own) && b in live
    ensures b > BASE && Size(m, b) == live[b] > 0 && Of(own, b) == Live(b)
  {
    assert BlockLive(m, own, b, live[b]);
  }

  lemma LiveBlock(m: Mem, ring: seq<nat>, live: map<nat, nat>, own: map<nat, Owner>, b: nat, u: nat)
    requires Inv(m, ring, live, own) && b in live && b <= u < b + live[b]
    ensures Of(own, u) == Live(b)
  {
    assert BlockLive(m, own, b, live[b]);
  }

  /** A live block lies between the end of the node before it and the next node. */
  lemma Between(m: Mem, ring: seq<nat>, live: map<nat, nat>, own: map<nat, Owner>, j: nat, b: nat)
    requires Inv(m, ring, live, own) && b in live && Before(ring, j, b)
    ensures End(m, ring[j]) <= b && (j + 1 < |ring| ==> b + live[b] <= ring[j + 1])
  {
    LiveHeader(m, ring, live, own, b);
    assert NodeOk(m, ring, j);
    if j > 0 && End(m, ring[j]) > b { FreeNode(m, ring, live, own, j, b); }
    if j + 1 < |ring| {
      assert NodeOk(m, ring, j + 1);
      FreeNode(m, ring, live, own, j + 1, ring[j + 1]);
      if ring[j + 1] < b + live[b] { LiveBlock(m, ring, live, own, b, ring[j + 1]); }
    }
  }

  lemma NotInRing(m: Mem, ring: seq<nat>, live: map<nat, nat>, own: map<nat, Owner>, b: nat)
    requires Inv(m, ring, live, own) && b in live
    ensures b !in ring
  {
    LiveHeader(m, ring, live, own, b);
    forall i: nat | i < |ring| ensures ring[i] != b {
      assert NodeOk(m, ring, i);
      if i > 0 { FreeNode(m, ring, live, own, i, ring[i]); }
    }
  }
}
