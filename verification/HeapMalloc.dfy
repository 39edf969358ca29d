/** malloc(): taking a whole free block, taking the tail of one, and growing the heap. */
module HeapMalloc {
  import opened HeapModel
  import opened HeapFree

  ghost function TakeOwn(own: map<nat, Owner>, a: nat, n: nat): map<nat, Owner> {
    map u | u in own :: if a <= u < a + n && own[u] != Alien then Live(a) else own[u]
  }

  lemma TakenUnit(own: map<nat, Owner>, a: nat, n: nat, u: nat)
    ensures Of(TakeOwn(own, a, n), u) == if a <= u < a + n && Of(own, u) != Alien then Live(a) else Of(own, u)
  {
  }

  // ---------------------------------------------------------------- a block that fits exactly

  function Unlink(m: Mem, ring: seq<nat>, i: nat): Mem
    requires 1 <= i < |ring|
  {
    SetPtr(m, ring[i - 1], Ptr(m, ring[i]))
  }

  function Removed(ring: seq<nat>, i: nat): seq<nat>
    requires i < |ring|
  {
    ring[..i] + ring[i + 1..]
  }

  lemma ExactRing(m: Mem, ring: seq<nat>, i: nat)
    requires RingOk(m, ring) && 1 <= i < |ring|
    ensures RingOk(Unlink(m, ring, i), Removed(ring, i))
  {
    var m', r := Unlink(m, ring, i), Removed(ring, i);
    assert NodeOk(m, ring, i) && NodeOk(m, ring, i - 1);
    forall k: nat | k < |r| ensures NodeOk(m', r, k) {
      if k < i - 1 {
        Apart(m, ring, k, i - 1);
        assert NodeOk(m, ring, k);
        NodeShift(m, ring, k, m', r, k);
      } else if k >= i {
        Apart(m, ring, k + 1, i - 1);
        assert NodeOk(m, ring, k + 1);
        NodeShift(m, ring, k + 1, m', r, k);
      }
    }
  }

  /** The units from a on leave the free blocks; block i, if it stays, ends at a. */
  ghost predicate Takes(m: Mem, ring: seq<nat>, i: nat, a: nat, n: nat) {
    1 <= i < |ring| && n > 0 && ring[i] <= a && a + n == End(m, ring[i])
  }

  /** No other free block reaches into those units. */
  lemma OtherBlocks(m: Mem, ring: seq<nat>, i: nat, a: nat, n: nat, k: nat)
    requires RingOk(m, ring) && Takes(m, ring, i, a, n) && 1 <= k < |ring| && k != i
    ensures End(m, ring[k]) <= a || a + n <= ring[k]
  {
    assert NodeOk(m, ring, i) && NodeOk(m, ring, k);
    if k < i {
      if k + 1 < i { Sorted(m, ring, k + 1, i); }
    } else {
      if i + 1 < k { Sorted(m, ring, i + 1, k); }
    }
  }

  lemma TakenLive(m: Mem, ring: seq<nat>, live: map<nat, nat>, own: map<nat, Owner>, i: nat, a: nat, n: nat, m': Mem)
    requires Inv(m, ring, live, own) && Takes(m, ring, i, a, n) && Size(m', a) == n
    requires forall b :: b in live ==> Size(m', b) == Size(m, b)
    ensures LiveUnits(m', live[a := n], TakeOwn(own, a, n)) && a !in live && a > BASE
  {
    var own', live' := TakeOwn(own, a, n), live[a := n];
    FreeNode(m, ring, live, own, i, a);
    if a in live { LiveHeader(m, ring, live, own, a); }
    forall u: nat | a <= u < a + n ensures Of(own', u) == Live(a) {
      FreeNode(m, ring, live, own, i, u);
      TakenUnit(own, a, n, u);
    }
    forall b | b in live' ensures BlockLive(m', own', b, live'[b]) {
      if b != a {
        assert BlockLive(m, own, b, live[b]);
        forall u: nat | b <= u < b + live[b] ensures Of(own', u) == Live(b) {
          TakenUnit(own, a, n, u);
          if a <= u < a + n { FreeNode(m, ring, live, own, i, u); }
        }
      }
    }
    forall u: nat | Of(own', u).Live?
      ensures Of(own', u).a in live' && Of(own', u).a <= u < Of(own', u).a + live'[Of(own', u).a]
    {
      TakenUnit(own, a, n, u);
    }
  }

  lemma KeepsFree(m: Mem, ring: seq<nat>, live: map<nat, nat>, own: map<nat, Owner>, i: nat, a: nat, n: nat, k: nat)
    requires Inv(m, ring, live, own) && Takes(m, ring, i, a, n) && 1 <= k < |ring| && k != i
    ensures AllOf(TakeOwn(own, a, n), ring[k], End(m, ring[k]), Free)
  {
    OtherBlocks(m, ring, i, a, n, k);
    forall u: nat | ring[k] <= u < End(m, ring[k]) ensures Of(TakeOwn(own, a, n), u) == Free {
      FreeNode(m, ring, live, own, k, u);
      TakenUnit(own, a, n, u);
    }
  }

  lemma ExactOk(m: Mem, ring: seq<nat>, live: map<nat, nat>, own: map<nat, Owner>, i: nat)
    requires Inv(m, ring, live, own) && 1 <= i < |ring|
    ensures var a, n := ring[i], Size(m, ring[i]);
            a !in live && a > BASE && Inv(Unlink(m, ring, i), Removed(ring, i), live[a := n], TakeOwn(own, a, n))
  {
    var a, n := ring[i], Size(m, ring[i]);
    var m', r, own' := Unlink(m, ring, i), Removed(ring, i), TakeOwn(own, a, n);
    assert NodeOk(m, ring, i);
    ExactRing(m, ring, i);
    TakenLive(m, ring, live, own, i, a, n, m');
    forall k: nat | 1 <= k < |r| ensures BlockFree(m', own', r[k]) {
      KeepsFree(m, ring, live, own, i, a, n, if k < i then k else k + 1);
    }
    forall u: nat | Of(own', u) == Free ensures InFree(m', r, u) {
      TakenUnit(own, a, n, u);
      assert InFree(m, ring, u);
      var k: nat :| Within(m, ring, u, k);
      assert Within(m', r, u, if k < i then k else k - 1);
    }
    forall u: nat | Of(own', u) != Alien ensures u > BASE { TakenUnit(own, a, n, u); }
  }

  // ---------------------------------------------------------------- the tail of a bigger block

  /** p->s.size -= nunits; p += p->s.size; p->s.size = nunits */
  function Cut(m: Mem, p: nat, n: nat): Mem
    requires n < Size(m, p)
  {
    SetSize(SetSize(m, p, Size(m, p) - n), p + Size(m, p) - n, n)
  }

  /** No list node lies inside a free block. */
  lemma NoNodeInside(m: Mem, ring: seq<nat>, i: nat, a: nat, k: nat)
    requires RingOk(m, ring) && 1 <= i < |ring| && ring[i] < a < End(m, ring[i]) && k < |ring|
    ensures ring[k] != a
  {
    assert NodeOk(m, ring, i);
    if k < i { Sorted(m, ring, k, i); }
    else if k > i && i + 1 < k { Sorted(m, ring, i + 1, k); }
  }

  lemma TailRing(m: Mem, ring: seq<nat>, i: nat, n: nat)
    requires RingOk(m, ring) && 1 <= i < |ring| && 0 < n < Size(m, ring[i])
    ensures RingOk(Cut(m, ring[i], n), ring)
  {
    var m' := Cut(m, ring[i], n);
    forall k: nat | k < |ring| ensures NodeOk(m', ring, k) {
      assert NodeOk(m, ring, k);
      NoNodeInside(m, ring, i, End(m, ring[i]) - n, k);
      if k != i { Apart(m, ring, k, i); }
    }
  }

  lemma TailOk(m: Mem, ring: seq<nat>, live: map<nat, nat>, own: map<nat, Owner>, i: nat, n: nat)
    requires Inv(m, ring, live, own) && 1 <= i < |ring| && 0 < n < Size(m, ring[i])
    ensures var a := End(m, ring[i]) - n;
            a !in live && a > BASE && Inv(Cut(m, ring[i], n), ring, live[a := n], TakeOwn(own, a, n))
  {
    var a := End(m, ring[i]) - n;
    var m', own' := Cut(m, ring[i], n), TakeOwn(own, a, n);
    TailRing(m, ring, i, n);
    forall b | b in live ensures Size(m', b) == Size(m, b) {
      NotInRing(m, ring, live, own, b);
      LiveHeader(m, ring, live, own, b);
      FreeNode(m, ring, live, own, i, a);
    }
    TakenLive(m, ring, live, own, i, a, n, m');
    forall k: nat | 1 <= k < |ring| ensures BlockFree(m', own', ring[k]) {
      NoNodeInside(m, ring, i, a, k);
      if k != i {
        Apart(m, ring, k, i);
        KeepsFree(m, ring, live, own, i, a, n, k);
      } else {
        forall u: nat | ring[i] <= u < a ensures Of(own', u) == Free {
          FreeNode(m, ring, live, own, i, u);
          TakenUnit(own, a, n, u);
        }
      }
    }
    forall u: nat | Of(own', u) == Free ensures InFree(m', ring, u) {
      TakenUnit(own, a, n, u);
      assert InFree(m, ring, u);
      var k: nat :| Within(m, ring, u, k);
      NoNodeInside(m, ring, i, a, k);
      if k != i { Apart(m, ring, k, i); }
      assert Within(m', ring, u, k);
    }
    forall u: nat | Of(own', u) != Alien ensures u > BASE { TakenUnit(own, a, n, u); }
  }

  // ---------------------------------------------------------------- memory from sbrk()

  ghost function GrowOwn(own: map<nat, Owner>, a: nat, n: nat): map<nat, Owner> {
    if n == 0 then own else GrowOwn(own, a, n - 1)[a + n - 1 := Live(a)]
  }

  lemma {:induction false} GrownUnit(own: map<nat, Owner>, a: nat, n: nat, u: nat)
    ensures Of(GrowOwn(own, a, n), u) == if a <= u < a + n then Live(a) else Of(own, u)
  {
    if n > 0 { GrownUnit(own, a, n - 1, u); }
  }

  /** Units that were never obtained before. */
  ghost predicate Fresh(own: map<nat, Owner>, a: nat, n: nat) { a > BASE && AllOf(own, a, a + n, Alien) }

  lemma GrowLive(m: Mem, ring: seq<nat>, live: map<nat, nat>, own: map<nat, Owner>, a: nat, n: nat)
    requires Inv(m, ring, live, own) && n > 0 && Fresh(own, a, n)
    ensures LiveUnits(SetSize(m, a, n), live[a := n], GrowOwn(own, a, n)) && a !in live
  {
    var m', own', live' := SetSize(m, a, n), GrowOwn(own, a, n), live[a := n];
    assert Of(own, a) == Alien;
    if a in live { LiveHeader(m, ring, live, own, a); }
    forall b | b in live' ensures BlockLive(m', own', b, live'[b]) {
      if b != a {
        assert BlockLive(m, own, b, live[b]);
        forall u: nat | b <= u < b + live[b] ensures Of(own', u) == Live(b) {
          assert Of(own, u) == Live(b);
          GrownUnit(own, a, n, u);
        }
      } else {
        forall u: nat | a <= u < a + n ensures Of(own', u) == Live(a) { GrownUnit(own, a, n, u); }
      }
    }
    forall u: nat | Of(own', u).Live?
      ensures Of(own', u).a in live' && Of(own', u).a <= u < Of(own', u).a + live'[Of(own', u).a]
    {
      GrownUnit(own, a, n, u);
    }
  }

  lemma GrowOk(m: Mem, ring: seq<nat>, live: map<nat, nat>, own: map<nat, Owner>, a: nat, n: nat)
    requires Inv(m, ring, live, own) && n > 0 && Fresh(own, a, n)
    ensures a !in live && Inv(SetSize(m, a, n), ring, live[a := n], GrowOwn(own, a, n))
  {
    var m', own' := SetSize(m, a, n), GrowOwn(own, a, n);
    assert Of(own, a) == Alien;
    forall k: nat | k < |ring| ensures NodeOk(m', ring, k) && ring[k] != a {
      assert NodeOk(m, ring, k);
      if k > 0 { FreeNode(m, ring, live, own, k, ring[k]); }
    }
    GrowLive(m, ring, live, own, a, n);
    GrowFree(m, ring, live, own, a, n);
    forall u: nat | Of(own', u) != Alien ensures u > BASE { GrownUnit(own, a, n, u); }
  }

  lemma GrowFree(m: Mem, ring: seq<nat>, live: map<nat, nat>, own: map<nat, Owner>, a: nat, n: nat)
    requires Inv(m, ring, live, own) && n > 0 && Fresh(own, a, n) && a !in ring
    ensures FreeUnits(SetSize(m, a, n), ring, GrowOwn(own, a, n))
  {
    var m', own' := SetSize(m, a, n), GrowOwn(own, a, n);
    forall k: nat | 1 <= k < |ring| ensures BlockFree(m', own', ring[k]) {
      forall u: nat | ring[k] <= u < End(m, ring[k]) ensures Of(own', u) == Free {
        FreeNode(m, ring, live, own, k, u);
        GrownUnit(own, a, n, u);
      }
    }
    forall u: nat | Of(own', u) == Free ensures InFree(m', ring, u) {
      GrownUnit(own, a, n, u);
      assert InFree(m, ring, u);
      var k: nat :| Within(m, ring, u, k);
      assert Within(m', ring, u, k);
    }
  }

  /** The program may write anything into the units of its live blocks after the header. */
  lemma ScribbleOk(m: Mem, ring: seq<nat>, live: map<nat, nat>, own: map<nat, Owner>, u: nat, p: nat, z: nat)
    requires Inv(m, ring, live, own) && Of(own, u).Live? && u != Of(own, u).a
    ensures Inv(SetPtr(SetSize(m, u, z), u, p), ring, live, own)
  {
    var m' := SetPtr(SetSize(m, u, z), u, p);
    forall k: nat | k < |ring| ensures NodeOk(m', ring, k) && ring[k] != u {
      assert NodeOk(m, ring, k);
      if k > 0 { FreeNode(m, ring, live, own, k, ring[k]); }
    }
    forall b | b in live ensures BlockLive(m', own, b, live[b]) {
      assert BlockLive(m, own, b, live[b]);
      LiveHeader(m, ring, live, own, b);
    }
    forall k: nat | 1 <= k < |ring| ensures BlockFree(m', own, ring[k]) { assert BlockFree(m, own, ring[k]); }
    forall v: nat | Of(own, v) == Free ensures InFree(m', ring, v) {
      assert InFree(m, ring, v);
      var k: nat :| Within(m, ring, v, k);
      assert Within(m', ring, v, k);
    }
  }
}
