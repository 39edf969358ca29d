/** free(): what linking a block into the free list does, case by case. */
module HeapFree {
  import opened HeapModel

  function SetPtr(m: Mem, a: nat, p: nat): Mem { m.(ptr := m.ptr[a := p]) }
  function SetSize(m: Mem, a: nat, n: nat): Mem { m.(size := m.size[a := n]) }

  /** bp takes over the block after it, or just points to it. */
  function JoinUp(m: Mem, p: nat, b: nat): Mem {
    if b + Size(m, b) == Ptr(m, p)
    then SetPtr(SetSize(m, b, Size(m, b) + Size(m, Ptr(m, p))), b, Ptr(m, Ptr(m, p)))
    else SetPtr(m, b, Ptr(m, p))
  }

  /** p takes over bp, or just points to it. */
  function JoinDown(m: Mem, p: nat, b: nat): Mem {
    if p + Size(m, p) == b
    then SetPtr(SetSize(m, p, Size(m, p) + Size(m, b)), p, Ptr(m, b))
    else SetPtr(m, p, b)
  }

  /** Memory after free(bp) has settled on node p. */
  function FreeMem(m: Mem, p: nat, b: nat): Mem { JoinDown(JoinUp(m, p, b), p, b) }

  predicate Up(m: Mem, ring: seq<nat>, j: nat, b: nat) {
    j + 1 < |ring| && b + Size(m, b) == ring[j + 1]
  }

  predicate Down(m: Mem, ring: seq<nat>, j: nat, b: nat)
    requires j < |ring|
  {
    End(m, ring[j]) == b
  }

  /** The free list afterwards. */
  function FreeRing(m: Mem, ring: seq<nat>, j: nat, b: nat): seq<nat>
    requires j < |ring|
  {
    if Up(m, ring, j, b) then
      if Down(m, ring, j, b) then ring[..j + 1] + ring[j + 2..] else ring[j + 1 := b]
    else
      if Down(m, ring, j, b) then ring else ring[..j + 1] + [b] + ring[j + 1..]
  }

  ghost function FreeOwn(own: map<nat, Owner>, b: nat): map<nat, Owner> {
    map u | u in own :: if own[u] == Live(b) then Free else own[u]
  }

  /** What all cases start from: a live block and the node before it. */
  ghost predicate Placed(m: Mem, ring: seq<nat>, live: map<nat, nat>, own: map<nat, Owner>, j: nat, b: nat) {
    Inv(m, ring, live, own) && b in live && Before(ring, j, b)
  }

  lemma PlacedFacts(m: Mem, ring: seq<nat>, live: map<nat, nat>, own: map<nat, Owner>, j: nat, b: nat)
    requires Placed(m, ring, live, own, j, b)
    ensures b !in ring && b > BASE && Ptr(m, ring[j]) == Succ(ring, j) && Size(m, b) == live[b] > 0
    ensures End(m, ring[j]) <= b && (j + 1 < |ring| ==> End(m, b) <= ring[j + 1])
    ensures Up(m, ring, j, b) <==> b + Size(m, b) == Ptr(m, ring[j])
    ensures Down(m, ring, j, b) ==> j > 0
  {
    Between(m, ring, live, own, j, b);
    NotInRing(m, ring, live, own, b);
    LiveHeader(m, ring, live, own, b);
    assert NodeOk(m, ring, j) && NodeOk(m, ring, 0);
  }

  /** Headers other than those of p and bp stay as they are. */
  lemma OtherHeader(m: Mem, p: nat, b: nat, x: nat)
    requires x != p && x != b
    ensures Ptr(FreeMem(m, p, b), x) == Ptr(m, x) && Size(FreeMem(m, p, b), x) == Size(m, x)
  {
  }

  /** A node that keeps its header and its place between its neighbours. */
  lemma NodeShift(m: Mem, ring: seq<nat>, i: nat, m': Mem, r: seq<nat>, k: nat)
    requires i < |ring| && k < |r| && NodeOk(m, ring, i)
    requires r[k] == ring[i] && Succ(r, k) == Succ(ring, i) && (k == 0 <==> i == 0) &&
             (k + 1 == |r| <==> i + 1 == |ring|)
    requires Ptr(m', r[k]) == Ptr(m, r[k]) && Size(m', r[k]) == Size(m, r[k])
    ensures NodeOk(m', r, k)
  {
  }

  lemma Apart(m: Mem, ring: seq<nat>, i: nat, j: nat)
    requires RingOk(m, ring) && i < |ring| && j < |ring| && i != j
    ensures ring[i] != ring[j]
  {
    if i < j { Sorted(m, ring, i, j); } else { Sorted(m, ring, j, i); }
  }

  /** A node other than j, found at k in the new list with the same neighbour. */
  lemma OldNode(m: Mem, ring: seq<nat>, live: map<nat, nat>, own: map<nat, Owner>, j: nat, b: nat, i: nat, r: seq<nat>,
                k: nat)
    requires Placed(m, ring, live, own, j, b) && i < |ring| && i != j && k < |r|
    requires r[k] == ring[i] && Succ(r, k) == Succ(ring, i) && (k == 0 <==> i == 0) &&
             (k + 1 == |r| <==> i + 1 == |ring|)
    ensures NodeOk(FreeMem(m, ring[j], b), r, k)
  {
    PlacedFacts(m, ring, live, own, j, b);
    Apart(m, ring, i, j);
    OtherHeader(m, ring[j], b, ring[i]);
    assert NodeOk(m, ring, i);
    NodeShift(m, ring, i, FreeMem(m, ring[j], b), r, k);
  }

  // ---------------------------------------------------------------- the list

  lemma RingPlain(m: Mem, ring: seq<nat>, live: map<nat, nat>, own: map<nat, Owner>, j: nat, b: nat)
    requires Placed(m, ring, live, own, j, b) && !Up(m, ring, j, b) && !Down(m, ring, j, b)
    ensures RingOk(FreeMem(m, ring[j], b), FreeRing(m, ring, j, b))
  {
    PlacedFacts(m, ring, live, own, j, b);
    var m', r := FreeMem(m, ring[j], b), FreeRing(m, ring, j, b);
    assert NodeOk(m, ring, j);
    forall k: nat | k < |r| ensures NodeOk(m', r, k) {
      if k < j { OldNode(m, ring, live, own, j, b, k, r, k); }
      else if k > j + 1 { OldNode(m, ring, live, own, j, b, k - 1, r, k); }
    }
  }

  lemma RingUp(m: Mem, ring: seq<nat>, live: map<nat, nat>, own: map<nat, Owner>, j: nat, b: nat)
    requires Placed(m, ring, live, own, j, b) && Up(m, ring, j, b) && !Down(m, ring, j, b)
    ensures RingOk(FreeMem(m, ring[j], b), FreeRing(m, ring, j, b))
  {
    PlacedFacts(m, ring, live, own, j, b);
    var m', r := FreeMem(m, ring[j], b), FreeRing(m, ring, j, b);
    assert NodeOk(m, ring, j) && NodeOk(m, ring, j + 1);
    forall k: nat | k < |r| ensures NodeOk(m', r, k) {
      if k < j || k > j + 1 { OldNode(m, ring, live, own, j, b, k, r, k); }
    }
  }

  lemma RingDown(m: Mem, ring: seq<nat>, live: map<nat, nat>, own: map<nat, Owner>, j: nat, b: nat)
    requires Placed(m, ring, live, own, j, b) && !Up(m, ring, j, b) && Down(m, ring, j, b)
    ensures RingOk(FreeMem(m, ring[j], b), FreeRing(m, ring, j, b))
  {
    PlacedFacts(m, ring, live, own, j, b);
    var m', r := FreeMem(m, ring[j], b), FreeRing(m, ring, j, b);
    assert NodeOk(m, ring, j);
    forall k: nat | k < |r| ensures NodeOk(m', r, k) {
      if k != j { OldNode(m, ring, live, own, j, b, k, r, k); }
    }
  }

  lemma RingBoth(m: Mem, ring: seq<nat>, live: map<nat, nat>, own: map<nat, Owner>, j: nat, b: nat)
    requires Placed(m, ring, live, own, j, b) && Up(m, ring, j, b) && Down(m, ring, j, b)
    ensures RingOk(FreeMem(m, ring[j], b), FreeRing(m, ring, j, b))
  {
    PlacedFacts(m, ring, live, own, j, b);
    var m', r := FreeMem(m, ring[j], b), FreeRing(m, ring, j, b);
    assert NodeOk(m, ring, j) && NodeOk(m, ring, j + 1);
    forall k: nat | k < |r| ensures NodeOk(m', r, k) {
      if k < j { OldNode(m, ring, live, own, j, b, k, r, k); }
      else if k > j { OldNode(m, ring, live, own, j, b, k + 1, r, k); }
    }
  }

  lemma FreeRingOk(m: Mem, ring: seq<nat>, live: map<nat, nat>, own: map<nat, Owner>, j: nat, b: nat)
    requires Placed(m, ring, live, own, j, b)
    ensures RingOk(FreeMem(m, ring[j], b), FreeRing(m, ring, j, b))
  {
    if Up(m, ring, j, b) {
      if Down(m, ring, j, b) { RingBoth(m, ring, live, own, j, b); } else { RingUp(m, ring, live, own, j, b); }
    } else {
      if Down(m, ring, j, b) { RingDown(m, ring, live, own, j, b); } else { RingPlain(m, ring, live, own, j, b); }
    }
  }

  // ---------------------------------------------------------------- the units

  lemma FreedUnit(own: map<nat, Owner>, b: nat, u: nat)
    ensures Of(FreeOwn(own, b), u) == if Of(own, u) == Live(b) then Free else Of(own, u)
  {
  }

  /** The units of an old free block, and those of bp, are free afterwards. */
  lemma Spans(m: Mem, ring: seq<nat>, live: map<nat, nat>, own: map<nat, Owner>, b: nat)
    requires Inv(m, ring, live, own) && b in live
    ensures AllOf(FreeOwn(own, b), b, End(m, b), Free)
    ensures forall i: nat {:trigger ring[i]} :: 1 <= i < |ring| ==>
              AllOf(FreeOwn(own, b), ring[i], End(m, ring[i]), Free)
  {
    var own' := FreeOwn(own, b);
    LiveHeader(m, ring, live, own, b);
    forall u: nat | b <= u < End(m, b) ensures Of(own', u) == Free {
      LiveBlock(m, ring, live, own, b, u);
      FreedUnit(own, b, u);
    }
    forall i: nat, u: nat | 1 <= i < |ring| && ring[i] <= u < End(m, ring[i]) ensures Of(own', u) == Free {
      FreeNode(m, ring, live, own, i, u);
      FreedUnit(own, b, u);
    }
  }

  /** Where a node of the new list ends. */
  lemma NewEnds(m: Mem, ring: seq<nat>, live: map<nat, nat>, own: map<nat, Owner>, j: nat, b: nat)
    requires Placed(m, ring, live, own, j, b)
    ensures var m' := FreeMem(m, ring[j], b);
            var top := if Up(m, ring, j, b) then End(m, ring[j + 1]) else End(m, b);
            && End(m', ring[j]) == (if Down(m, ring, j, b) then top else End(m, ring[j]))
            && (!Down(m, ring, j, b) ==> End(m', b) == top)
  {
    PlacedFacts(m, ring, live, own, j, b);
  }

  lemma NewBlocksFree(m: Mem, ring: seq<nat>, live: map<nat, nat>, own: map<nat, Owner>, j: nat, b: nat, k: nat)
    requires Placed(m, ring, live, own, j, b) && 1 <= k < |FreeRing(m, ring, j, b)|
    ensures BlockFree(FreeMem(m, ring[j], b), FreeOwn(own, b), FreeRing(m, ring, j, b)[k])
  {
    var r := FreeRing(m, ring, j, b);
    PlacedFacts(m, ring, live, own, j, b);
    NewEnds(m, ring, live, own, j, b);
    Spans(m, ring, live, own, b);
    if r[k] == b || k == j {
      if j + 1 < |ring| { assert AllOf(FreeOwn(own, b), ring[j + 1], End(m, ring[j + 1]), Free); }
      if j > 0 { assert AllOf(FreeOwn(own, b), ring[j], End(m, ring[j]), Free); }
    } else {
      var i := OldIndex(m, ring, j, b, k);
      Apart(m, ring, i, j);
      OtherHeader(m, ring[j], b, ring[i]);
    }
  }

  /** The node that was at i before, for a node k of the new list that is neither p nor bp. */
  function OldIndex(m: Mem, ring: seq<nat>, j: nat, b: nat, k: nat): (i: nat)
    requires j < |ring| && k < |FreeRing(m, ring, j, b)| && k != j && FreeRing(m, ring, j, b)[k] != b
    ensures i < |ring| && i != j && ring[i] == FreeRing(m, ring, j, b)[k] && (k > 0 && b !in ring ==> i > 0)
  {
    if k < j then k
    else if Up(m, ring, j, b) then if Down(m, ring, j, b) then k + 1 else k
    else if Down(m, ring, j, b) then k else k - 1
  }

  /** Where the units of an old node are found in the new list. */
  function NewIndex(m: Mem, ring: seq<nat>, j: nat, b: nat, i: nat): nat
    requires j < |ring|
  {
    if i <= j then i
    else if Up(m, ring, j, b) then if Down(m, ring, j, b) then i - 1 else i
    else if Down(m, ring, j, b) then i else i + 1
  }

  lemma StillCovered(m: Mem, ring: seq<nat>, live: map<nat, nat>, own: map<nat, Owner>, j: nat, b: nat, u: nat, i: nat)
    requires Placed(m, ring, live, own, j, b) && Within(m, ring, u, i)
    ensures Within(FreeMem(m, ring[j], b), FreeRing(m, ring, j, b), u, NewIndex(m, ring, j, b, i))
  {
    PlacedFacts(m, ring, live, own, j, b);
    NewEnds(m, ring, live, own, j, b);
    if i != j && !(i == j + 1 && Up(m, ring, j, b)) {
      Apart(m, ring, i, j);
      OtherHeader(m, ring[j], b, ring[i]);
    }
  }

  lemma NowCovered(m: Mem, ring: seq<nat>, live: map<nat, nat>, own: map<nat, Owner>, j: nat, b: nat, u: nat)
    requires Placed(m, ring, live, own, j, b) && b <= u < End(m, b)
    ensures Within(FreeMem(m, ring[j], b), FreeRing(m, ring, j, b), u, if Down(m, ring, j, b) then j else j + 1)
  {
    PlacedFacts(m, ring, live, own, j, b);
    NewEnds(m, ring, live, own, j, b);
  }

  lemma FreeFreeUnits(m: Mem, ring: seq<nat>, live: map<nat, nat>, own: map<nat, Owner>, j: nat, b: nat)
    requires Placed(m, ring, live, own, j, b)
    ensures FreeUnits(FreeMem(m, ring[j], b), FreeRing(m, ring, j, b), FreeOwn(own, b))
  {
    var m', r, own' := FreeMem(m, ring[j], b), FreeRing(m, ring, j, b), FreeOwn(own, b);
    forall k: nat | 1 <= k < |r| ensures BlockFree(m', own', r[k]) { NewBlocksFree(m, ring, live, own, j, b, k); }
    forall u: nat | Of(own', u) == Free ensures InFree(m', r, u) {
      FreedUnit(own, b, u);
      if Of(own, u) == Free {
        assert InFree(m, ring, u);
        var i: nat :| Within(m, ring, u, i);
        StillCovered(m, ring, live, own, j, b, u, i);
      } else {
        LiveHeader(m, ring, live, own, b);
        NowCovered(m, ring, live, own, j, b, u);
      }
    }
  }

  lemma FreeLiveUnits(m: Mem, ring: seq<nat>, live: map<nat, nat>, own: map<nat, Owner>, j: nat, b: nat)
    requires Placed(m, ring, live, own, j, b)
    ensures LiveUnits(FreeMem(m, ring[j], b), live - {b}, FreeOwn(own, b))
  {
    var m', own' := FreeMem(m, ring[j], b), FreeOwn(own, b);
    forall a | a in live - {b} ensures BlockLive(m', own', a, live[a]) {
      assert BlockLive(m, own, a, live[a]);
      NotInRing(m, ring, live, own, a);
      OtherHeader(m, ring[j], b, a);
      forall u: nat | a <= u < a + live[a] ensures Of(own', u) == Live(a) { FreedUnit(own, b, u); }
    }
    forall u: nat | Of(own', u).Live?
      ensures Of(own', u).a in live - {b} && Of(own', u).a <= u < Of(own', u).a + (live - {b})[Of(own', u).a]
    {
      FreedUnit(own, b, u);
    }
  }

  /** FREE.  Freeing a live block keeps the whole invariant: one sorted cycle of coalesced blocks,
      and exactly the units of that block become free. */
  lemma FreeOk(m: Mem, ring: seq<nat>, live: map<nat, nat>, own: map<nat, Owner>, j: nat, b: nat)
    requires Placed(m, ring, live, own, j, b)
    ensures Inv(FreeMem(m, ring[j], b), FreeRing(m, ring, j, b), live - {b}, FreeOwn(own, b))
    ensures j < |FreeRing(m, ring, j, b)| && FreeRing(m, ring, j, b)[j] == ring[j]
  {
    FreeRingOk(m, ring, live, own, j, b);
    FreeFreeUnits(m, ring, live, own, j, b);
    FreeLiveUnits(m, ring, live, own, j, b);
    forall u: nat | Of(FreeOwn(own, b), u) != Alien ensures u > BASE { FreedUnit(own, b, u); }
  }
}
