/** user/umalloc.c: free(), morecore() and malloc(). */
module Umalloc {
  import opened Prelude
  import opened HeapModel
  import opened HeapFree
  import opened HeapMalloc

  /** Units for nbytes of payload and the header. */
  function Units(nbytes: nat): nat { (nbytes + UNIT - 1) / UNIT + 1 }

  /** What morecore() asks sbrk() for. */
  function CoreUnits(nu: nat): nat { if nu < 4096 then 4096 else nu }

  lemma UnitsHold(nbytes: nat)
    ensures (Units(nbytes) - 1) * UNIT >= nbytes && Units(nbytes) > 0
  {
  }

  function NextIndex(n: nat, k: nat): nat
    requires k < n
  {
    if k + 1 < n then k + 1 else 0
  }

  /** How many nodes from k on, round the list, to j. */
  function Distance(n: nat, k: nat, j: nat): nat
    requires k < n && j < n
  {
    if k <= j then j - k else n - k + j
  }

  lemma NextNode(m: Mem, ring: seq<nat>, k: nat)
    requires RingOk(m, ring) && k < |ring|
    ensures Ptr(m, ring[k]) == ring[NextIndex(|ring|, k)]
  {
    assert NodeOk(m, ring, k);
  }

  /** At node k the search of free() stops exactly if k is the node before bp. */
  lemma SearchTest(m: Mem, ring: seq<nat>, k: nat, j: nat, b: nat)
    requires RingOk(m, ring) && k < |ring| && Before(ring, j, b) && b > BASE
    ensures var p, next := ring[k], Ptr(m, ring[k]);
            ((b > p && b < next) || (p >= next && (b > p || b < next))) <==> k == j
  {
    NextNode(m, ring, k);
    assert NodeOk(m, ring, 0);
    if k + 1 < |ring| {
      Sorted(m, ring, k, k + 1);
      if ring[k] < b < ring[k + 1] { BeforeUnique(m, ring, k, j, b); }
    } else {
      if k > 0 { Sorted(m, ring, 0, k); }
      if b > ring[k] { BeforeUnique(m, ring, k, j, b); }
    }
  }

  lemma NodeAbove(m: Mem, ring: seq<nat>, k: nat)
    requires RingOk(m, ring) && k < |ring|
    ensures ring[k] >= BASE
  {
    assert NodeOk(m, ring, 0);
    if k > 0 { Sorted(m, ring, 0, k); }
  }

  /** Right after free(bp), freep or the node after it is at least as big as bp was. */
  lemma FreedFits(m: Mem, p: nat, b: nat)
    requires p != b && Ptr(m, p) != b
    ensures var m' := FreeMem(m, p, b); Size(m', p) >= Size(m, b) || Size(m', Ptr(m', p)) >= Size(m, b)
  {
  }

  /** The units after malloc() returned block a of n units; `grown` units at g came from sbrk(). */
  ghost predicate Given(own0: map<nat, Owner>, own: map<nat, Owner>, a: nat, n: nat, g: nat, grown: nat) {
    forall u: nat {:trigger Of(own, u)} ::
      Of(own, u) == if a <= u < a + n then Live(a) else if g <= u < g + grown then Free else Of(own0, u)
  }

  /** n units at g were added to the free ones. */
  ghost predicate Grown(own0: map<nat, Owner>, own: map<nat, Owner>, g: nat, n: nat) {
    forall u: nat {:trigger Of(own, u)} :: Of(own, u) == if g <= u < g + n then Free else Of(own0, u)
  }

  lemma TakenUnits(m: Mem, ring: seq<nat>, live: map<nat, nat>, own: map<nat, Owner>, k: nat, a: nat, n: nat)
    requires Inv(m, ring, live, own) && Takes(m, ring, k, a, n)
    ensures Given(own, TakeOwn(own, a, n), a, n, 0, 0)
  {
    var own' := TakeOwn(own, a, n);
    forall u: nat ensures Of(own', u) == if a <= u < a + n then Live(a) else if 0 <= u < 0 then Free else Of(own, u) {
      if a <= u < a + n { FreeNode(m, ring, live, own, k, u); }
      TakenUnit(own, a, n, u);
    }
  }

  ghost predicate NoneFits(m: Mem, ring: seq<nat>, n: nat) {
    forall i: nat {:trigger ring[i]} :: i < |ring| ==> Size(m, ring[i]) < n
  }

  /** The nodes from the one after f up to k, round the list, are too small. */
  ghost predicate Passed(m: Mem, ring: seq<nat>, f: nat, k: nat, n: nat)
    requires f < |ring| && k < |ring|
  {
    forall i: nat {:trigger ring[i]} ::
      i < |ring| && Distance(|ring|, NextIndex(|ring|, f), i) < Distance(|ring|, NextIndex(|ring|, f), k) ==>
        Size(m, ring[i]) < n
  }

  lemma PassedNext(m: Mem, ring: seq<nat>, f: nat, k: nat, n: nat)
    requires f < |ring| && k < |ring| && k != f && Passed(m, ring, f, k, n) && Size(m, ring[k]) < n
    ensures Passed(m, ring, f, NextIndex(|ring|, k), n)
  {
  }

  lemma PassedAll(m: Mem, ring: seq<nat>, f: nat, k: nat, n: nat)
    requires f < |ring| && k == f && Passed(m, ring, f, k, n) && Size(m, ring[k]) < n
    ensures NoneFits(m, ring, n)
  {
  }

  /** What malloc() got from sbrk(), if it asked: from where, and how many units. */
  function CoreAt(calls: nat, grant: Option<nat>): nat { if calls == 1 && grant.Some? then grant.value else 0 }
  function CoreGot(calls: nat, grant: Option<nat>, nunits: nat): nat {
    if calls == 1 && grant.Some? then CoreUnits(nunits) else 0
  }

  /** The loop of malloc() looks at node k; freep is node f. */
  ghost predicate Scanning(m: Mem, freep: nat, ring: seq<nat>, live: map<nat, nat>, own: map<nat, Owner>, prevp: nat,
                           p: nat, f: nat, k: nat) {
    && Inv(m, ring, live, own) && f < |ring| && freep == ring[f]
    && k < |ring| && p == ring[k] && prevp == ring[if k == 0 then |ring| - 1 else k - 1]
  }

  /** After morecore() a big enough block is next or comes last. */
  ghost predicate Regrown(m: Mem, freep: nat, p: nat, n: nat, own0: map<nat, Owner>, own: map<nat, Owner>,
                          grant: Option<nat>) {
    grant.Some? && (Size(m, freep) >= n || Size(m, p) >= n) && Grown(own0, own, grant.value, CoreUnits(n))
  }

  lemma ScanStart(m: Mem, ring: seq<nat>, live: map<nat, nat>, own: map<nat, Owner>, f: nat)
    requires Inv(m, ring, live, own) && f < |ring|
    ensures Scanning(m, ring[f], ring, live, own, ring[f], Ptr(m, ring[f]), f, NextIndex(|ring|, f))
  {
    NextNode(m, ring, f);
  }

  lemma ScanNext(m: Mem, ring: seq<nat>, live: map<nat, nat>, own: map<nat, Owner>, f: nat, k: nat)
    requires Inv(m, ring, live, own) && f < |ring| && k < |ring|
    ensures Scanning(m, ring[f], ring, live, own, ring[k], Ptr(m, ring[k]), f, NextIndex(|ring|, k))
    ensures k != f ==> Distance(|ring|, NextIndex(|ring|, k), f) < Distance(|ring|, k, f)
  {
    NextNode(m, ring, k);
  }

  lemma FitNode(m: Mem, freep: nat, ring: seq<nat>, live: map<nat, nat>, own: map<nat, Owner>, prevp: nat, p: nat,
                f: nat, k: nat, n: nat)
    requires Scanning(m, freep, ring, live, own, prevp, p, f, k) && 0 < n <= Size(m, p)
    ensures k >= 1
  {
    assert NodeOk(m, ring, 0);
  }

  lemma ScanRound(m: Mem, freep: nat, ring: seq<nat>, live: map<nat, nat>, own: map<nat, Owner>, prevp: nat, p: nat,
                  f: nat, k: nat, n: nat)
    requires Scanning(m, freep, ring, live, own, prevp, p, f, k) && p == freep && Size(m, p) < n
    ensures k == f && (Passed(m, ring, f, k, n) ==> NoneFits(m, ring, n))
  {
    if k != f { Apart(m, ring, k, f); }
    if Passed(m, ring, f, k, n) { PassedAll(m, ring, f, k, n); }
  }

  lemma PassedNone(m: Mem, ring: seq<nat>, f: nat, n: nat)
    requires f < |ring|
    ensures Passed(m, ring, f, NextIndex(|ring|, f), n)
  {
  }

  lemma GivenGrown(own0: map<nat, Owner>, own1: map<nat, Owner>, own: map<nat, Owner>, a: nat, n: nat, g: nat, c: nat)
    requires Grown(own0, own1, g, c) && Given(own1, own, a, n, 0, 0)
    ensures Given(own0, own, a, n, g, c)
  {
    forall u: nat
      ensures Of(own, u) == if a <= u < a + n then Live(a) else if g <= u < g + c then Free else Of(own0, u) {
      assert Of(own1, u) == if g <= u < g + c then Free else Of(own0, u);
    }
  }

  class Allocator {
    var m: Mem
    var freep: nat
    ghost var ring: seq<nat>
    ghost var live: map<nat, nat>
    ghost var own: map<nat, Owner>

    ghost predicate Valid()
      reads this
    {
      if freep == 0 then live == map[] && own == map[]
      else Inv(m, ring, live, own) && freep in ring
    }

    /** Before the first call: freep is null and nothing has been obtained. */
    constructor ()
      ensures Valid() && freep == 0 && live == map[] && own == map[]
    {
      m, freep := Mem(map[], map[]), 0;
      ring, live, own := [], map[], map[];
    }

    /** The search loop of free(): the node after which bp belongs.  It ends after at most one
        round of the list. */
    method Search(bp: nat) returns (p: nat, ghost j: nat)
      requires Valid() && freep != 0 && bp in live
      ensures Before(ring, j, bp) && p == ring[j]
    {
      LiveHeader(m, ring, live, own, bp);
      NotInRing(m, ring, live, own, bp);
      assert NodeOk(m, ring, 0);
      j := FindBefore(ring, bp, |ring|);
      p := freep;
      ghost var k :| 0 <= k < |ring| && ring[k] == p;
      while !(bp > p && bp < Ptr(m, p))
        invariant 0 <= k < |ring| && ring[k] == p
        decreases Distance(|ring|, k, j)
      {
        SearchTest(m, ring, k, j, bp);
        NextNode(m, ring, k);
        if p >= Ptr(m, p) && (bp > p || bp < Ptr(m, p)) {
          break;
        }
        p := Ptr(m, p);
        k := NextIndex(|ring|, k);
      }
      SearchTest(m, ring, k, j, bp);
    }

    /** free(): the block joins the free list, merged with the free blocks it touches. */
    method Free(ap: nat)
      requires Valid() && freep != 0 && ap > 0 && ap - 1 in live
      modifies this
      ensures Valid() && freep != 0 && live == old(live) - {ap - 1} && own == FreeOwn(old(own), ap - 1)
      ensures Size(m, freep) >= old(live)[ap - 1] || Size(m, Ptr(m, freep)) >= old(live)[ap - 1]
    {
      var bp := ap - 1;
      ghost var j;
      var p;
      p, j := Search(bp);
      FreeOk(m, ring, live, own, j, bp);
      PlacedFacts(m, ring, live, own, j, bp);
      NodeAbove(m, ring, j);
      NextNode(m, ring, j);
      FreedFits(m, p, bp);
      Relink(p, bp);
      ring, live, own := FreeRing(old(m), ring, j, bp), live - {bp}, FreeOwn(own, bp);
      assert ring[j] == p;
      freep := p;
    }

    /** The two joining steps of free(). */
    method Relink(p: nat, bp: nat)
      modifies this`m
      ensures m == FreeMem(old(m), p, bp)
    {
      var next := Ptr(m, p);
      if bp + Size(m, bp) == next {
        m := SetSize(m, bp, Size(m, bp) + Size(m, next));
        m := SetPtr(m, bp, Ptr(m, next));
      } else {
        m := SetPtr(m, bp, next);
      }
      if p + Size(m, p) == bp {
        m := SetSize(m, p, Size(m, p) + Size(m, bp));
        m := SetPtr(m, p, Ptr(m, bp));
      } else {
        m := SetPtr(m, p, bp);
      }
    }

    /** morecore(): `grant` is what sbrk() returns, None for failure. */
    method Morecore(nu: nat, grant: Option<nat>) returns (ok: bool)
      requires Valid() && freep != 0 && nu > 0
      requires grant.Some? ==> Fresh(own, grant.value, CoreUnits(nu))
      modifies this
      ensures Valid() && freep != 0 && live == old(live) && (ok <==> grant.Some?)
      ensures ok ==> Grown(old(own), own, grant.value, CoreUnits(nu))
      ensures ok ==> Size(m, freep) >= nu || Size(m, Ptr(m, freep)) >= nu
      ensures !ok ==> m == old(m) && freep == old(freep) && own == old(own) && ring == old(ring)
    {
      if grant.None? {
        return false;
      }
      var hp, n := grant.value, CoreUnits(nu);
      ghost var own0 := own;
      GrowOk(m, ring, live, own, hp, n);
      m := SetSize(m, hp, n);
      live, own := live[hp := n], GrowOwn(own, hp, n);
      Free(hp + 1);
      assert live == old(live);
      GrownFreed(own0, hp, n);
      ok := true;
    }

    /** The first call of malloc(): a list of base alone. */
    method Init()
      requires Valid() && freep == 0
      modifies this
      ensures Valid() && freep == BASE && ring == [BASE] && live == old(live) && own == old(own)
    {
      m := SetSize(SetPtr(m, BASE, BASE), BASE, 0);
      freep := BASE;
      ring := [BASE];
      assert NodeOk(m, ring, 0);
    }

    /** Block p, the one after prevp, is big enough: take all of it or its tail. */
    method Take(prevp: nat, p: nat, nunits: nat, ghost k: nat) returns (ap: nat)
      requires Valid() && freep != 0 && 1 <= k < |ring| && p == ring[k] && prevp == ring[k - 1]
      requires 0 < nunits <= Size(m, p)
      modifies this
      ensures Valid() && freep == prevp && ap > BASE + 1
      ensures ap - 1 !in old(live) && live == old(live)[ap - 1 := nunits]
      ensures Given(old(own), own, ap - 1, nunits, 0, 0)
    {
      NodeAbove(m, ring, k - 1);
      ghost var a := End(m, p) - nunits;
      TakenUnits(m, ring, live, own, k, a, nunits);
      if Size(m, p) == nunits {
        ExactOk(m, ring, live, own, k);
        m := SetPtr(m, prevp, Ptr(m, p));
        ring := Removed(ring, k);
        assert ring[k - 1] == prevp;
        ap := p + 1;
      } else {
        TailOk(m, ring, live, own, k, nunits);
        m := Cut(m, p, nunits);
        ap := p + Size(m, p) + 1;
      }
      live, own := live[a := nunits], TakeOwn(own, a, nunits);
      freep := prevp;
    }

    /** malloc(): a block that no one else has, with room for nbytes, or 0 if sbrk() fails.  All
        other live units stay what they were.  It asks sbrk() at most once, and only when no free
        block is big enough; `grant` is what sbrk() would return. */
    method Malloc(nbytes: nat, grant: Option<nat>) returns (ap: nat, calls: nat)
      requires Valid() && Units(nbytes) * UNIT < 0x8000_0000
      requires grant.Some? ==> Fresh(own, grant.value, CoreUnits(Units(nbytes)))
      modifies this
      ensures Valid() && calls <= 1
      ensures calls == 1 ==> old(freep) == 0 || NoneFits(old(m), old(ring), Units(nbytes))
      ensures ap == 0 ==> calls == 1 && grant.None? && live == old(live) && own == old(own)
      ensures ap != 0 ==> ap > BASE + 1 && ap - 1 !in old(live) && live == old(live)[ap - 1 := Units(nbytes)]
      ensures ap != 0 ==> (live[ap - 1] - 1) * UNIT >= nbytes
      ensures ap != 0 ==>
                Given(old(own), own, ap - 1, Units(nbytes), CoreAt(calls, grant), CoreGot(calls, grant, Units(nbytes)))
    {
      UnitsHold(nbytes);
      if freep == 0 {
        Init();
      }
      ap, calls := FirstFit(Units(nbytes), grant);
    }

    /** The loop of malloc(). */
    method FirstFit(nunits: nat, grant: Option<nat>) returns (ap: nat, calls: nat)
      requires Valid() && freep != 0 && nunits > 0
      requires grant.Some? ==> Fresh(own, grant.value, CoreUnits(nunits))
      modifies this
      ensures Valid() && calls <= 1 && (calls == 1 ==> NoneFits(old(m), old(ring), nunits))
      ensures ap == 0 ==> calls == 1 && grant.None? && live == old(live) && own == old(own)
      ensures ap != 0 ==> ap > BASE + 1 && ap - 1 !in old(live) && live == old(live)[ap - 1 := nunits]
      ensures ap != 0 ==> Given(old(own), own, ap - 1, nunits, CoreAt(calls, grant), CoreGot(calls, grant, nunits))
    {
      var prevp := freep;
      ghost var f: nat :| f < |ring| && ring[f] == freep;
      var p := Ptr(m, prevp);
      ghost var k: nat := NextIndex(|ring|, f);
      ScanStart(m, ring, live, own, f);
      PassedNone(m, ring, f, nunits);
      calls := 0;
      while true
        invariant freep != 0 && live == old(live) && calls <= 1 && Scanning(m, freep, ring, live, own, prevp, p, f, k)
        invariant calls == 0 ==> m == old(m) && ring == old(ring) && own == old(own) && Passed(m, ring, f, k, nunits)
        invariant calls == 1 ==>
                    NoneFits(old(m), old(ring), nunits) && Regrown(m, freep, p, nunits, old(own), own, grant)
        decreases 1 - calls, Distance(|ring|, k, f)
      {
        if Size(m, p) >= nunits {
          FitNode(m, freep, ring, live, own, prevp, p, f, k, nunits);
          ghost var own1 := own;
          ap := Take(prevp, p, nunits, k);
          GivenGrown(old(own), own1, own, ap - 1, nunits, CoreAt(calls, grant), CoreGot(calls, grant, nunits));
          return;
        }
        if p == freep {
          ScanRound(m, freep, ring, live, own, prevp, p, f, k, nunits);
          var ok := Morecore(nunits, grant);
          calls := 1;
          if !ok {
            return 0, calls;
          }
          p := freep;
          f :| f < |ring| && ring[f] == freep;
          k := f;
        }
        ScanNext(m, ring, live, own, f, k);
        if calls == 0 { PassedNext(m, ring, f, k, nunits); }
        prevp := p;
        p := Ptr(m, p);
        k := NextIndex(|ring|, k);
      }
    }
  }

  lemma GrownFreed(own: map<nat, Owner>, a: nat, n: nat)
    requires forall u: nat {:trigger Of(own, u)} :: Of(own, u) != Live(a)
    ensures forall u: nat {:trigger Of(FreeOwn(GrowOwn(own, a, n), a), u)} ::
              Of(FreeOwn(GrowOwn(own, a, n), a), u) == if a <= u < a + n then Free else Of(own, u)
  {
    var own' := FreeOwn(GrowOwn(own, a, n), a);
    forall u: nat ensures Of(own', u) == if a <= u < a + n then Free else Of(own, u) {
      GrownUnit(own, a, n, u);
      FreedUnit(GrowOwn(own, a, n), a, u);
    }
  }
}
