/** The descriptor bookkeeping of kernel/virtio_disk.c in its own form: loops over free[] and
    desc[], proved to do what the protocol steps take them to do. */
module VirtioDisk {
  import opened Prelude
  import opened VirtioRing

  class Disk {
    const free: array<bool>
    const desc: array<Desc>

    /** Free descriptors are all zero, as free_desc() and the initial memset leave them. */
    ghost predicate Valid()
      reads this, free, desc
    {
      && free.Length == desc.Length == NUM
      && forall d :: 0 <= d < NUM && free[d] ==> desc[d] == Zero()
    }

    /** virtio_disk_init(): every descriptor is zero and free, as the protocol starts. */
    constructor ()
      ensures Valid() && fresh(free) && fresh(desc)
      ensures free[..] == Boot(0).free && desc[..] == Boot(0).desc
    {
      free := new bool[NUM](i => true);
      desc := new Desc[NUM](i => Zero());
    }

    /** alloc_desc(); None stands for -1. */
    method AllocDesc() returns (r: Option<nat>)
      requires free.Length == NUM
      modifies free
      ensures r == FirstFree(old(free[..]), 0)
      ensures free[..] == if r.None? then old(free[..]) else old(free[..])[r.value := false]
    {
      var i := 0;
      while i < NUM
        invariant 0 <= i <= NUM && free[..] == old(free[..])
        invariant FirstFree(free[..], 0) == FirstFree(free[..], i)
      {
        if free[i] {
          free[i] := false;
          return Some(i);
        }
        i := i + 1;
      }
      return None;
    }

    /** free_desc(); false stands for its panics. */
    method FreeDesc(i: nat) returns (ok: bool)
      requires free.Length == desc.Length == NUM
      modifies free, desc
      ensures ok <==> i < NUM && !old(free[i])
      ensures free[..] == if ok then old(free[..])[i := true] else old(free[..])
      ensures desc[..] == if ok then old(desc[..])[i := Zero()] else old(desc[..])
      ensures old(Valid()) ==> Valid()
    {
      if i >= NUM {
        return false;
      }
      if free[i] {
        return false;
      }
      desc[i] := Zero();
      free[i] := true;
      return true;
    }

    /** free_chain(): follows the NEXT flags, freeing as it goes. */
    method FreeChainFrom(head: nat) returns (ok: bool)
      requires free.Length == desc.Length == NUM
      modifies free, desc
      ensures ok <==> FreeChain(old(free[..]), old(desc[..]), head).Some?
      ensures ok ==> Some((free[..], desc[..])) == FreeChain(old(free[..]), old(desc[..]), head)
    {
      var i: nat := head;
      while true
        invariant FreeChain(free[..], desc[..], i) == FreeChain(old(free[..]), old(desc[..]), head)
        decreases Busy(free[..])
      {
        if i >= NUM {
          return false;
        }
        var more, next := desc[i].more, desc[i].next;
        ghost var f, d := free[..], desc[..];
        if !free[i] { BusyFree(f, i); }
        ok := FreeDesc(i);
        if !ok {
          return;
        }
        assert free[..] == f[i := true] && desc[..] == d[i := Zero()];
        if more {
          i := next;
        } else {
          return;
        }
      }
    }

    /** alloc3_desc(): three descriptors, or everything as before. */
    method Alloc3Desc() returns (r: Option<(nat, nat, nat)>)
      requires Valid()
      modifies free, desc
      ensures r == Alloc3(old(free[..])) && desc[..] == old(desc[..])
      ensures r.None? ==> free[..] == old(free[..])
      ensures r.Some? ==> free[..] == old(free[..])[r.value.0 := false][r.value.1 := false][r.value.2 := false]
    {
      ghost var f0, d0 := free[..], desc[..];
      var idx: seq<nat> := [];
      for n := 0 to 3
        invariant |idx| == n && desc[..] == d0 && free[..] == Without(f0, idx) && Picked(f0, idx)
      {
        var i := AllocDesc();
        if i.None? {
          PickedNone(f0, idx);
          Undo(idx, f0, d0);
          return None;
        }
        PickedSnoc(f0, idx, i.value);
        idx := idx + [i.value];
      }
      PickedThree(f0, idx);
      r := Some((idx[0], idx[1], idx[2]));
    }

    /** The clean-up loop of alloc3_desc(). */
    method Undo(idx: seq<nat>, ghost f0: seq<bool>, ghost d0: seq<Desc>)
      requires free.Length == desc.Length == NUM == |f0| == |d0| && desc[..] == d0
      requires Picked(f0, idx) && free[..] == Without(f0, idx)
      requires forall d :: 0 <= d < NUM && f0[d] ==> d0[d] == Zero()
      modifies free, desc
      ensures free[..] == f0 && desc[..] == d0
    {
      var j := 0;
      while j < |idx|
        invariant 0 <= j <= |idx| && desc[..] == d0
        invariant forall d :: 0 <= d < NUM ==> free[d] == (f0[d] && d !in idx[j..])
      {
        assert idx[j] in idx[j..];
        assert idx[j..] == [idx[j]] + idx[j + 1..];
        var ok := FreeDesc(idx[j]);
        j := j + 1;
      }
    }
  }

  /** free[] with the descriptors in idx taken. */
  ghost function Without(f: seq<bool>, idx: seq<nat>): (r: seq<bool>)
    ensures |r| == |f| && forall d :: 0 <= d < |f| ==> r[d] == (f[d] && d !in idx)
  {
    seq(|f|, d requires 0 <= d < |f| => f[d] && d !in idx)
  }

  /** Each descriptor in idx was the first free one when the ones before it were taken. */
  ghost predicate Picked(f: seq<bool>, idx: seq<nat>) {
    forall n :: 0 <= n < |idx| ==> FirstFree(Without(f, idx[..n]), 0) == Some(idx[n])
  }

  lemma PickedSnoc(f: seq<bool>, idx: seq<nat>, i: nat)
    requires Picked(f, idx) && FirstFree(Without(f, idx), 0) == Some(i)
    ensures Picked(f, idx + [i]) && i < |f| && Without(f, idx + [i]) == Without(f, idx)[i := false]
  {
    forall n | 0 <= n < |idx| + 1 ensures FirstFree(Without(f, (idx + [i])[..n]), 0) == Some((idx + [i])[n]) {
      if n < |idx| {
        assert (idx + [i])[..n] == idx[..n];
      } else {
        assert (idx + [i])[..n] == idx;
      }
    }
  }

  /** Taking descriptors one by one is what Alloc3 describes. */
  lemma PickedPrefix(f: seq<bool>, idx: seq<nat>)
    requires Picked(f, idx) && |idx| <= 3
    ensures Without(f, []) == f
    ensures |idx| >= 1 ==> FirstFree(f, 0) == Some(idx[0]) && Without(f, idx[..1]) == f[idx[0] := false]
    ensures |idx| >= 2 ==>
              FirstFree(f[idx[0] := false], 0) == Some(idx[1]) &&
              Without(f, idx[..2]) == f[idx[0] := false][idx[1] := false]
    ensures |idx| >= 3 ==> FirstFree(f[idx[0] := false][idx[1] := false], 0) == Some(idx[2])
  {
    if |idx| >= 1 {
      assert idx[..0] == [];
      assert FirstFree(Without(f, idx[..0]), 0) == Some(idx[0]);
      assert Without(f, idx[..1]) == f[idx[0] := false];
    }
    if |idx| >= 2 {
      assert FirstFree(Without(f, idx[..1]), 0) == Some(idx[1]);
      assert Without(f, idx[..2]) == f[idx[0] := false][idx[1] := false];
    }
    if |idx| >= 3 { assert FirstFree(Without(f, idx[..2]), 0) == Some(idx[2]); }
  }

  lemma PickedNone(f: seq<bool>, idx: seq<nat>)
    requires Picked(f, idx) && |idx| < 3 && FirstFree(Without(f, idx), 0) == None
    ensures Alloc3(f) == None
  {
    PickedPrefix(f, idx);
    assert idx[..|idx|] == idx;
  }

  lemma PickedThree(f: seq<bool>, idx: seq<nat>)
    requires Picked(f, idx) && |idx| == 3
    ensures Alloc3(f) == Some((idx[0], idx[1], idx[2]))
    ensures idx[0] < |f| && idx[1] < |f| && idx[2] < |f| &&
            Without(f, idx) == f[idx[0] := false][idx[1] := false][idx[2] := false]
  {
    PickedPrefix(f, idx);
    assert idx == [idx[0], idx[1], idx[2]];
  }
}
