/** itrunc(): the blocks of one inode go back to the bitmap, slot by slot. */
module FsTruncate {
  import opened FsBlocks
  import opened FsOwnership
  import opened FileSystem

  predicate Mine(o: Own, i: nat, t: nat) {
    o.At? && o.i == i && o.k < t
  }

  ghost predicate SameOutsideBitmap(sb: Super, blk: seq<Block>, blk': seq<Block>) {
    |blk'| == |blk| && forall b: nat {:trigger blk'[b]} :: b < |blk| && !(sb.bmapStart <= b < sb.dataStart) ==>
      blk'[b] == blk[b]
  }

  /** The first t slots of inode i have been freed, and nothing else happened. */
  ghost predicate Truncating(sb: Super, blk0: seq<Block>, blk: seq<Block>, own: map<nat, Own>, i: nat, t: nat) {
    && Shape(sb, blk0) && SameOutsideBitmap(sb, blk0, blk)
    && forall b: nat {:trigger Used(sb, blk, b)} :: b < sb.size ==>
         (Used(sb, blk, b) <==> b < sb.dataStart || (b in own && !Mine(own[b], i, t)))
  }

  lemma TruncStart(sb: Super, ino: seq<Inode>, blk: seq<Block>, own: map<nat, Own>, i: nat)
    requires Inv(sb, ino, blk, own)
    ensures Truncating(sb, blk, blk, own, i, 0)
  {
  }

  /** A slot that holds no block has nothing to free. */
  lemma TruncSkip(sb: Super, ino: seq<Inode>, blk0: seq<Block>, blk: seq<Block>, own: map<nat, Own>, i: nat, t: nat)
    requires Inv(sb, ino, blk0, own) && i < |ino| && t <= IND && Truncating(sb, blk0, blk, own, i, t)
    requires Slot(ino[i], blk0, t) == 0
    ensures Truncating(sb, blk0, blk, own, i, t + 1)
  {
    forall b: nat | b < sb.size ensures b in own ==> (Mine(own[b], i, t + 1) <==> Mine(own[b], i, t)) {
      if b in own { assert OwnedOk(sb, ino, blk0, b, own[b]); }
    }
    forall b: nat | b < sb.size
      ensures Used(sb, blk, b) <==> b < sb.dataStart || (b in own && !Mine(own[b], i, t + 1))
    {
    }
  }

  /** The block of a slot is marked when bfree() gets it: the "freeing free block" panic is unreachable. */
  lemma TruncMarked(sb: Super, ino: seq<Inode>, blk0: seq<Block>, blk: seq<Block>, own: map<nat, Own>, i: nat, t: nat)
    requires Inv(sb, ino, blk0, own) && i < |ino| && t <= IND && Truncating(sb, blk0, blk, own, i, t)
    requires Slot(ino[i], blk0, t) != 0
    ensures var b := Slot(ino[i], blk0, t); b < sb.size && Used(sb, blk, b)
  {
    SlotUsed(sb, ino, blk0, own, i, t);
    assert Used(sb, blk, Slot(ino[i], blk0, t)) <==> true;
  }

  lemma TruncBit(sb: Super, ino: seq<Inode>, blk0: seq<Block>, blk: seq<Block>, own: map<nat, Own>, i: nat, t: nat,
                 b: nat, c: nat)
    requires Inv(sb, ino, blk0, own) && i < |ino| && t <= IND && |blk| == |blk0|
    requires b == Slot(ino[i], blk0, t) != 0 && sb.dataStart <= b < sb.size && b in own && own[b] == At(i, t)
    requires c < sb.size && Bblock(sb, b) < |blk|
    requires Used(sb, blk, c) <==> c < sb.dataStart || (c in own && !Mine(own[c], i, t))
    ensures Used(sb, Marked(sb, blk, b, false), c) <==> c < sb.dataStart || (c in own && !Mine(own[c], i, t + 1))
  {
    BitmapBlock(sb, c);
    MarkedBits(sb, blk, b, false, c);
    if c in own { assert OwnedOk(sb, ino, blk0, c, own[c]); }
  }

  lemma TruncFree(sb: Super, ino: seq<Inode>, blk0: seq<Block>, blk: seq<Block>, own: map<nat, Own>, i: nat, t: nat,
                  b: nat)
    requires Inv(sb, ino, blk0, own) && i < |ino| && t <= IND && Truncating(sb, blk0, blk, own, i, t)
    requires b == Slot(ino[i], blk0, t) != 0 && b < sb.size && Bblock(sb, b) < |blk|
    ensures Truncating(sb, blk0, Marked(sb, blk, b, false), own, i, t + 1)
  {
    SlotUsed(sb, ino, blk0, own, i, t);
    BitmapBlock(sb, b);
    var blk' := Marked(sb, blk, b, false);
    forall c: nat | c < sb.size
      ensures Used(sb, blk', c) <==> c < sb.dataStart || (c in own && !Mine(own[c], i, t + 1))
    {
      TruncBit(sb, ino, blk0, blk, own, i, t, b, c);
    }
  }

  /** Without an indirect block the remaining slots are all empty. */
  lemma TruncNoIndirect(sb: Super, ino: seq<Inode>, blk0: seq<Block>, blk: seq<Block>, own: map<nat, Own>, i: nat)
    requires Inv(sb, ino, blk0, own) && i < |ino| && Truncating(sb, blk0, blk, own, i, NDIRECT) &&
             ino[i].addrs[NDIRECT] == 0
    ensures Truncating(sb, blk0, blk, own, i, IND + 1)
  {
    forall b: nat | b < sb.size
      ensures Used(sb, blk, b) <==> b < sb.dataStart || (b in own && !Mine(own[b], i, IND + 1))
    {
      assert Used(sb, blk, b) <==> b < sb.dataStart || (b in own && !Mine(own[b], i, NDIRECT));
      if b in own { assert OwnedOk(sb, ino, blk0, b, own[b]); }
    }
  }

  ghost function Without(own: map<nat, Own>, i: nat): map<nat, Own> {
    map b | b in own && !(own[b].At? && own[b].i == i) :: own[b]
  }

  /** With every slot freed, an empty inode i and the other inodes own exactly what is left. */
  lemma TruncDone(sb: Super, ino: seq<Inode>, blk0: seq<Block>, blk: seq<Block>, own: map<nat, Own>, i: nat)
    requires Inv(sb, ino, blk0, own) && i < |ino| && Truncating(sb, blk0, blk, own, i, IND + 1)
    ensures Inv(sb, ino[i := Emptied()], blk, Without(own, i))
    ensures forall j: nat, l: nat {:trigger Slot(ino[j], blk, l)} :: j < |ino| && j != i && l <= IND ==>
              Slot(ino[j], blk, l) == Slot(ino[j], blk0, l)
  {
    var ino', own' := ino[i := Emptied()], Without(own, i);
    SameIndirectOutside(sb, ino, blk0, blk, own);
    SlotsFrame(sb, ino, blk0, blk, own);
    forall j: nat, l: nat | j < |ino'| && l <= IND ensures SlotOk(ino'[j], j, l, blk, own') {
      assert SlotOk(ino[j], j, l, blk, own);
    }
    forall b | b in own' ensures OwnedOk(sb, ino', blk, b, own'[b]) {
      assert OwnedOk(sb, ino, blk, b, own[b]);
    }
    forall b: nat | b < sb.size ensures Used(sb, blk, b) <==> b < sb.dataStart || b in own' {
      if b in own { assert OwnedOk(sb, ino, blk, b, own[b]); }
    }
  }

  lemma SameIndirectOutside(sb: Super, ino: seq<Inode>, blk: seq<Block>, blk': seq<Block>, own: map<nat, Own>)
    requires Inv(sb, ino, blk, own) && SameOutsideBitmap(sb, blk, blk')
    ensures SameIndirect(blk, blk', own)
  {
    forall b | b in own && b < |blk| ensures blk'[b] == blk[b] { assert OwnedOk(sb, ino, blk, b, own[b]); }
  }

  /** One bfree() of itrunc(). */
  method FreeSlot(f: Fs, i: nat, t: nat, b: nat, ghost ino0: seq<Inode>, ghost blk0: seq<Block>)
    requires Inv(f.sb, ino0, blk0, f.own) && i < |ino0| && t <= IND && Truncating(f.sb, blk0, f.blk, f.own, i, t)
    requires b == Slot(ino0[i], blk0, t) != 0
    modifies f`blk, f`logged
    ensures Truncating(f.sb, blk0, f.blk, f.own, i, t + 1)
  {
    TruncMarked(f.sb, ino0, blk0, f.blk, f.own, i, t);
    ghost var blk1 := f.blk;
    var ok := f.Bfree(b);
    TruncFree(f.sb, ino0, blk0, blk1, f.own, i, t, b);
  }

  /** The indirect part of itrunc(): the entries, then the indirect block. */
  method FreeIndirect(f: Fs, i: nat, ghost ino0: seq<Inode>, ghost blk0: seq<Block>)
    requires Inv(f.sb, ino0, blk0, f.own) && i < |ino0| == |f.ino| && Truncating(f.sb, blk0, f.blk, f.own, i, NDIRECT)
    requires f.ino[i].addrs[NDIRECT] == ino0[i].addrs[NDIRECT] != 0
    modifies f`blk, f`logged
    ensures Truncating(f.sb, blk0, f.blk, f.own, i, IND + 1)
  {
    var ind := f.ino[i].addrs[NDIRECT];
    SlotUsed(f.sb, ino0, blk0, f.own, i, IND);
    var a := f.blk[ind];
    assert a == blk0[ind];
    var j := 0;
    while j < NINDIRECT
      invariant 0 <= j <= NINDIRECT && Truncating(f.sb, blk0, f.blk, f.own, i, NDIRECT + j)
    {
      assert Word(a, j) == Slot(ino0[i], blk0, NDIRECT + j);
      if Word(a, j) != 0 {
        FreeSlot(f, i, NDIRECT + j, Word(a, j), ino0, blk0);
      } else {
        TruncSkip(f.sb, ino0, blk0, f.blk, f.own, i, NDIRECT + j);
      }
      j := j + 1;
    }
    FreeSlot(f, i, IND, ind, ino0, blk0);
  }

  /** The direct part of itrunc(): each address is freed, then set to 0. */
  method FreeDirect(f: Fs, i: nat, ghost ino0: seq<Inode>, ghost blk0: seq<Block>)
    requires Inv(f.sb, ino0, blk0, f.own) && i < |ino0| && f.ino == ino0 && Truncating(f.sb, blk0, f.blk, f.own, i, 0)
    modifies f`ino, f`blk, f`logged
    ensures Truncating(f.sb, blk0, f.blk, f.own, i, NDIRECT)
    ensures f.ino == ino0[i := ino0[i].(addrs := Emptied().addrs[NDIRECT := ino0[i].addrs[NDIRECT]])]
  {
    var k := 0;
    while k < NDIRECT
      invariant 0 <= k <= NDIRECT && |f.ino| == |ino0| && f.ino == ino0[i := f.ino[i]] && f.ino[i].size == ino0[i].size
      invariant forall l :: 0 <= l < k ==> f.ino[i].addrs[l] == 0
      invariant forall l :: k <= l <= NDIRECT ==> f.ino[i].addrs[l] == ino0[i].addrs[l]
      invariant Truncating(f.sb, blk0, f.blk, f.own, i, k)
    {
      var b := f.ino[i].addrs[k];
      if b != 0 {
        FreeSlot(f, i, k, b, ino0, blk0);
        f.ino := f.ino[i := WithAddr(f.ino[i], k, 0)];
      } else {
        TruncSkip(f.sb, ino0, blk0, f.blk, f.own, i, k);
      }
      k := k + 1;
    }
    assert f.ino[i].addrs == Emptied().addrs[NDIRECT := ino0[i].addrs[NDIRECT]];
  }

  /** itrunc(): releases exactly the blocks of inode i.  Other inodes keep their slots and every
      block outside the bitmap keeps its content. */
  method Itrunc(f: Fs, i: nat)
    requires f.Valid() && i < |f.ino|
    modifies f
    ensures f.Valid() && f.ino == old(f.ino)[i := Emptied()] && f.dino == old(f.dino)[i := Emptied()]
    ensures f.own == Without(old(f.own), i)
    ensures SameOutsideBitmap(f.sb, old(f.blk), f.blk)
    ensures forall j: nat, l: nat {:trigger Slot(f.ino[j], f.blk, l)} :: j < |f.ino| && j != i && l <= IND ==>
              Slot(f.ino[j], f.blk, l) == Slot(old(f.ino)[j], old(f.blk), l)
  {
    ghost var ino0, blk0 := f.ino, f.blk;
    TruncStart(f.sb, ino0, blk0, f.own, i);
    FreeDirect(f, i, ino0, blk0);
    if f.ino[i].addrs[NDIRECT] != 0 {
      FreeIndirect(f, i, ino0, blk0);
      f.ino := f.ino[i := WithAddr(f.ino[i], NDIRECT, 0)];
    } else {
      TruncNoIndirect(f.sb, ino0, blk0, f.blk, f.own, i);
    }
    f.ino := f.ino[i := f.ino[i].(size := 0)];
    assert f.ino[i].addrs == Emptied().addrs;
    assert f.ino == ino0[i := Emptied()];
    TruncDone(f.sb, ino0, blk0, f.blk, f.own, i);
    f.own := Without(f.own, i);
    f.Iupdate(i);
  }
}
