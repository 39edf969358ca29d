/** The block allocator, bmap() and itrunc() of kernel/fs.c. */
module FileSystem {
  import opened Prelude
  import opened FsBlocks
  import opened FsOwnership

  /** Every block is marked in the bitmap. */
  ghost predicate Full(sb: Super, blk: seq<Block>) {
    Shape(sb, blk) && AllUsed(sb, blk, sb.size)
  }

  ghost predicate AllUsed(sb: Super, blk: seq<Block>, n: nat)
    requires Shape(sb, blk) && n <= sb.size
  {
    forall c: nat {:trigger Used(sb, blk, c)} :: c < n ==> Used(sb, blk, c)
  }

  lemma BitmapIndex(sb: Super, blk: seq<Block>, b: nat, bi: nat)
    requires Shape(sb, blk) && b % BPB == 0 && bi < BPB && b + bi < sb.size
    ensures Bblock(sb, b + bi) == Bblock(sb, b) < |blk| && (b + bi) % BPB == bi
    ensures Used(sb, blk, b + bi) <==> BitAt(blk[Bblock(sb, b)], bi)
  {
    BitmapBlock(sb, b);
    BitmapBlock(sb, b + bi);
    assert (b + bi) / BPB == b / BPB;
  }

  /** IBLOCK(i, sb) */
  function Iblock(sb: Super, i: nat): nat { sb.inodeStart + i / IPB }

  /** The blocks bmap() logs when it attaches block b to a slot and, for an entry, writes `ind`. */
  ghost function LoggedBy(sb: Super, b: nat): set<nat> { {Bblock(sb, b), b} }

  /** Every block whose content changed is in the transaction. */
  ghost predicate Kept(blk0: seq<Block>, blk: seq<Block>, log: set<nat>) {
    |blk| == |blk0| && forall b: nat {:trigger blk[b]} :: b < |blk| && b !in log ==> blk[b] == blk0[b]
  }

  lemma AllocKept(sb: Super, blk: seq<Block>, b: nat, log: set<nat>)
    requires Shape(sb, blk) && b < sb.size
    ensures Kept(blk, Allocated(sb, blk, b), log + LoggedBy(sb, b))
  {
    BitmapBlock(sb, b);
  }

  lemma KeptTrans(blk0: seq<Block>, blk1: seq<Block>, blk: seq<Block>, log1: set<nat>, log: set<nat>)
    requires Kept(blk0, blk1, log1) && Kept(blk1, blk, log) && log1 <= log
    ensures Kept(blk0, blk, log)
  {
  }

  /** An inode without blocks. */
  function Emptied(): Inode { Inode(seq(NDIRECT + 1, k => 0), 0) }

  /** balloc() of mkfs: a disk of zeros with the bits of the metadata blocks set. */
  method MarkedImage(sb: Super) returns (blk: seq<Block>)
    requires sb.Valid()
    ensures Shape(sb, blk) && forall c: nat {:trigger Used(sb, blk, c)} :: c < sb.size ==>
              (Used(sb, blk, c) <==> c < sb.dataStart)
  {
    blk := seq(sb.size, b => ZeroBlock());
    forall c: nat | c < sb.size ensures Bblock(sb, c) < |blk| && !Used(sb, blk, c) { NoBits(sb, blk, c); }
    var b := 0;
    while b < sb.dataStart
      invariant 0 <= b <= sb.dataStart && |blk| == sb.size
      invariant forall c: nat {:trigger Used(sb, blk, c)} :: c < sb.size ==>
                  Bblock(sb, c) < |blk| && (Used(sb, blk, c) <==> c < b)
    {
      BitmapBlock(sb, b);
      ghost var blk0 := blk;
      blk := Marked(sb, blk, b, true);
      forall c: nat | c < sb.size ensures Bblock(sb, c) < |blk| && (Used(sb, blk, c) <==> c < b + 1) {
        BitmapBlock(sb, c);
        MarkedBits(sb, blk0, b, true, c);
        assert Used(sb, blk0, c) <==> c < b;
      }
      b := b + 1;
    }
  }

  lemma NoBits(sb: Super, blk: seq<Block>, c: nat)
    requires sb.Valid() && blk == seq(sb.size, b => ZeroBlock()) && c < sb.size
    ensures Bblock(sb, c) < |blk| && !Used(sb, blk, c)
  {
    BitmapBlock(sb, c);
    ZeroBits(c % BPB % 8);
  }

  class Fs {
    const sb: Super
    var ino: seq<Inode>               // inodes in memory
    var dino: seq<Inode>              // inodes as iupdate() last wrote them
    var blk: seq<Block>
    ghost var own: map<nat, Own>
    ghost var logged: set<nat>        // blocks log_write() was called on in this transaction

    ghost predicate Valid()
      reads this
    {
      Inv(sb, ino, blk, own) && |dino| == |ino| <= sb.ninodes
    }

    /** What mkfs leaves: the bitmap marks the metadata blocks, all other blocks are free and every
        inode is empty. */
    constructor (sb: Super, ninodes: nat)
      requires sb.Valid() && ninodes <= sb.ninodes
      ensures Valid() && this.sb == sb && ino == dino == seq(ninodes, i => Emptied()) && own == map[]
    {
      var image := MarkedImage(sb);
      this.sb := sb;
      ino, dino := seq(ninodes, i => Emptied()), seq(ninodes, i => Emptied());
      blk, own, logged := image, map[], {};
    }

    /** balloc(): the first free block, marked and zeroed; None stands for the panic. */
    method Balloc() returns (r: Option<nat>)
      requires Shape(sb, blk)
      modifies this`blk, this`logged
      ensures r.None? ==> blk == old(blk) && logged == old(logged) && Full(sb, blk)
      ensures r.Some? ==> r.value < sb.size && !Used(sb, old(blk), r.value) && AllUsed(sb, old(blk), r.value)
      ensures r.Some? ==> blk == Allocated(sb, old(blk), r.value) && logged == old(logged) + LoggedBy(sb, r.value)
    {
      var b := 0;
      while b < sb.size
        invariant b % BPB == 0 && blk == old(blk) && logged == old(logged)
        invariant AllUsed(sb, blk, if b < sb.size then b else sb.size)
      {
        BitmapBlock(sb, b);
        var bp := blk[Bblock(sb, b)];
        var bi := 0;
        while bi < BPB && b + bi < sb.size
          invariant blk == old(blk) && logged == old(logged)
          invariant 0 <= bi <= BPB && b + bi <= sb.size && AllUsed(sb, blk, b + bi)
        {
          BitmapIndex(sb, blk, b, bi);
          if !BitAt(bp, bi) {
            blk := blk[Bblock(sb, b) := WithBitAt(bp, bi, true)];
            logged := logged + {Bblock(sb, b)};
            blk := blk[b + bi := ZeroBlock()];
            logged := logged + {b + bi};
            return Some(b + bi);
          }
          bi := bi + 1;
        }
        b := b + BPB;
      }
      return None;
    }

    /** bfree(): clears the bit of a marked block; false stands for the "freeing free block" panic. */
    method Bfree(b: nat) returns (ok: bool)
      requires Shape(sb, blk) && b < sb.size
      modifies this`blk, this`logged
      ensures ok <==> Used(sb, old(blk), b)
      ensures Bblock(sb, b) < |old(blk)| && blk == if ok then Marked(sb, old(blk), b, false) else old(blk)
      ensures logged == old(logged) + (if ok then {Bblock(sb, b)} else {})
    {
      BitmapBlock(sb, b);
      var bp := blk[Bblock(sb, b)];
      var bi := b % BPB;
      if !BitAt(bp, bi) {
        return false;
      }
      blk := blk[Bblock(sb, b) := WithBitAt(bp, bi, false)];
      logged := logged + {Bblock(sb, b)};
      return true;
    }

    /** iupdate(): the in-memory inode to its place on disk. */
    method Iupdate(i: nat)
      requires i < |ino| == |dino|
      modifies this`dino, this`logged
      ensures dino == old(dino)[i := ino[i]] && logged == old(logged) + {Iblock(sb, i)}
    {
      dino := dino[i := ino[i]];
      logged := logged + {Iblock(sb, i)};
    }

    /** bmap() on a direct address. */
    method BmapDirect(i: nat, bn: nat) returns (r: Option<nat>)
      requires Valid() && i < |ino| && bn < NDIRECT
      modifies this`ino, this`blk, this`own, this`logged
      ensures r.None? ==> Full(sb, blk) && blk == old(blk) && Slot(old(ino)[i], old(blk), bn) == 0
      ensures |ino| == |old(ino)|
      ensures r.Some? ==>
                r.value == Slot(ino[i], blk, bn) && Mapped(sb, old(ino), old(blk), old(own), ino, blk, own, i, bn)
      ensures r.Some? && Slot(old(ino)[i], old(blk), bn) != 0 ==> ino == old(ino) && blk == old(blk) && own == old(own)
      ensures r.Some? ==>
                logged == old(logged) + (if Slot(old(ino)[i], old(blk), bn) != 0 then {} else LoggedBy(sb, r.value))
      ensures Kept(old(blk), blk, logged)
    {
      var addr := ino[i].addrs[bn];
      if addr == 0 {
        var n := Balloc();
        if n.None? {
          return None;
        }
        addr := n.value;
        AllocKept(sb, old(blk), addr, old(logged));
        GrewAddr(sb, ino, old(blk), own, i, bn, addr);
        ino := ino[i := WithAddr(ino[i], bn, addr)];
        own := own[addr := At(i, bn)];
        MappedOnce(sb, old(ino), old(blk), old(own), ino, blk, own, i, bn, addr);
        assert Slot(ino[i], blk, bn) == addr;
      } else {
        MappedAlready(sb, ino, blk, own, i, bn);
      }
      return Some(addr);
    }

    /** The first half of bmap() on an indirect address: the indirect block is there. */
    method LoadIndirect(i: nat) returns (r: Option<nat>)
      requires Valid() && i < |ino|
      modifies this`ino, this`blk, this`own, this`logged
      ensures r.None? ==> Full(sb, blk) && old(ino)[i].addrs[NDIRECT] == 0
      ensures |ino| == |old(ino)|
      ensures r.Some? ==> r.value == ino[i].addrs[NDIRECT] != 0
      ensures r.Some? && old(ino)[i].addrs[NDIRECT] != 0 ==>
                ino == old(ino) && blk == old(blk) && own == old(own) && logged == old(logged)
      ensures r.Some? && old(ino)[i].addrs[NDIRECT] == 0 ==>
                Grew(sb, old(ino), old(blk), old(own), ino, blk, own, i, IND, r.value)
      ensures r.Some? && old(ino)[i].addrs[NDIRECT] == 0 ==> logged == old(logged) + LoggedBy(sb, r.value)
      ensures Kept(old(blk), blk, logged)
    {
      var ind := ino[i].addrs[NDIRECT];
      if ind == 0 {
        var n := Balloc();
        if n.None? {
          return None;
        }
        ind := n.value;
        AllocKept(sb, old(blk), ind, old(logged));
        GrewAddr(sb, ino, old(blk), own, i, NDIRECT, ind);
        ino := ino[i := WithAddr(ino[i], NDIRECT, ind)];
        own := own[ind := At(i, IND)];
      }
      return Some(ind);
    }

    /** The second half: the entry in the indirect block. */
    method BmapEntry(i: nat, bn: nat, ind: nat) returns (r: Option<nat>)
      requires Valid() && i < |ino| && NDIRECT <= bn < MAXFILE && ind == ino[i].addrs[NDIRECT] != 0
      modifies this`blk, this`own, this`logged
      ensures r.None? ==> Full(sb, blk) && Slot(ino[i], old(blk), bn) == 0
      ensures r.Some? ==> r.value == Slot(ino[i], blk, bn) != 0
      ensures old(logged) <= logged
      ensures r.Some? && Slot(ino[i], old(blk), bn) != 0 ==> blk == old(blk) && own == old(own) && logged == old(logged)
      ensures r.Some? && Slot(ino[i], old(blk), bn) == 0 ==>
                Grew(sb, ino, old(blk), old(own), ino, blk, own, i, bn, r.value)
      ensures r.Some? && Slot(ino[i], old(blk), bn) == 0 ==> logged == old(logged) + LoggedBy(sb, r.value) + {ind}
      ensures Kept(old(blk), blk, logged)
    {
      SlotUsed(sb, ino, blk, own, i, IND);
      var addr := Word(blk[ind], bn - NDIRECT);
      if addr == 0 {
        var n := Balloc();
        if n.None? {
          return None;
        }
        addr := n.value;
        AllocKept(sb, old(blk), addr, old(logged));
        GrewEntry(sb, ino, old(blk), own, i, bn, addr);
        blk := blk[ind := WithWord(blk[ind], bn - NDIRECT, addr)];
        logged := logged + {ind};
        own := own[addr := At(i, bn)];
        assert Slot(ino[i], blk, bn) == addr;
      }
      return Some(addr);
    }

    /** The blocks that bmap() may add to the transaction. */
    ghost function BmapLogs(b: nat, ind: nat): set<nat> {
      LoggedBy(sb, b) + (if ind == 0 then {} else LoggedBy(sb, ind))
    }

    /** bmap(): the address of block bn of inode i, allocated if it was missing.  None stands for
        a panic: bn out of range, or no free block left. */
    method Bmap(i: nat, bn: nat) returns (r: Option<nat>)
      requires Valid() && i < |ino|
      modifies this`ino, this`blk, this`own, this`logged
      ensures |ino| == |old(ino)|
      ensures r.None? ==> bn >= MAXFILE || (Full(sb, blk) && Slot(old(ino)[i], old(blk), bn) == 0)
      ensures r.None? && bn < NDIRECT ==> blk == old(blk)
      ensures r.Some? ==>
                r.value == Slot(ino[i], blk, bn) && Mapped(sb, old(ino), old(blk), old(own), ino, blk, own, i, bn)
      ensures r.Some? && Slot(old(ino)[i], old(blk), bn) != 0 ==>
                ino == old(ino) && blk == old(blk) && own == old(own) && logged == old(logged)
      ensures r.Some? ==> old(logged) <= logged <= old(logged) + BmapLogs(r.value, ino[i].addrs[NDIRECT])
      ensures r.Some? && Slot(old(ino)[i], old(blk), bn) == 0 ==> r.value in logged
      ensures Kept(old(blk), blk, logged)
    {
      if bn < NDIRECT {
        r := BmapDirect(i, bn);
        return;
      }
      if bn - NDIRECT < NINDIRECT {
        var ind := LoadIndirect(i);
        if ind.None? {
          return None;
        }
        ghost var ino1, blk1, own1, log1 := ino, blk, own, logged;
        if old(ino)[i].addrs[NDIRECT] == 0 { assert Slot(ino1[i], blk1, bn) == Slot(old(ino)[i], old(blk), bn); }
        r := BmapEntry(i, bn, ind.value);
        KeptTrans(old(blk), blk1, blk, log1, logged);
        if r.Some? {
          if old(ino)[i].addrs[NDIRECT] != 0 {
            if Slot(ino[i], old(blk), bn) == 0 {
              MappedOnce(sb, old(ino), old(blk), old(own), ino, blk, own, i, bn, r.value);
            } else {
              MappedAlready(sb, ino, blk, own, i, bn);
            }
          } else {
            assert Slot(ino1[i], blk1, bn) == 0;
            MappedTwice(sb, old(ino), old(blk), old(own), ino1, blk1, own1, ino, blk, own, i, bn, ind.value, r.value);
          }
        }
        return;
      }
      return None;
    }
  }
}
