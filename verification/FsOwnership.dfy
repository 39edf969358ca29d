/** Which inode refers to which block.  Slots 0 to 267 of an inode are the blocks of its file
    (12 direct addresses, then the entries of the indirect block); slot IND is the indirect
    block itself.  `own` gives every allocated data block the one slot that refers to it. */
module FsOwnership {
  import opened FsBlocks

  const IND: nat := MAXFILE

  type Addrs = a: seq<nat> | |a| == NDIRECT + 1 witness seq(NDIRECT + 1, i => 0)
  datatype Inode = Inode(addrs: Addrs, size: nat)

  /** A slot of an inode, or a block that balloc() has returned and nobody refers to yet. */
  datatype Own = Loose | At(i: nat, k: nat)

  /** The block number in slot k, 0 if there is none. */
  function Slot(ip: Inode, blk: seq<Block>, k: nat): nat {
    if k < NDIRECT then ip.addrs[k]
    else if k >= IND then ip.addrs[NDIRECT]
    else if ip.addrs[NDIRECT] == 0 || ip.addrs[NDIRECT] >= |blk| then 0
    else Word(blk[ip.addrs[NDIRECT]], k - NDIRECT)
  }

  // ---------------------------------------------------------------- the invariant

  predicate SlotOk(ip: Inode, i: nat, k: nat, blk: seq<Block>, own: map<nat, Own>) {
    Slot(ip, blk, k) == 0 || (Slot(ip, blk, k) in own && own[Slot(ip, blk, k)] == At(i, k))
  }

  /** Every address in use is owned by the slot it is found in: no block is referred to twice. */
  ghost predicate SlotsOk(ino: seq<Inode>, blk: seq<Block>, own: map<nat, Own>) {
    forall i: nat, k: nat {:trigger SlotOk(ino[i], i, k, blk, own)} :: i < |ino| && k <= IND ==>
      SlotOk(ino[i], i, k, blk, own)
  }

  predicate OwnedOk(sb: Super, ino: seq<Inode>, blk: seq<Block>, b: nat, o: Own) {
    && sb.dataStart <= b < sb.size && b != 0
    && (o.At? ==> o.i < |ino| && o.k <= IND && Slot(ino[o.i], blk, o.k) == b)
  }

  /** Owned blocks lie in the data region, and are found where they are said to be. */
  ghost predicate OwnOk(sb: Super, ino: seq<Inode>, blk: seq<Block>, own: map<nat, Own>) {
    forall b {:trigger OwnedOk(sb, ino, blk, b, own[b])} :: b in own ==> OwnedOk(sb, ino, blk, b, own[b])
  }

  predicate Shape(sb: Super, blk: seq<Block>) {
    sb.Valid() && |blk| == sb.size
  }

  /** The bitmap marks the metadata blocks and the owned blocks and no others. */
  ghost predicate BitsOk(sb: Super, blk: seq<Block>, own: map<nat, Own>)
    requires Shape(sb, blk)
  {
    forall b: nat {:trigger Used(sb, blk, b)} :: b < sb.size ==> (Used(sb, blk, b) <==> b < sb.dataStart || b in own)
  }

  ghost predicate Inv(sb: Super, ino: seq<Inode>, blk: seq<Block>, own: map<nat, Own>) {
    Shape(sb, blk) && SlotsOk(ino, blk, own) && OwnOk(sb, ino, blk, own) && BitsOk(sb, blk, own)
  }

  // ---------------------------------------------------------------- what the invariant means

  /** Two slots never hold the same block. */
  lemma OneSlot(sb: Super, ino: seq<Inode>, blk: seq<Block>, own: map<nat, Own>, i: nat, k: nat, j: nat, l: nat)
    requires Inv(sb, ino, blk, own) && i < |ino| && j < |ino| && k <= IND && l <= IND && (i, k) != (j, l)
    ensures Slot(ino[i], blk, k) == 0 || Slot(ino[i], blk, k) != Slot(ino[j], blk, l)
  {
    assert SlotOk(ino[i], i, k, blk, own);
    assert SlotOk(ino[j], j, l, blk, own);
  }

  /** A block in use lies in the data region and its bitmap bit is set. */
  lemma SlotUsed(sb: Super, ino: seq<Inode>, blk: seq<Block>, own: map<nat, Own>, i: nat, k: nat)
    requires Inv(sb, ino, blk, own) && i < |ino| && k <= IND && Slot(ino[i], blk, k) != 0
    ensures var b := Slot(ino[i], blk, k);
            sb.dataStart <= b < sb.size && Used(sb, blk, b) && b in own && own[b] == At(i, k)
  {
    assert SlotOk(ino[i], i, k, blk, own);
    var b := Slot(ino[i], blk, k);
    assert OwnedOk(sb, ino, blk, b, own[b]);
  }

  // ---------------------------------------------------------------- changes of blocks

  /** The blocks that hold indirect entries are the same in both. */
  ghost predicate SameIndirect(blk: seq<Block>, blk': seq<Block>, own: map<nat, Own>) {
    && |blk'| == |blk|
    && forall b :: b in own && own[b].At? && own[b].k == IND && b < |blk| ==> blk'[b] == blk[b]
  }

  lemma SlotFrame(ip: Inode, i: nat, k: nat, blk: seq<Block>, blk': seq<Block>, own: map<nat, Own>)
    requires SlotOk(ip, i, IND, blk, own) && SameIndirect(blk, blk', own)
    ensures Slot(ip, blk', k) == Slot(ip, blk, k)
  {
  }

  /** Blocks that hold no indirect entries can change freely. */
  lemma SlotsFrame(sb: Super, ino: seq<Inode>, blk: seq<Block>, blk': seq<Block>, own: map<nat, Own>)
    requires SlotsOk(ino, blk, own) && OwnOk(sb, ino, blk, own) && SameIndirect(blk, blk', own)
    ensures SlotsOk(ino, blk', own) && OwnOk(sb, ino, blk', own)
    ensures forall i: nat, k: nat {:trigger Slot(ino[i], blk', k)} :: i < |ino| && k <= IND ==>
              Slot(ino[i], blk', k) == Slot(ino[i], blk, k)
  {
    forall i: nat, k: nat | i < |ino| && k <= IND
      ensures Slot(ino[i], blk', k) == Slot(ino[i], blk, k) && SlotOk(ino[i], i, k, blk', own)
    {
      assert SlotOk(ino[i], i, IND, blk, own);
      assert SlotOk(ino[i], i, k, blk, own);
      SlotFrame(ino[i], i, k, blk, blk', own);
    }
    forall b | b in own ensures OwnedOk(sb, ino, blk', b, own[b]) {
      assert OwnedOk(sb, ino, blk, b, own[b]);
    }
  }

  lemma BitmapBlock(sb: Super, b: nat)
    requires sb.Valid() && b < sb.size
    ensures sb.bmapStart <= Bblock(sb, b) < sb.dataStart
  {
    assert b / BPB <= sb.size / BPB;
  }

  lemma BitFrame(sb: Super, blk: seq<Block>, blk': seq<Block>, b: nat)
    requires Shape(sb, blk) && |blk'| == |blk| && b < sb.size
    requires forall b: nat {:trigger blk'[b]} :: sb.bmapStart <= b < sb.dataStart ==> blk'[b] == blk[b]
    ensures Bblock(sb, b) < |blk| && (Used(sb, blk', b) <==> Used(sb, blk, b))
  {
    BitmapBlock(sb, b);
    assert blk'[Bblock(sb, b)] == blk[Bblock(sb, b)];
  }

  lemma BitsFrame(sb: Super, blk: seq<Block>, blk': seq<Block>, own: map<nat, Own>)
    requires Shape(sb, blk) && |blk'| == |blk| && BitsOk(sb, blk, own)
    requires forall b: nat {:trigger blk'[b]} :: sb.bmapStart <= b < sb.dataStart ==> blk'[b] == blk[b]
    ensures BitsOk(sb, blk', own)
  {
    forall b: nat | b < sb.size
      ensures Bblock(sb, b) < |blk'| && (Used(sb, blk', b) <==> b < sb.dataStart || b in own)
    {
      BitFrame(sb, blk, blk', b);
    }
  }

  /** Writing a data block keeps everything in place. */
  lemma DataWrite(sb: Super, ino: seq<Inode>, blk: seq<Block>, own: map<nat, Own>, b: nat, v: Block)
    requires Inv(sb, ino, blk, own) && b in own && (own[b].At? ==> own[b].k != IND)
    ensures b < |blk| && Inv(sb, ino, blk[b := v], own)
    ensures forall i: nat, k: nat :: i < |ino| && k <= IND ==> Slot(ino[i], blk[b := v], k) == Slot(ino[i], blk, k)
  {
    assert OwnedOk(sb, ino, blk, b, own[b]);
    SlotsFrame(sb, ino, blk, blk[b := v], own);
    BitsFrame(sb, blk, blk[b := v], own);
  }

  /** What balloc() does: mark block b and zero it. */
  function Allocated(sb: Super, blk: seq<Block>, b: nat): (r: seq<Block>)
    requires Shape(sb, blk) && b < sb.size
    ensures |r| == |blk|
  {
    BitmapBlock(sb, b);
    Marked(sb, blk, b, true)[b := ZeroBlock()]
  }

  lemma MarkedBitsOk(sb: Super, blk: seq<Block>, own: map<nat, Own>, b: nat, o: Own)
    requires Shape(sb, blk) && BitsOk(sb, blk, own) && b < sb.size
    ensures Bblock(sb, b) < |blk| && BitsOk(sb, Marked(sb, blk, b, true), own[b := o])
  {
    BitmapBlock(sb, b);
    forall c: nat | c < sb.size
      ensures Bblock(sb, c) < |blk| && (Used(sb, Marked(sb, blk, b, true), c) <==> c == b || Used(sb, blk, c))
    {
      MarkedBit(sb, blk, b, c);
    }
  }

  lemma MarkedBit(sb: Super, blk: seq<Block>, b: nat, c: nat)
    requires Shape(sb, blk) && b < sb.size && c < sb.size && Bblock(sb, b) < |blk|
    ensures Bblock(sb, c) < |blk| && (Used(sb, Marked(sb, blk, b, true), c) <==> c == b || Used(sb, blk, c))
  {
    BitmapBlock(sb, c);
    MarkedBits(sb, blk, b, true, c);
  }

  lemma LooseOk(sb: Super, ino: seq<Inode>, blk: seq<Block>, own: map<nat, Own>, b: nat)
    requires SlotsOk(ino, blk, own) && OwnOk(sb, ino, blk, own) && b !in own && sb.dataStart <= b < sb.size && b != 0
    ensures SlotsOk(ino, blk, own[b := Loose]) && OwnOk(sb, ino, blk, own[b := Loose])
  {
    var own' := own[b := Loose];
    forall i: nat, k: nat | i < |ino| && k <= IND ensures SlotOk(ino[i], i, k, blk, own') {
      assert SlotOk(ino[i], i, k, blk, own);
    }
    forall c | c in own' ensures OwnedOk(sb, ino, blk, c, own'[c]) {
      if c != b { assert OwnedOk(sb, ino, blk, c, own[c]); }
    }
  }

  /** A free block becomes a zeroed block that nobody refers to yet. */
  lemma BallocOk(sb: Super, ino: seq<Inode>, blk: seq<Block>, own: map<nat, Own>, b: nat)
    requires Inv(sb, ino, blk, own) && b < sb.size && !Used(sb, blk, b)
    ensures b !in own && sb.dataStart <= b && b != 0
    ensures Inv(sb, ino, Allocated(sb, blk, b), own[b := Loose])
    ensures forall i: nat, k: nat :: i < |ino| && k <= IND ==>
              Slot(ino[i], Allocated(sb, blk, b), k) == Slot(ino[i], blk, k)
  {
    BitmapBlock(sb, b);
    var blk', own' := Allocated(sb, blk, b), own[b := Loose];
    LooseOk(sb, ino, blk, own, b);
    forall c | c in own' && own'[c].At? && own'[c].k == IND && c < |blk| ensures blk'[c] == blk[c] {
      assert OwnedOk(sb, ino, blk, c, own[c]);
    }
    SlotsFrame(sb, ino, blk, blk', own');
    MarkedBitsOk(sb, blk, own, b, Loose);
    BitsFrame(sb, Marked(sb, blk, b, true), blk', own');
  }

  // ---------------------------------------------------------------- attaching a block to a slot

  /** Exactly slot k of inode i changed, to b. */
  ghost predicate SlotSet(ino: seq<Inode>, blk: seq<Block>, ino': seq<Inode>, blk': seq<Block>, i: nat, k: nat,
                          b: nat) {
    && |ino'| == |ino| && i < |ino| && k <= IND
    && forall j: nat, l: nat {:trigger Slot(ino'[j], blk', l)} :: j < |ino| && l <= IND ==>
         Slot(ino'[j], blk', l) == if j == i && l == k then b else Slot(ino[j], blk, l)
  }

  lemma AttachOk(sb: Super, ino: seq<Inode>, blk: seq<Block>, own: map<nat, Own>, ino': seq<Inode>, blk': seq<Block>,
                 i: nat, k: nat, b: nat)
    requires Inv(sb, ino, blk, own) && b in own && own[b] == Loose && |blk'| == |blk|
    requires SlotSet(ino, blk, ino', blk', i, k, b) && Slot(ino[i], blk, k) == 0
    requires forall c :: sb.bmapStart <= c < sb.dataStart ==> blk'[c] == blk[c]
    ensures Inv(sb, ino', blk', own[b := At(i, k)])
  {
    var own' := own[b := At(i, k)];
    assert OwnedOk(sb, ino, blk, b, own[b]);
    forall j: nat, l: nat | j < |ino'| && l <= IND ensures SlotOk(ino'[j], j, l, blk', own') {
      assert SlotOk(ino[j], j, l, blk, own);
    }
    forall c | c in own' ensures OwnedOk(sb, ino', blk', c, own'[c]) {
      assert OwnedOk(sb, ino, blk, c, own[c]);
    }
    forall c: nat | c < sb.size ensures Used(sb, blk', c) <==> c < sb.dataStart || c in own' {
      BitmapBlock(sb, c);
      assert Used(sb, blk', c) <==> Used(sb, blk, c);
    }
  }

  function WithAddr(ip: Inode, a: nat, b: nat): Inode
    requires a <= NDIRECT
  {
    ip.(addrs := ip.addrs[a := b])
  }

  /** ip->addrs[bn] = b */
  lemma SetDirect(ino: seq<Inode>, blk: seq<Block>, i: nat, k: nat, b: nat)
    requires i < |ino| && k < NDIRECT
    ensures SlotSet(ino, blk, ino[i := WithAddr(ino[i], k, b)], blk, i, k, b)
  {
  }

  /** ip->addrs[NDIRECT] = b, a fresh block: its entries are all 0 because balloc zeroes blocks. */
  lemma SetIndirect(ino: seq<Inode>, blk: seq<Block>, i: nat, b: nat)
    requires i < |ino| && ino[i].addrs[NDIRECT] == 0 && 0 < b < |blk| && blk[b] == ZeroBlock()
    ensures SlotSet(ino, blk, ino[i := WithAddr(ino[i], NDIRECT, b)], blk, i, IND, b)
  {
  }

  /** a[bn] = b in the indirect block. */
  lemma SetEntry(sb: Super, ino: seq<Inode>, blk: seq<Block>, own: map<nat, Own>, i: nat, k: nat, b: nat)
    requires Inv(sb, ino, blk, own) && i < |ino| && NDIRECT <= k < IND && ino[i].addrs[NDIRECT] != 0 && b < U32
    ensures var ind := ino[i].addrs[NDIRECT];
            sb.dataStart <= ind < |blk| &&
            SlotSet(ino, blk, ino, blk[ind := WithWord(blk[ind], k - NDIRECT, b)], i, k, b)
  {
    var ind := ino[i].addrs[NDIRECT];
    SlotUsed(sb, ino, blk, own, i, IND);
    var blk' := blk[ind := WithWord(blk[ind], k - NDIRECT, b)];
    forall j: nat, l: nat | j < |ino| && l <= IND
      ensures Slot(ino[j], blk', l) == if j == i && l == k then b else Slot(ino[j], blk, l)
    {
      assert SlotOk(ino[j], j, IND, blk, own);
      if j == i && NDIRECT <= l < IND { WithWordWords(blk[ind], k - NDIRECT, b, l - NDIRECT); }
    }
  }

  // ---------------------------------------------------------------- what bmap() may change

  /** Data blocks that were owned keep their owner and their content. */
  ghost predicate KeepsData(blk: seq<Block>, own: map<nat, Own>, blk': seq<Block>, own': map<nat, Own>) {
    && |blk'| == |blk|
    && forall b :: b in own && own[b].At? && own[b].k != IND ==>
         b in own' && own'[b] == own[b] && b < |blk| && blk'[b] == blk[b]
  }

  ghost predicate SameInodes(ino: seq<Inode>, ino': seq<Inode>, i: nat) {
    && |ino'| == |ino| && i < |ino| && ino'[i].size == ino[i].size
    && forall j :: 0 <= j < |ino| && j != i ==> ino'[j] == ino[j]
  }

  /** Slot k of inode i got the fresh block b; no other slot and no data changed. */
  ghost predicate Grew(sb: Super, ino: seq<Inode>, blk: seq<Block>, own: map<nat, Own>,
                       ino': seq<Inode>, blk': seq<Block>, own': map<nat, Own>, i: nat, k: nat, b: nat) {
    && Inv(sb, ino', blk', own') && SameInodes(ino, ino', i)
    && SlotSet(ino, blk, ino', blk', i, k, b) && Slot(ino[i], blk, k) == 0
    && KeepsData(blk, own, blk', own')
    && 0 < b < |blk'| && blk'[b] == ZeroBlock()
  }

  lemma AllocatedKeeps(sb: Super, ino: seq<Inode>, blk: seq<Block>, own: map<nat, Own>, b: nat, o: Own)
    requires Inv(sb, ino, blk, own) && b < sb.size && !Used(sb, blk, b)
    ensures KeepsData(blk, own, Allocated(sb, blk, b), own[b := o])
    ensures Allocated(sb, blk, b)[b] == ZeroBlock()
  {
    BallocOk(sb, ino, blk, own, b);
    BitmapBlock(sb, b);
    var blk' := Allocated(sb, blk, b);
    forall c | c in own ensures c < |blk| && blk'[c] == blk[c] {
      assert OwnedOk(sb, ino, blk, c, own[c]);
    }
  }

  /** bmap() on a direct address that is 0, or on a missing indirect block. */
  lemma GrewAddr(sb: Super, ino: seq<Inode>, blk: seq<Block>, own: map<nat, Own>, i: nat, a: nat, b: nat)
    requires Inv(sb, ino, blk, own) && i < |ino| && a <= NDIRECT && ino[i].addrs[a] == 0
    requires b < sb.size && !Used(sb, blk, b)
    ensures var k := if a < NDIRECT then a else IND;
            Grew(sb, ino, blk, own, ino[i := WithAddr(ino[i], a, b)], Allocated(sb, blk, b), own[b := At(i, k)], i, k,
                 b)
  {
    var k := if a < NDIRECT then a else IND;
    var blk', own' := Allocated(sb, blk, b), own[b := Loose];
    BallocOk(sb, ino, blk, own, b);
    AllocatedKeeps(sb, ino, blk, own, b, At(i, k));
    if a < NDIRECT { SetDirect(ino, blk', i, a, b); } else { SetIndirect(ino, blk', i, b); }
    AttachOk(sb, ino, blk', own', ino[i := WithAddr(ino[i], a, b)], blk', i, k, b);
    assert own'[b := At(i, k)] == own[b := At(i, k)];
  }

  /** bmap() on an entry of the indirect block that is 0. */
  lemma GrewEntry(sb: Super, ino: seq<Inode>, blk: seq<Block>, own: map<nat, Own>, i: nat, k: nat, b: nat)
    requires Inv(sb, ino, blk, own) && i < |ino| && NDIRECT <= k < IND && ino[i].addrs[NDIRECT] != 0 &&
             Slot(ino[i], blk, k) == 0
    requires b < sb.size && !Used(sb, blk, b)
    ensures var blk1, ind := Allocated(sb, blk, b), ino[i].addrs[NDIRECT];
            ind < |blk| && ind != b && blk1[ind] == blk[ind]
            && Grew(sb, ino, blk, own, ino, blk1[ind := WithWord(blk1[ind], k - NDIRECT, b)], own[b := At(i, k)], i, k,
                    b)
  {
    var blk1, own1, ind := Allocated(sb, blk, b), own[b := Loose], ino[i].addrs[NDIRECT];
    BallocOk(sb, ino, blk, own, b);
    BitmapBlock(sb, b);
    SlotUsed(sb, ino, blk, own, i, IND);
    AllocatedKeeps(sb, ino, blk, own, b, At(i, k));
    SetEntry(sb, ino, blk1, own1, i, k, b);
    AttachOk(sb, ino, blk1, own1, ino, blk1[ind := WithWord(blk1[ind], k - NDIRECT, b)], i, k, b);
    assert own1[b := At(i, k)] == own[b := At(i, k)];
  }

  /** bmap(): slot bn of inode i is there afterwards; slots that were there, and all data, stay. */
  ghost predicate Mapped(sb: Super, ino: seq<Inode>, blk: seq<Block>, own: map<nat, Own>,
                         ino': seq<Inode>, blk': seq<Block>, own': map<nat, Own>, i: nat, bn: nat) {
    && Inv(sb, ino', blk', own') && SameInodes(ino, ino', i) && KeepsData(blk, own, blk', own')
    && bn < MAXFILE && Slot(ino'[i], blk', bn) != 0
    && (forall j: nat, l: nat {:trigger Slot(ino'[j], blk', l)} :: j < |ino| && l <= IND ==>
          Slot(ino'[j], blk', l) == Slot(ino[j], blk, l) ||
          (j == i && (l == bn || (l == IND && bn >= NDIRECT)) && Slot(ino[j], blk, l) == 0))
    && (Slot(ino[i], blk, bn) == 0 ==> Slot(ino'[i], blk', bn) < |blk'| && blk'[Slot(ino'[i], blk', bn)] == ZeroBlock())
  }

  lemma MappedAlready(sb: Super, ino: seq<Inode>, blk: seq<Block>, own: map<nat, Own>, i: nat, bn: nat)
    requires Inv(sb, ino, blk, own) && i < |ino| && bn < MAXFILE && Slot(ino[i], blk, bn) != 0
    ensures Mapped(sb, ino, blk, own, ino, blk, own, i, bn)
  {
    forall b | b in own ensures b < |blk| { assert OwnedOk(sb, ino, blk, b, own[b]); }
  }

  lemma MappedOnce(sb: Super, ino: seq<Inode>, blk: seq<Block>, own: map<nat, Own>,
                   ino': seq<Inode>, blk': seq<Block>, own': map<nat, Own>, i: nat, bn: nat, b: nat)
    requires Grew(sb, ino, blk, own, ino', blk', own', i, bn, b) && bn < MAXFILE
    ensures Mapped(sb, ino, blk, own, ino', blk', own', i, bn)
  {
    assert Slot(ino'[i], blk', bn) == b;
  }

  lemma MappedTwice(sb: Super, ino: seq<Inode>, blk: seq<Block>, own: map<nat, Own>,
                    ino1: seq<Inode>, blk1: seq<Block>, own1: map<nat, Own>,
                    ino': seq<Inode>, blk': seq<Block>, own': map<nat, Own>, i: nat, bn: nat, ind: nat, b: nat)
    requires Grew(sb, ino, blk, own, ino1, blk1, own1, i, IND, ind) && NDIRECT <= bn < MAXFILE
    requires Grew(sb, ino1, blk1, own1, ino', blk', own', i, bn, b)
    ensures Mapped(sb, ino, blk, own, ino', blk', own', i, bn)
  {
    assert Slot(ino'[i], blk', bn) == b;
    assert Slot(ino1[i], blk1, bn) == Slot(ino[i], blk, bn);
    forall j: nat, l: nat | j < |ino| && l <= IND
      ensures Slot(ino'[j], blk', l) == Slot(ino[j], blk, l) ||
              (j == i && (l == bn || (l == IND && bn >= NDIRECT)) && Slot(ino[j], blk, l) == 0)
    {
      assert Slot(ino1[j], blk1, l) == if j == i && l == IND then ind else Slot(ino[j], blk, l);
    }
  }
}
