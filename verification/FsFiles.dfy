/** File contents: readi(), writei() and the chunk loop of filewrite(). */
module FsFiles {
  import opened Prelude
  import opened FsBlocks
  import opened FsOwnership
  import opened FileSystem
  import LogFormat

  const MAXBYTES: nat := 274432    // MAXFILE * BSIZE

  /** Byte o of a file; a hole reads as zeros. */
  function ByteAt(ip: Inode, blk: seq<Block>, o: nat): Byte {
    var b := Slot(ip, blk, o / BSIZE);
    if b == 0 || b >= |blk| then 0 else blk[b][o % BSIZE]
  }

  ghost function Contents(ip: Inode, blk: seq<Block>): (c: seq<Byte>)
    ensures |c| == ip.size && forall o :: 0 <= o < ip.size ==> c[o] == ByteAt(ip, blk, o)
  {
    seq(ip.size, o requires 0 <= o < ip.size => ByteAt(ip, blk, o))
  }

  /** Every block below the size is there. */
  ghost predicate HoleFree(ip: Inode, blk: seq<Block>) {
    ip.size <= MAXBYTES && forall l: nat {:trigger Slot(ip, blk, l)} :: l * BSIZE < ip.size ==> Slot(ip, blk, l) != 0
  }

  // ---------------------------------------------------------------- bmap() and contents

  /** bmap() changes no byte of any file: the block it adds reads as the hole did. */
  lemma MappedByte(sb: Super, ino: seq<Inode>, blk: seq<Block>, own: map<nat, Own>,
                   ino': seq<Inode>, blk': seq<Block>, own': map<nat, Own>, i: nat, bn: nat, j: nat, o: nat)
    requires Inv(sb, ino, blk, own) && Mapped(sb, ino, blk, own, ino', blk', own', i, bn) && j < |ino| && o < MAXBYTES
    ensures ByteAt(ino'[j], blk', o) == ByteAt(ino[j], blk, o)
  {
    var l := o / BSIZE;
    assert SlotOk(ino[j], j, l, blk, own);
    assert Slot(ino'[j], blk', l) == Slot(ino[j], blk, l) || (j == i && l == bn && Slot(ino[j], blk, l) == 0);
  }

  /** Writing the block of slot bn changes the bytes of that block and no others. */
  lemma StoredByte(sb: Super, ino: seq<Inode>, blk: seq<Block>, own: map<nat, Own>, i: nat, bn: nat, v: Block, j: nat,
                   o: nat)
    requires Inv(sb, ino, blk, own) && i < |ino| && j < |ino| && bn < MAXFILE && o < MAXBYTES &&
             Slot(ino[i], blk, bn) != 0
    ensures var b := Slot(ino[i], blk, bn);
            b < |blk| && ByteAt(ino[j], blk[b := v], o) == if j == i && o / BSIZE == bn then v[o % BSIZE]
            else ByteAt(ino[j], blk, o)
  {
    SlotUsed(sb, ino, blk, own, i, bn);
    var b := Slot(ino[i], blk, bn);
    DataWrite(sb, ino, blk, own, b, v);
    assert Slot(ino[j], blk[b := v], o / BSIZE) == Slot(ino[j], blk, o / BSIZE);
    if j != i || o / BSIZE != bn { OneSlot(sb, ino, blk, own, i, bn, j, o / BSIZE); }
  }

  // ---------------------------------------------------------------- the loop of writei()

  /** The bytes: `tot` bytes of data are at off, everything else is as it was. */
  ghost predicate Bytes(ino0: seq<Inode>, blk0: seq<Block>, ino: seq<Inode>, blk: seq<Block>, i: nat, off: nat,
                        tot: nat, data: seq<Byte>)
    requires |ino| == |ino0| && tot <= |data|
  {
    forall j: nat, o: nat {:trigger ByteAt(ino[j], blk, o)} :: j < |ino| && o < MAXBYTES ==>
      ByteAt(ino[j], blk, o) == if j == i && off <= o < off + tot then data[o - off] else ByteAt(ino0[j], blk0, o)
  }

  /** The slots: none is lost, other inodes keep theirs, the written range is covered. */
  ghost predicate Covers(ino0: seq<Inode>, blk0: seq<Block>, ino: seq<Inode>, blk: seq<Block>, i: nat, off: nat,
                         tot: nat)
    requires |ino| == |ino0|
  {
    && (forall j: nat, l: nat {:trigger Slot(ino[j], blk, l)} ::
        j < |ino| && l <= IND && (j != i || Slot(ino0[j], blk0, l) != 0) ==>
          Slot(ino[j], blk, l) == Slot(ino0[j], blk0, l))
    && (i < |ino| ==>
          forall l: nat {:trigger Slot(ino[i], blk, l)} :: l < IND && off < (l + 1) * BSIZE && l * BSIZE < off + tot ==>
          Slot(ino[i], blk, l) != 0)
  }

  ghost predicate Writing(sb: Super, ino0: seq<Inode>, blk0: seq<Block>, ino: seq<Inode>, blk: seq<Block>,
                          own: map<nat, Own>,
                          i: nat, off: nat, tot: nat, data: seq<Byte>) {
    && Inv(sb, ino, blk, own) && SameInodes(ino0, ino, i) && tot <= |data| && off + tot <= MAXBYTES
    && Bytes(ino0, blk0, ino, blk, i, off, tot, data) && Covers(ino0, blk0, ino, blk, i, off, tot)
  }

  lemma WriteMapped(sb: Super, ino0: seq<Inode>, blk0: seq<Block>, ino: seq<Inode>, blk: seq<Block>, own: map<nat, Own>,
                    ino': seq<Inode>, blk': seq<Block>, own': map<nat, Own>, i: nat, bn: nat, off: nat, tot: nat,
                    data: seq<Byte>)
    requires Writing(sb, ino0, blk0, ino, blk, own, i, off, tot, data) &&
             Mapped(sb, ino, blk, own, ino', blk', own', i, bn)
    ensures Writing(sb, ino0, blk0, ino', blk', own', i, off, tot, data)
  {
    forall j: nat, o: nat | j < |ino'| && o < MAXBYTES
      ensures ByteAt(ino'[j], blk', o) == if j == i &&
              off <= o < off + tot then data[o - off] else ByteAt(ino0[j], blk0, o)
    {
      MappedByte(sb, ino, blk, own, ino', blk', own', i, bn, j, o);
      assert ByteAt(ino[j], blk, o) == if j == i &&
             off <= o < off + tot then data[o - off] else ByteAt(ino0[j], blk0, o);
    }
    MappedCovers(sb, ino0, blk0, ino, blk, own, ino', blk', own', i, bn, off, tot);
  }

  lemma MappedCovers(sb: Super, ino0: seq<Inode>, blk0: seq<Block>, ino: seq<Inode>, blk: seq<Block>,
                     own: map<nat, Own>, ino': seq<Inode>, blk': seq<Block>, own': map<nat, Own>,
                     i: nat, bn: nat, off: nat, tot: nat)
    requires |ino| == |ino0| && Covers(ino0, blk0, ino, blk, i, off, tot) &&
             Mapped(sb, ino, blk, own, ino', blk', own', i, bn)
    ensures Covers(ino0, blk0, ino', blk', i, off, tot)
  {
    forall j: nat, l: nat | j < |ino'| && l <= IND && (j != i || Slot(ino0[j], blk0, l) != 0)
      ensures Slot(ino'[j], blk', l) == Slot(ino0[j], blk0, l)
    {
      assert Slot(ino[j], blk, l) == Slot(ino0[j], blk0, l);
    }
    forall l: nat | l < IND && off < (l + 1) * BSIZE && l * BSIZE < off + tot ensures Slot(ino'[i], blk', l) != 0 {
      assert Slot(ino[i], blk, l) != 0;
    }
  }

  /** memmove into a buffer at offset o. */
  function Copied(b: Block, o: nat, d: seq<Byte>): (r: Block)
    requires o + |d| <= BSIZE
    ensures forall k :: 0 <= k < BSIZE ==> r[k] == if o <= k < o + |d| then d[k - o] else b[k]
  {
    b[..o] + d + b[o + |d|..]
  }

  lemma CopiedByte(off: nat, tot: nat, m: nat, o: nat)
    requires (off + tot) % BSIZE + m <= BSIZE
    ensures o / BSIZE == (off + tot) / BSIZE && (off + tot) % BSIZE <= o % BSIZE < (off + tot) % BSIZE + m <==>
              off + tot <= o < off + tot + m
    ensures off + tot <= o < off + tot + m ==> o % BSIZE - (off + tot) % BSIZE == o - (off + tot)
  {
  }

  lemma WriteCopied(sb: Super, ino0: seq<Inode>, blk0: seq<Block>, ino: seq<Inode>, blk: seq<Block>, own: map<nat, Own>,
                    i: nat, off: nat, tot: nat, data: seq<Byte>, m: nat, b: nat)
    requires Writing(sb, ino0, blk0, ino, blk, own, i, off, tot, data) && off + tot < MAXBYTES &&
             off + tot + m <= MAXBYTES
    requires tot + m <= |data| && (off + tot) % BSIZE + m <= BSIZE
    requires b == Slot(ino[i], blk, (off + tot) / BSIZE) != 0 && b < |blk|
    ensures Writing(sb, ino0, blk0, ino, blk[b := Copied(blk[b], (off + tot) % BSIZE, data[tot..tot + m])], own, i,
                    off, tot + m, data)
  {
    var bn, s, d := (off + tot) / BSIZE, (off + tot) % BSIZE, data[tot..tot + m];
    var v := Copied(blk[b], s, d);
    var blk' := blk[b := v];
    SlotUsed(sb, ino, blk, own, i, bn);
    DataWrite(sb, ino, blk, own, b, v);
    forall j: nat, o: nat | j < |ino| && o < MAXBYTES
      ensures ByteAt(ino[j], blk', o) == if j == i &&
              off <= o < off + (tot + m) then data[o - off] else ByteAt(ino0[j], blk0, o)
    {
      StoredByte(sb, ino, blk, own, i, bn, v, j, o);
      CopiedByte(off, tot, m, o);
      assert ByteAt(ino[j], blk, o) == if j == i &&
             off <= o < off + tot then data[o - off] else ByteAt(ino0[j], blk0, o);
    }
    CopiedCovers(ino0, blk0, ino, blk, blk', i, off, tot, m);
  }

  lemma CopiedCovers(ino0: seq<Inode>, blk0: seq<Block>, ino: seq<Inode>, blk: seq<Block>, blk': seq<Block>, i: nat,
                     off: nat, tot: nat, m: nat)
    requires |ino| == |ino0| && i < |ino| && Covers(ino0, blk0, ino, blk, i, off, tot)
    requires forall j: nat, l: nat {:trigger Slot(ino[j], blk', l)} :: j < |ino| && l <= IND ==>
               Slot(ino[j], blk', l) == Slot(ino[j], blk, l)
    requires Slot(ino[i], blk, (off + tot) / BSIZE) != 0 && (off + tot) % BSIZE + m <= BSIZE
    ensures Covers(ino0, blk0, ino, blk', i, off, tot + m)
  {
    forall l: nat | l < IND && off < (l + 1) * BSIZE && l * BSIZE < off + (tot + m) ensures Slot(ino[i], blk', l) != 0 {
      if l * BSIZE >= off + tot { assert l == (off + tot) / BSIZE; }
      assert Slot(ino[i], blk, l) != 0;
    }
    forall j: nat, l: nat | j < |ino| && l <= IND && (j != i || Slot(ino0[j], blk0, l) != 0)
      ensures Slot(ino[j], blk', l) == Slot(ino0[j], blk0, l)
    {
      assert Slot(ino[j], blk, l) == Slot(ino0[j], blk0, l);
    }
  }

  // ---------------------------------------------------------------- after the loop

  /** The file with data written at off. */
  function Written(c: seq<Byte>, off: nat, data: seq<Byte>): seq<Byte>
    requires off <= |c|
  {
    c[..off] + data + (if off + |data| <= |c| then c[off + |data|..] else [])
  }

  function Resized(ip: Inode, size: nat): Inode { ip.(size := size) }

  function NewSize(size: nat, off: nat): nat { if off > size then off else size }

  lemma ResizeOk(sb: Super, ino: seq<Inode>, blk: seq<Block>, own: map<nat, Own>, i: nat, size: nat)
    requires Inv(sb, ino, blk, own) && i < |ino|
    ensures Inv(sb, ino[i := Resized(ino[i], size)], blk, own)
  {
    var ino' := ino[i := Resized(ino[i], size)];
    forall j: nat, l: nat | j < |ino'| && l <= IND ensures SlotOk(ino'[j], j, l, blk, own) {
      assert SlotOk(ino[j], j, l, blk, own);
    }
    forall b | b in own ensures OwnedOk(sb, ino', blk, b, own[b]) {
      assert OwnedOk(sb, ino, blk, b, own[b]);
    }
  }

  /** The file after a write of which `tot` bytes were counted and `avail` bytes reached the buffers. */
  function Torn(c: seq<Byte>, off: nat, data: seq<Byte>, tot: nat, avail: nat): seq<Byte>
    requires off <= |c| && tot <= avail <= |data|
  {
    Written(c, off, data[..avail])[..NewSize(|c|, off + tot)]
  }

  /** All bytes that reached the buffers are counted. */
  lemma TornWhole(c: seq<Byte>, off: nat, data: seq<Byte>, tot: nat)
    requires off <= |c| && tot <= |data|
    ensures Torn(c, off, data, tot, tot) == Written(c, off, data[..tot])
  {
  }

  lemma WrittenContents(sb: Super, ino0: seq<Inode>, blk0: seq<Block>, ino: seq<Inode>, blk: seq<Block>,
                        own: map<nat, Own>, i: nat, off: nat, data: seq<Byte>, tot: nat, avail: nat, ip: Inode)
    requires Writing(sb, ino0, blk0, ino, blk, own, i, off, avail, data) && HoleFree(ino0[i], blk0) &&
             off <= ino0[i].size && tot <= avail
    requires ip == Resized(ino[i], NewSize(ino[i].size, off + tot))
    ensures Contents(ip, blk) == Torn(Contents(ino0[i], blk0), off, data, tot, avail)
    ensures HoleFree(ip, blk)
  {
    var c := Contents(ino0[i], blk0);
    forall o: nat | o < ip.size ensures Contents(ip, blk)[o] == Torn(c, off, data, tot, avail)[o] {
      assert ByteAt(ip, blk, o) == ByteAt(ino[i], blk, o);
    }
    forall l: nat | l * BSIZE < ip.size ensures Slot(ip, blk, l) != 0 {
      assert Slot(ip, blk, l) == Slot(ino[i], blk, l);
      if l * BSIZE < ino0[i].size { assert Slot(ino0[i], blk0, l) != 0; }
    }
  }

  /** Another file does not notice. */
  lemma OtherContents(sb: Super, ino0: seq<Inode>, blk0: seq<Block>, ino: seq<Inode>, blk: seq<Block>,
                      own: map<nat, Own>, i: nat, off: nat, tot: nat, data: seq<Byte>, j: nat)
    requires Writing(sb, ino0, blk0, ino, blk, own, i, off, tot, data) && j < |ino| && j != i && HoleFree(ino0[j], blk0)
    ensures Contents(ino[j], blk) == Contents(ino0[j], blk0) && HoleFree(ino[j], blk)
  {
    forall o: nat | o < ino[j].size ensures Contents(ino[j], blk)[o] == Contents(ino0[j], blk0)[o] {
      assert ByteAt(ino[j], blk, o) == ByteAt(ino0[j], blk0, o);
    }
    forall l: nat | l * BSIZE < ino[j].size ensures Slot(ino[j], blk, l) != 0 {
      assert Slot(ino[j], blk, l) == Slot(ino0[j], blk0, l);
    }
  }

  // ---------------------------------------------------------------- how much a write logs

  /** How many blocks of the file the bytes off .. off+n touch. */
  function Blocks(off: nat, n: nat): nat {
    if n == 0 then 0 else (off + n - 1) / BSIZE - off / BSIZE + 1
  }

  /** The next stretch writei() handles: up to the end of the data or of the block. */
  function Stretch(off: nat, left: nat): nat {
    if left < BSIZE - off % BSIZE then left else BSIZE - off % BSIZE
  }

  lemma BlocksStep(off: nat, tot: nat, m: nat)
    requires m > 0 && (off + tot) % BSIZE + m <= BSIZE && (tot == 0 || (off + tot) % BSIZE == 0)
    ensures Blocks(off, tot + m) == Blocks(off, tot) + 1
  {
  }

  /** writei() pauses only at the start, at the end and at block boundaries. */
  predicate Aligned(off: nat, tot: nat, n: nat) { tot == 0 || tot == n || (off + tot) % BSIZE == 0 }

  lemma AlignedStep(off: nat, tot: nat, n: nat, m: nat)
    requires Aligned(off, tot, n) && tot < n && m == Stretch(off + tot, n - tot)
    ensures 0 < m <= n - tot && (off + tot) % BSIZE + m <= BSIZE && Aligned(off, tot + m, n)
  {
    assert tot + m < n ==> off + tot + m == ((off + tot) / BSIZE + 1) * BSIZE;
  }

  /** How many of n bytes writei() counts if only the first `avail` can be copied: whole stretches. */
  function Whole(off: nat, n: nat, avail: nat): nat {
    if avail >= n then n
    else if (off + avail) / BSIZE * BSIZE <= off then 0
    else (off + avail) / BSIZE * BSIZE - off
  }

  lemma WholeIs(off: nat, tot: nat, n: nat, avail: nat)
    requires Aligned(off, tot, n) && tot < n && tot <= avail < tot + Stretch(off + tot, n - tot)
    ensures Whole(off, n, avail) == tot
  {
    AlignedStep(off, tot, n, Stretch(off + tot, n - tot));
    var q := (off + tot) / BSIZE;
    assert q * BSIZE <= off + tot <= off + avail < (q + 1) * BSIZE;
    assert (off + avail) / BSIZE == q;
  }

  /** Allocations: one per touched block, except that the block of an unaligned start is there. */
  function Allocs(off: nat, n: nat): nat {
    if n > 0 && off % BSIZE != 0 && Blocks(off, n) > 0 then Blocks(off, n) - 1 else Blocks(off, n)
  }

  /** What a hole-free write logs at most: data, their bitmap blocks, the indirect block and its
      bitmap block, the inode. */
  function LogBound(off: nat, n: nat): nat { Blocks(off, n) + Allocs(off, n) + 3 }

  const CHUNK: nat := 3072         // (MAXOPBLOCKS - 1 - 1 - 2) / 2 * BSIZE

  lemma Sizes()
    ensures MAXBYTES == MAXFILE * BSIZE && CHUNK == (LogFormat.MAXOPBLOCKS - 1 - 1 - 2) / 2 * BSIZE
  {
  }

  /** Any chunk of filewrite(), aligned or not, stays within MAXOPBLOCKS. */
  lemma ChunkFits(off: nat, n: nat)
    requires n <= CHUNK
    ensures LogBound(off, n) <= LogFormat.MAXOPBLOCKS
  {
    Sizes();
    if n > 0 {
      var q, r := off / BSIZE, off % BSIZE;
      assert off == q * BSIZE + r;
      assert (off + n - 1) / BSIZE <= q + (if r == 0 then 2 else 3);
    }
  }

  ghost function IndLogs(sb: Super, ind: nat): set<nat> { if ind == 0 then {} else LoggedBy(sb, ind) }

  /** The transaction so far: data blocks D, bitmap blocks B, and the indirect block's two. */
  ghost predicate Budget(sb: Super, log0: set<nat>, log: set<nat>, D: set<nat>, B: set<nat>, ind: nat, data: nat,
                         allocs: nat) {
    log <= log0 + D + B + IndLogs(sb, ind) && |D| <= data && |B| <= allocs
  }

  lemma AllocsStep(off: nat, tot: nat, n: nat, m: nat)
    requires Aligned(off, tot, n) && tot < n && m == Stretch(off + tot, n - tot)
    ensures Blocks(off, tot + m) == Blocks(off, tot) + 1
    ensures Allocs(off, tot + m) == Allocs(off, tot) + if tot == 0 && off % BSIZE != 0 then 0 else 1
  {
    AlignedStep(off, tot, n, m);
    BlocksStep(off, tot, m);
  }

  lemma BudgetStep(sb: Super, log0: set<nat>, log: set<nat>, log': set<nat>, D: set<nat>, B: set<nat>, ind: nat,
                   ind': nat,
                   data: nat, allocs: nat, allocs': nat, addr: nat, isNew: bool)
    requires Budget(sb, log0, log, D, B, ind, data, allocs) && (ind == 0 || ind' == ind)
    requires allocs' >= if isNew then allocs + 1 else allocs
    requires log' <= log + {addr} + (if isNew then {Bblock(sb, addr)} + IndLogs(sb, ind') else {})
    ensures Budget(sb, log0, log', D + {addr}, if isNew then B + {Bblock(sb, addr)} else B, ind', data + 1, allocs')
  {
  }

  lemma BlocksGrow(off: nat, n: nat, n': nat)
    requires n <= n'
    ensures Blocks(off, n) <= Blocks(off, n') && Allocs(off, n) <= Allocs(off, n')
  {
    if n > 0 { assert (off + n - 1) / BSIZE <= (off + n' - 1) / BSIZE; }
  }

  lemma SetSum(a: set<nat>, b: set<nat>)
    ensures |a + b| <= |a| + |b|
  {
    assert |a + b| + |a * b| == |a| + |b|;
  }

  lemma {:induction false} SubsetSize(a: set<nat>, b: set<nat>)
    requires a <= b
    ensures |a| <= |b|
  {
    assert b == a + (b - a);
    assert |a + (b - a)| == |a| + |b - a|;
  }

  lemma BudgetBound(sb: Super, log0: set<nat>, log: set<nat>, D: set<nat>, B: set<nat>, ind: nat, off: nat, n: nat,
                    iblock: nat)
    requires Budget(sb, log0, log, D, B, ind, Blocks(off, n), Allocs(off, n))
    ensures |log + {iblock}| <= |log0| + LogBound(off, n)
  {
    var I := IndLogs(sb, ind);
    SetSum(log0, D);
    SetSum(log0 + D, B);
    SetSum(log0 + D + B, I);
    SetSum(log0 + D + B + I, {iblock});
    assert |{Bblock(sb, ind), ind}| <= 2;
    SubsetSize(log + {iblock}, log0 + D + B + I + {iblock});
  }
}
