/** The transaction of a write: which blocks are logged, and what a user copy that fails in the
    middle leaves in a buffer that is not. */
module FsTear {
  import opened Prelude
  import opened FsBlocks
  import opened FsOwnership
  import opened FileSystem
  import opened FsFiles

  /** Data blocks keep their owner. */
  ghost predicate OwnKept(own: map<nat, Own>, own': map<nat, Own>) {
    forall b :: b in own && own[b].At? && own[b].k != IND ==> b in own' && own'[b] == own[b]
  }

  /** One turn of the loop of writei() on block bn of inode i, which is found at addr: other slots
      stay, and every changed block but perhaps addr is logged. */
  ghost predicate Turn(ino1: seq<Inode>, blk1: seq<Block>, own1: map<nat, Own>, log1: set<nat>,
                       ino: seq<Inode>, blk: seq<Block>, own: map<nat, Own>, log: set<nat>, i: nat, bn: nat,
                       addr: nat) {
    && i < |ino1| && i < |ino| && OwnKept(own1, own) && addr in own && own[addr] == At(i, bn) && bn < IND
    && (forall l: nat {:trigger Slot(ino[i], blk, l)} :: l < IND && l != bn ==>
          Slot(ino[i], blk, l) == Slot(ino1[i], blk1, l))
    && log1 <= log && Kept(blk1, blk, log + {addr}) && Slot(ino[i], blk, bn) == addr
  }

  /** bmap() and then a store into the block it found. */
  lemma MappedTurn(sb: Super, ino1: seq<Inode>, blk1: seq<Block>, own1: map<nat, Own>, log1: set<nat>,
                   ino: seq<Inode>, blk: seq<Block>, own: map<nat, Own>, log: set<nat>, log': set<nat>, i: nat, bn: nat,
                   addr: nat, v: Block)
    requires Mapped(sb, ino1, blk1, own1, ino, blk, own, i, bn) && addr == Slot(ino[i], blk, bn) && addr < |blk|
    requires log1 <= log <= log' && Kept(blk1, blk, log)
    ensures Turn(ino1, blk1, own1, log1, ino, blk[addr := v], own, log', i, bn, addr)
  {
    SlotUsed(sb, ino, blk, own, i, bn);
    DataWrite(sb, ino, blk, own, addr, v);
    assert Kept(blk1, blk[addr := v], log' + {addr});
    forall l: nat | l < IND && l != bn ensures Slot(ino[i], blk[addr := v], l) == Slot(ino1[i], blk1, l) {
      assert Slot(ino[i], blk, l) == Slot(ino1[i], blk1, l);
    }
  }

  /** D are blocks of the file before off + tot, B bitmap blocks. */
  ghost predicate Logs(sb: Super, own: map<nat, Own>, D: set<nat>, B: set<nat>, i: nat, off: nat, tot: nat) {
    && (forall d :: d in D ==>
          d in own && own[d].At? && own[d].i == i && own[d].k != IND && own[d].k * BSIZE < off + tot)
    && (forall b :: b in B ==> b < sb.dataStart)
  }

  /** Slots of the file from off + tot on are as they were. */
  ghost predicate Ahead(ino0: seq<Inode>, blk0: seq<Block>, ino: seq<Inode>, blk: seq<Block>, i: nat, off: nat,
                        tot: nat)
    requires i < |ino0| && i < |ino|
  {
    forall l: nat {:trigger Slot(ino[i], blk, l)} :: l < IND && off + tot <= l * BSIZE ==>
      Slot(ino[i], blk, l) == Slot(ino0[i], blk0, l)
  }

  /** The loop of writei() has logged every block it changed. */
  ghost predicate Tracked(sb: Super, ino0: seq<Inode>, blk0: seq<Block>, log0: set<nat>, ino: seq<Inode>,
                          blk: seq<Block>, own: map<nat, Own>, log: set<nat>, D: set<nat>, B: set<nat>, i: nat,
                          off: nat, tot: nat) {
    && i < |ino0| && i < |ino| && log0 <= log && Kept(blk0, blk, log)
    && Logs(sb, own, D, B, i, off, tot) && Ahead(ino0, blk0, ino, blk, i, off, tot)
  }

  lemma TrackedStart(sb: Super, ino: seq<Inode>, blk: seq<Block>, own: map<nat, Own>, log: set<nat>, i: nat, off: nat)
    requires i < |ino|
    ensures Tracked(sb, ino, blk, log, ino, blk, own, log, {}, {}, i, off, 0)
  {
  }

  lemma TrackedTurn(sb: Super, ino0: seq<Inode>, blk0: seq<Block>, log0: set<nat>, ino1: seq<Inode>, blk1: seq<Block>,
                    own1: map<nat, Own>, log1: set<nat>, D: set<nat>, B: set<nat>, ino: seq<Inode>, blk: seq<Block>,
                    own: map<nat, Own>, log: set<nat>, i: nat, off: nat, tot: nat, m: nat, addr: nat, isNew: bool)
    requires Tracked(sb, ino0, blk0, log0, ino1, blk1, own1, log1, D, B, i, off, tot) && m > 0
    requires Turn(ino1, blk1, own1, log1, ino, blk, own, log, i, (off + tot) / BSIZE, addr) && addr in log
    requires sb.Valid() && addr < sb.size && (off + tot) % BSIZE + m <= BSIZE
    ensures Tracked(sb, ino0, blk0, log0, ino, blk, own, log, D + {addr},
                    if isNew then B + {Bblock(sb, addr)} else B, i, off, tot + m)
  {
    BitmapBlock(sb, addr);
    assert log + {addr} == log;
    KeptTrans(blk0, blk1, blk, log1, log);
    var bn := (off + tot) / BSIZE;
    assert bn * BSIZE <= off + tot < off + tot + m;
    forall l: nat | l < IND && off + (tot + m) <= l * BSIZE ensures Slot(ino[i], blk, l) == Slot(ino0[i], blk0, l) {
      assert Slot(ino1[i], blk1, l) == Slot(ino0[i], blk0, l);
    }
  }

  // ---------------------------------------------------------------- a copy that fails

  /** If only the first `avail` bytes of the source can be copied, the copy that fails has changed
      a buffer that is not in the transaction. */
  ghost predicate Tears(ino0: seq<Inode>, blk0: seq<Block>, log0: set<nat>, i: nat, off: nat, data: seq<Byte>,
                        avail: nat)
    requires i < |ino0| && avail <= |data|
  {
    && avail < |data|
    && var tot := Whole(off, |data|, avail);
       var b, s := Slot(ino0[i], blk0, (off + tot) / BSIZE), (off + tot) % BSIZE;
       && 0 < b < |blk0| && b !in log0 && tot <= avail && s + (avail - tot) <= BSIZE
       && blk0[b][s..s + (avail - tot)] != data[tot..avail]
  }

  /** A block that was there is logged by now only if it was before. */
  lemma NotLogged(sb: Super, ino0: seq<Inode>, blk0: seq<Block>, log0: set<nat>, ino: seq<Inode>, blk: seq<Block>,
                  own: map<nat, Own>, log: set<nat>, D: set<nat>, B: set<nat>, i: nat, off: nat, tot: nat, n: nat,
                  b: nat)
    requires Inv(sb, ino, blk, own) && Tracked(sb, ino0, blk0, log0, ino, blk, own, log, D, B, i, off, tot)
    requires log <= log0 + D + B + IndLogs(sb, ino[i].addrs[NDIRECT]) && Aligned(off, tot, n) && tot < n
    requires (off + tot) / BSIZE < MAXFILE && b == Slot(ino[i], blk, (off + tot) / BSIZE) != 0 && (tot == 0 ==> D == {})
    ensures b in log <==> b in log0
  {
    var bn, ind := (off + tot) / BSIZE, ino[i].addrs[NDIRECT];
    SlotUsed(sb, ino, blk, own, i, bn);
    if tot > 0 { assert bn * BSIZE == off + tot; }
    if ind != 0 {
      assert Slot(ino[i], blk, IND) == ind;
      SlotUsed(sb, ino, blk, own, i, IND);
      BitmapBlock(sb, ind);
    }
  }

  /** The slot a turn starts with is the one the file had. */
  lemma SameSlot(ino0: seq<Inode>, blk0: seq<Block>, ino: seq<Inode>, blk: seq<Block>, i: nat, off: nat, tot: nat,
                 n: nat)
    requires |ino| == |ino0| && i < |ino| && HoleFree(ino0[i], blk0) && off <= ino0[i].size && tot < n
    requires Covers(ino0, blk0, ino, blk, i, off, tot) && Ahead(ino0, blk0, ino, blk, i, off, tot)
    requires Aligned(off, tot, n) && (off + tot) / BSIZE < MAXFILE
    ensures Slot(ino[i], blk, (off + tot) / BSIZE) == Slot(ino0[i], blk0, (off + tot) / BSIZE)
  {
    var bn := (off + tot) / BSIZE;
    if (off + tot) % BSIZE == 0 {
      assert bn * BSIZE == off + tot;
    } else {
      assert tot == 0 && bn * BSIZE < off;
      assert Slot(ino0[i], blk0, bn) != 0;
    }
  }

  /** Storing d into a buffer changes nothing exactly if it is there already. */
  lemma CopiedSame(b: Block, s: nat, d: seq<Byte>)
    requires s + |d| <= BSIZE
    ensures Copied(b, s, d) == b <==> b[s..s + |d|] == d
  {
    if b[s..s + |d|] == d {
      assert Copied(b, s, d) == b;
    } else {
      assert Copied(b, s, d)[s..s + |d|] == d;
    }
  }

  /** What the failing turn leaves, log' being the transaction in the end. */
  lemma TornTurn(sb: Super, ino0: seq<Inode>, blk0: seq<Block>, log0: set<nat>, ino1: seq<Inode>, blk1: seq<Block>,
                 own1: map<nat, Own>, log1: set<nat>, D: set<nat>, B: set<nat>, blk: seq<Block>, log': set<nat>, i: nat,
                 off: nat, tot: nat, data: seq<Byte>, avail: nat, addr: nat)
    requires Inv(sb, ino1, blk1, own1) && Tracked(sb, ino0, blk0, log0, ino1, blk1, own1, log1, D, B, i, off, tot)
    requires log1 <= log0 + D + B + IndLogs(sb, ino1[i].addrs[NDIRECT]) && (tot == 0 ==> D == {})
    requires |ino1| == |ino0| && Covers(ino0, blk0, ino1, blk1, i, off, tot)
    requires HoleFree(ino0[i], blk0) && off <= ino0[i].size && Aligned(off, tot, |data|) && off + tot < MAXBYTES
    requires tot < |data| && tot <= avail < tot + Stretch(off + tot, |data| - tot)
    requires addr == Slot(ino1[i], blk1, (off + tot) / BSIZE) != 0 && addr < |blk1| && log1 <= log'
    requires (off + tot) % BSIZE + (avail - tot) <= BSIZE
    requires blk == blk1[addr := Copied(blk1[addr], (off + tot) % BSIZE, data[tot..avail])] &&
             (addr in log' ==> addr in log1)
    ensures avail <= |data| && (Kept(blk0, blk, log') <==> !Tears(ino0, blk0, log0, i, off, data, avail))
  {
    WholeIs(off, tot, |data|, avail);
    SameSlot(ino0, blk0, ino1, blk1, i, off, tot, |data|);
    NotLogged(sb, ino0, blk0, log0, ino1, blk1, own1, log1, D, B, i, off, tot, |data|, addr);
    CopiedSame(blk1[addr], (off + tot) % BSIZE, data[tot..avail]);
    if addr in log1 {
      assert Kept(blk0, blk, log');
    } else {
      assert blk1[addr] == blk0[addr];
      assert Kept(blk0, blk, log') <==> blk[addr] == blk0[addr];
    }
  }

  /** A block that bmap() has just allocated is logged. */
  lemma NewTurn(ino0: seq<Inode>, blk0: seq<Block>, log0: set<nat>, ino1: seq<Inode>, blk1: seq<Block>,
                log1: set<nat>, blk: seq<Block>, log: set<nat>, log': set<nat>, i: nat, off: nat, tot: nat,
                data: seq<Byte>, avail: nat, addr: nat)
    requires |ino1| == |ino0| && i < |ino0| && Covers(ino0, blk0, ino1, blk1, i, off, tot)
    requires Ahead(ino0, blk0, ino1, blk1, i, off, tot) && Kept(blk0, blk1, log1)
    requires HoleFree(ino0[i], blk0) && off <= ino0[i].size && Aligned(off, tot, |data|) && off + tot < MAXBYTES
    requires tot < |data| && tot <= avail < tot + Stretch(off + tot, |data| - tot)
    requires Slot(ino1[i], blk1, (off + tot) / BSIZE) == 0
    requires Kept(blk1, blk, log + {addr}) && log1 <= log <= log' && addr in log
    ensures avail <= |data| && Kept(blk0, blk, log') && !Tears(ino0, blk0, log0, i, off, data, avail)
  {
    WholeIs(off, tot, |data|, avail);
    SameSlot(ino0, blk0, ino1, blk1, i, off, tot, |data|);
    assert log + {addr} == log;
    KeptTrans(blk0, blk1, blk, log1, log);
  }
}
