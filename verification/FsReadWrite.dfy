/** readi(), writei() and filewrite() over whole files. */
module FsReadWrite {
  import opened Prelude
  import opened FsBlocks
  import opened FsOwnership
  import opened FileSystem
  import opened FsFiles
  import opened FsTear
  import LogFormat

  /** Panic: no free block left.  Fail: the call returned -1. */
  datatype Result = Panic | Fail | Count(n: nat)

  /** off + n < off in 32-bit arithmetic. */
  predicate Overflows(off: nat, n: nat) { (off + n) % U32 < off }

  lemma OverflowIff(off: nat, n: nat)
    requires off < U32 && n < U32
    ensures Overflows(off, n) <==> off + n >= U32
  {
  }

  /** bmap() on a block that is there finds it and changes nothing. */
  method Find(f: Fs, i: nat, bn: nat) returns (b: nat)
    requires f.Valid() && i < |f.ino| && bn < MAXFILE && Slot(f.ino[i], f.blk, bn) != 0
    modifies f`ino, f`blk, f`own, f`logged
    ensures f.ino == old(f.ino) && f.blk == old(f.blk) && f.own == old(f.own) && f.logged == old(f.logged)
    ensures b == Slot(f.ino[i], f.blk, bn) && 0 < b < |f.blk|
  {
    SlotUsed(f.sb, f.ino, f.blk, f.own, i, bn);
    var r := f.Bmap(i, bn);
    b := r.value;
  }

  lemma ReadStretch(ip: Inode, blk: seq<Block>, b: nat, o: nat, m: nat)
    requires b == Slot(ip, blk, o / BSIZE) && 0 < b < |blk| && o % BSIZE + m <= BSIZE && o + m <= ip.size
    ensures blk[b][o % BSIZE..o % BSIZE + m] == Contents(ip, blk)[o..o + m]
  {
    var s, c := o % BSIZE, Contents(ip, blk);
    var x, y := blk[b][s..s + m], c[o..o + m];
    forall k | 0 <= k < m ensures x[k] == y[k] {
      assert (o + k) / BSIZE == o / BSIZE && (o + k) % BSIZE == s + k;
    }
  }

  lemma AppendSlice(c: seq<Byte>, lo: nat, mid: nat, hi: nat)
    requires lo <= mid <= hi <= |c|
    ensures c[lo..mid] + c[mid..hi] == c[lo..hi]
  {
  }

  lemma ReadMore(ip: Inode, blk: seq<Block>, b: nat, off: nat, tot: nat, m: nat, out: seq<Byte>)
    requires b == Slot(ip, blk, (off + tot) / BSIZE) && 0 < b < |blk| && (off + tot) % BSIZE + m <= BSIZE
    requires off + tot + m <= ip.size && out == Contents(ip, blk)[off..off + tot]
    ensures out + blk[b][(off + tot) % BSIZE..(off + tot) % BSIZE + m] == Contents(ip, blk)[off..off + (tot + m)]
  {
    ReadStretch(ip, blk, b, off + tot, m);
    AppendSlice(Contents(ip, blk), off, off + tot, off + tot + m);
  }

  /** How many bytes readi() has to deliver. */
  function Clipped(size: nat, off: nat, n: nat): nat
    requires off <= size
  {
    if off + n > size then size - off else n
  }

  function Least(a: nat, b: nat): nat { if a <= b then a else b }

  /** readi(): exactly the requested slice, clipped to the size; nothing is allocated or changed.
      The first `avail` bytes of the destination can be reached; -1 exactly if more are needed, and
      then those have been filled. */
  method Readi(f: Fs, i: nat, off: nat, n: nat, avail: nat) returns (r: Result, out: seq<Byte>)
    requires f.Valid() && i < |f.ino| && HoleFree(f.ino[i], f.blk) && off < U32 && n < U32
    modifies f`ino, f`blk, f`own, f`logged
    ensures f.ino == old(f.ino) && f.blk == old(f.blk) && f.own == old(f.own) && f.logged == old(f.logged)
    ensures off > f.ino[i].size || off + n >= U32 ==> r == Count(0) && out == []
    ensures off <= f.ino[i].size && off + n < U32 ==>
              var len := Clipped(f.ino[i].size, off, n);
              && r == (if len <= avail then Count(len) else Fail)
              && out == Contents(f.ino[i], f.blk)[off..off + Least(len, avail)]
  {
    out := [];
    OverflowIff(off, n);
    if off > f.ino[i].size || Overflows(off, n) {
      return Count(0), out;
    }
    var len := Clipped(f.ino[i].size, off, n);
    var tot := 0;
    while tot < len
      invariant 0 <= tot <= len && tot <= avail
      invariant f.ino == old(f.ino) && f.blk == old(f.blk) && f.own == old(f.own) && f.logged == old(f.logged)
      invariant out == Contents(f.ino[i], f.blk)[off..off + tot]
    {
      var o := off + tot;
      assert Slot(f.ino[i], f.blk, o / BSIZE) != 0;
      var b := Find(f, i, o / BSIZE);
      var m := Stretch(o, len - tot);
      var got := Least(m, avail - tot);
      ReadMore(f.ino[i], f.blk, b, off, tot, got, out);
      out := out + f.blk[b][o % BSIZE..o % BSIZE + got];
      if tot + m > avail {
        return Fail, out;
      }
      tot := tot + m;
    }
    return Count(len), out;
  }

  // ---------------------------------------------------------------- writing

  /** How far a turn gets: to the end of the stretch, or to the byte that cannot be copied. */
  function Reach(tot: nat, m: nat, avail: nat): nat { Least(tot + m, avail) }

  /** One turn of the loop of writei(): bmap, copy up to the end of the block, log_write.  A copy that
      fails has filled the buffer up to the byte that could not be copied. */
  method WriteNext(f: Fs, i: nat, off: nat, tot: nat, data: seq<Byte>, avail: nat, ghost ino0: seq<Inode>,
                   ghost blk0: seq<Block>)
    returns (ok: bool, m: nat, ghost addr: nat)
    requires f.Valid() && Writing(f.sb, ino0, blk0, f.ino, f.blk, f.own, i, off, tot, data)
    requires tot < |data| && tot <= avail && off + |data| <= MAXBYTES
    modifies f`ino, f`blk, f`own, f`logged
    ensures |f.ino| == |old(f.ino)| && m == Stretch(off + tot, |data| - tot)
    ensures !ok ==> Full(f.sb, f.blk) && Slot(old(f.ino)[i], old(f.blk), (off + tot) / BSIZE) == 0
    ensures ok ==> Writing(f.sb, ino0, blk0, f.ino, f.blk, f.own, i, off, Reach(tot, m, avail), data)
    ensures ok ==> var ind, isNew := f.ino[i].addrs[NDIRECT], Slot(old(f.ino)[i], old(f.blk), (off + tot) / BSIZE) == 0;
                   && (old(f.ino)[i].addrs[NDIRECT] in {0, ind})
                   && f.logged <= old(f.logged) + {addr} + (if isNew then {Bblock(f.sb, addr)} + IndLogs(f.sb, ind)
                                                            else {})
                   && (isNew || tot + m <= avail ==> addr in f.logged)
                   && (!isNew && tot + m > avail ==>
                         && f.logged == old(f.logged)
                         && Overwrote(old(f.blk), f.blk, addr, (off + tot) % BSIZE, data, tot, avail))
    ensures ok ==> Turn(old(f.ino), old(f.blk), old(f.own), old(f.logged), f.ino, f.blk, f.own, f.logged, i,
                        (off + tot) / BSIZE, addr)
  {
    ghost var ino1, blk1, own1, log1 := f.ino, f.blk, f.own, f.logged;
    m := Stretch(off + tot, |data| - tot);
    var bn := (off + tot) / BSIZE;
    var r := MapNext(f, i, off, tot, data, ino0, blk0);
    if r.None? {
      return false, m, 0;
    }
    addr := r.value;
    var end := Reach(tot, m, avail);
    WriteCopied(f.sb, ino0, blk0, f.ino, f.blk, f.own, i, off, tot, data, end - tot, r.value);
    MappedTurn(f.sb, ino1, blk1, own1, log1, f.ino, f.blk, f.own, f.logged,
               f.logged + (if tot + m <= avail then {addr} else {}), i, bn, addr,
               Copied(f.blk[addr], (off + tot) % BSIZE, data[tot..end]));
    f.blk := f.blk[r.value := Copied(f.blk[r.value], (off + tot) % BSIZE, data[tot..end])];
    f.logged := f.logged + (if tot + m <= avail then {addr} else {});
    ok := true;
  }

  /** bytes tot to avail of data were stored at s of block b. */
  ghost predicate Overwrote(blk0: seq<Block>, blk: seq<Block>, b: nat, s: nat, data: seq<Byte>, tot: nat, avail: nat) {
    && b < |blk0| && tot <= avail <= |data| && s + (avail - tot) <= BSIZE
    && blk == blk0[b := Copied(blk0[b], s, data[tot..avail])]
  }

  /** The bmap() of a turn. */
  method MapNext(f: Fs, i: nat, off: nat, tot: nat, data: seq<Byte>, ghost ino0: seq<Inode>, ghost blk0: seq<Block>)
    returns (r: Option<nat>)
    requires f.Valid() && Writing(f.sb, ino0, blk0, f.ino, f.blk, f.own, i, off, tot, data)
    requires tot < |data| && off + |data| <= MAXBYTES
    modifies f`ino, f`blk, f`own, f`logged
    ensures |f.ino| == |old(f.ino)|
    ensures r.None? ==> Full(f.sb, f.blk) && Slot(old(f.ino)[i], old(f.blk), (off + tot) / BSIZE) == 0
    ensures r.Some? ==> Writing(f.sb, ino0, blk0, f.ino, f.blk, f.own, i, off, tot, data) && 0 < r.value < |f.blk|
    ensures r.Some? ==>
              Mapped(f.sb, old(f.ino), old(f.blk), old(f.own), f.ino, f.blk, f.own, i, (off + tot) / BSIZE)
    ensures r.Some? ==>
              var ind, isNew := f.ino[i].addrs[NDIRECT], Slot(old(f.ino)[i], old(f.blk), (off + tot) / BSIZE) == 0;
              && r.value == Slot(f.ino[i], f.blk, (off + tot) / BSIZE)
              && (old(f.ino)[i].addrs[NDIRECT] in {0, ind})
              && old(f.logged) <= f.logged
              && f.logged <= old(f.logged) + (if isNew then LoggedBy(f.sb, r.value) + IndLogs(f.sb, ind) else {})
              && (if isNew then r.value in f.logged else f.blk == old(f.blk))
    ensures Kept(old(f.blk), f.blk, f.logged)
  {
    ghost var ino1, blk1, own1 := f.ino, f.blk, f.own;
    var bn := (off + tot) / BSIZE;
    r := f.Bmap(i, bn);
    if r.Some? {
      assert Slot(f.ino[i], f.blk, IND) == f.ino[i].addrs[NDIRECT];
      WriteMapped(f.sb, ino0, blk0, ino1, blk1, own1, f.ino, f.blk, f.own, i, bn, off, tot, data);
      SlotUsed(f.sb, f.ino, f.blk, f.own, i, bn);
    }
  }

  /** An unaligned write starts in a block that is there. */
  lemma FirstThere(ino0: seq<Inode>, blk0: seq<Block>, ino: seq<Inode>, blk: seq<Block>, i: nat, off: nat)
    requires |ino| == |ino0| && i < |ino| && HoleFree(ino0[i], blk0) && off <= ino0[i].size &&
             Covers(ino0, blk0, ino, blk, i, off, 0)
    requires off % BSIZE != 0 && off < MAXBYTES
    ensures Slot(ino[i], blk, off / BSIZE) != 0
  {
    assert Slot(ino0[i], blk0, off / BSIZE) != 0;
  }

  /** The state of the loop of writei(): what is written, and what is logged since log0. */
  ghost predicate Looping(sb: Super, ino0: seq<Inode>, blk0: seq<Block>, log0: set<nat>, ino: seq<Inode>,
                          blk: seq<Block>, own: map<nat, Own>, log: set<nat>, D: set<nat>, B: set<nat>, i: nat,
                          off: nat, tot: nat, data: seq<Byte>) {
    && Writing(sb, ino0, blk0, ino, blk, own, i, off, tot, data)
    && HoleFree(ino0[i], blk0) && off <= ino0[i].size
    && Aligned(off, tot, |data|) && (tot == 0 ==> D == {})
    && Budget(sb, log0, log, D, B, ino[i].addrs[NDIRECT], Blocks(off, tot), Allocs(off, tot))
    && Tracked(sb, ino0, blk0, log0, ino, blk, own, log, D, B, i, off, tot)
  }

  /** The loop has come to its end, or to the byte after the first `avail` ones; log' is what the
      transaction will be. */
  ghost predicate Ended(sb: Super, ino0: seq<Inode>, blk0: seq<Block>, log0: set<nat>, ino: seq<Inode>,
                        blk: seq<Block>, own: map<nat, Own>, log: set<nat>, D: set<nat>, B: set<nat>, i: nat,
                        off: nat, data: seq<Byte>, avail: nat, log': set<nat>) {
    && avail <= |data| && Writing(sb, ino0, blk0, ino, blk, own, i, off, avail, data)
    && HoleFree(ino0[i], blk0) && off <= ino0[i].size
    && Budget(sb, log0, log, D, B, ino[i].addrs[NDIRECT], Blocks(off, |data|), Allocs(off, |data|))
    && (Kept(blk0, blk, log') <==> !Tears(ino0, blk0, log0, i, off, data, avail))
  }

  lemma TurnBudget(sb: Super, ino0: seq<Inode>, blk0: seq<Block>, log0: set<nat>, ino1: seq<Inode>, blk1: seq<Block>,
                   own1: map<nat, Own>, log1: set<nat>,
                   D: set<nat>, B: set<nat>, ino: seq<Inode>, log: set<nat>,
                   i: nat, off: nat, tot: nat, data: seq<Byte>, m: nat, addr: nat, isNew: bool)
    requires Looping(sb, ino0, blk0, log0, ino1, blk1, own1, log1, D, B, i, off, tot, data) && tot < |data|
    requires m == Stretch(off + tot, |data| - tot) && i < |ino|
    requires isNew ==> Slot(ino1[i], blk1, (off + tot) / BSIZE) == 0 && off < MAXBYTES
    requires ino1[i].addrs[NDIRECT] in {0, ino[i].addrs[NDIRECT]}
    requires log <= log1 + {addr} + (if isNew then {Bblock(sb, addr)} + IndLogs(sb, ino[i].addrs[NDIRECT]) else {})
    ensures 0 < m <= |data| - tot && (off + tot) % BSIZE + m <= BSIZE && Aligned(off, tot + m, |data|)
    ensures Budget(sb, log0, log, D + {addr}, if isNew then B + {Bblock(sb, addr)} else B, ino[i].addrs[NDIRECT],
                   Blocks(off, tot + m), Allocs(off, tot + m))
  {
    if off % BSIZE != 0 && tot == 0 && isNew { FirstThere(ino0, blk0, ino1, blk1, i, off); }
    AlignedStep(off, tot, |data|, m);
    AllocsStep(off, tot, |data|, m);
    BudgetStep(sb, log0, log1, log, D, B, ino1[i].addrs[NDIRECT], ino[i].addrs[NDIRECT],
               Blocks(off, tot), Allocs(off, tot), Allocs(off, tot + m), addr, isNew);
  }

  lemma TurnDone(sb: Super, ino0: seq<Inode>, blk0: seq<Block>, log0: set<nat>, ino1: seq<Inode>, blk1: seq<Block>,
                 own1: map<nat, Own>, log1: set<nat>,
                 D: set<nat>, B: set<nat>, ino: seq<Inode>, blk: seq<Block>, own: map<nat, Own>, log: set<nat>,
                 i: nat, off: nat, tot: nat, data: seq<Byte>, m: nat, addr: nat, isNew: bool)
    requires Looping(sb, ino0, blk0, log0, ino1, blk1, own1, log1, D, B, i, off, tot, data) && tot < |data|
    requires Writing(sb, ino0, blk0, ino, blk, own, i, off, tot + m, data) && m == Stretch(off + tot, |data| - tot)
    requires isNew ==> Slot(ino1[i], blk1, (off + tot) / BSIZE) == 0 && off < MAXBYTES
    requires ino1[i].addrs[NDIRECT] in {0, ino[i].addrs[NDIRECT]}
    requires log <= log1 + {addr} + (if isNew then {Bblock(sb, addr)} + IndLogs(sb, ino[i].addrs[NDIRECT]) else {})
    requires Turn(ino1, blk1, own1, log1, ino, blk, own, log, i, (off + tot) / BSIZE, addr) && addr in log
    ensures Looping(sb, ino0, blk0, log0, ino, blk, own, log, D + {addr},
                    if isNew then B + {Bblock(sb, addr)} else B, i, off, tot + m, data)
  {
    TurnBudget(sb, ino0, blk0, log0, ino1, blk1, own1, log1, D, B, ino, log, i, off, tot, data, m, addr, isNew);
    SlotUsed(sb, ino, blk, own, i, (off + tot) / BSIZE);
    TrackedTurn(sb, ino0, blk0, log0, ino1, blk1, own1, log1, D, B, ino, blk, own, log, i, off, tot, m, addr, isNew);
  }

  lemma LoopDone(sb: Super, ino0: seq<Inode>, blk0: seq<Block>, log0: set<nat>, ino: seq<Inode>, blk: seq<Block>,
                 own: map<nat, Own>, log: set<nat>, D: set<nat>, B: set<nat>, i: nat, off: nat, data: seq<Byte>,
                 log': set<nat>)
    requires Looping(sb, ino0, blk0, log0, ino, blk, own, log, D, B, i, off, |data|, data) && log <= log'
    ensures Ended(sb, ino0, blk0, log0, ino, blk, own, log, D, B, i, off, data, |data|, log')
  {
  }

  lemma TornBudget(sb: Super, ino0: seq<Inode>, blk0: seq<Block>, log0: set<nat>, ino1: seq<Inode>, blk1: seq<Block>,
                   own1: map<nat, Own>, log1: set<nat>,
                   D: set<nat>, B: set<nat>, ino: seq<Inode>, log: set<nat>,
                   i: nat, off: nat, tot: nat, data: seq<Byte>, m: nat, addr: nat, isNew: bool)
    requires Looping(sb, ino0, blk0, log0, ino1, blk1, own1, log1, D, B, i, off, tot, data) && tot < |data|
    requires m == Stretch(off + tot, |data| - tot) && i < |ino|
    requires isNew ==> Slot(ino1[i], blk1, (off + tot) / BSIZE) == 0 && off < MAXBYTES
    requires ino1[i].addrs[NDIRECT] in {0, ino[i].addrs[NDIRECT]}
    requires log <= log1 + {addr} + (if isNew then {Bblock(sb, addr)} + IndLogs(sb, ino[i].addrs[NDIRECT]) else {})
    ensures Budget(sb, log0, log, D + {addr}, if isNew then B + {Bblock(sb, addr)} else B, ino[i].addrs[NDIRECT],
                   Blocks(off, |data|), Allocs(off, |data|))
  {
    TurnBudget(sb, ino0, blk0, log0, ino1, blk1, own1, log1, D, B, ino, log, i, off, tot, data, m, addr, isNew);
    BlocksGrow(off, tot + m, |data|);
  }

  /** The turn in which the copy failed. */
  lemma LoopTorn(sb: Super, ino0: seq<Inode>, blk0: seq<Block>, log0: set<nat>, ino1: seq<Inode>, blk1: seq<Block>,
                 own1: map<nat, Own>, log1: set<nat>,
                 D: set<nat>, B: set<nat>, ino: seq<Inode>, blk: seq<Block>, own: map<nat, Own>, log: set<nat>,
                 i: nat, off: nat, tot: nat, data: seq<Byte>, m: nat, addr: nat, isNew: bool, avail: nat, ib: nat)
    requires Looping(sb, ino0, blk0, log0, ino1, blk1, own1, log1, D, B, i, off, tot, data) && tot < |data|
    requires tot <= avail < tot + m && m == Stretch(off + tot, |data| - tot) && off + |data| <= MAXBYTES
    requires Writing(sb, ino0, blk0, ino, blk, own, i, off, avail, data)
    requires isNew <==> Slot(ino1[i], blk1, (off + tot) / BSIZE) == 0
    requires ino1[i].addrs[NDIRECT] in {0, ino[i].addrs[NDIRECT]}
    requires log <= log1 + {addr} + (if isNew then {Bblock(sb, addr)} + IndLogs(sb, ino[i].addrs[NDIRECT]) else {})
    requires Turn(ino1, blk1, own1, log1, ino, blk, own, log, i, (off + tot) / BSIZE, addr) && ib < sb.dataStart
    requires isNew ==> addr in log
    requires !isNew ==> log == log1 && Overwrote(blk1, blk, addr, (off + tot) % BSIZE, data, tot, avail)
    ensures Ended(sb, ino0, blk0, log0, ino, blk, own, log, D + {addr},
                  if isNew then B + {Bblock(sb, addr)} else B, i, off, data, avail, log + {ib})
  {
    TornBudget(sb, ino0, blk0, log0, ino1, blk1, own1, log1, D, B, ino, log, i, off, tot, data, m, addr, isNew);
    if isNew {
      NewTurn(ino0, blk0, log0, ino1, blk1, log1, blk, log, log + {ib}, i, off, tot, data, avail, addr);
    } else {
      TornKept(sb, ino0, blk0, log0, ino1, blk1, own1, log1, D, B, ino, blk, own, i, off, tot, data, addr, avail, ib);
    }
  }

  lemma TornKept(sb: Super, ino0: seq<Inode>, blk0: seq<Block>, log0: set<nat>, ino1: seq<Inode>, blk1: seq<Block>,
                 own1: map<nat, Own>, log1: set<nat>,
                 D: set<nat>, B: set<nat>, ino: seq<Inode>, blk: seq<Block>, own: map<nat, Own>,
                 i: nat, off: nat, tot: nat, data: seq<Byte>, addr: nat, avail: nat, ib: nat)
    requires Looping(sb, ino0, blk0, log0, ino1, blk1, own1, log1, D, B, i, off, tot, data) && tot < |data|
    requires tot <= avail < tot + Stretch(off + tot, |data| - tot) && off + |data| <= MAXBYTES
    requires Slot(ino1[i], blk1, (off + tot) / BSIZE) != 0 && Inv(sb, ino, blk, own) && ib < sb.dataStart
    requires Turn(ino1, blk1, own1, log1, ino, blk, own, log1, i, (off + tot) / BSIZE, addr)
    requires Overwrote(blk1, blk, addr, (off + tot) % BSIZE, data, tot, avail)
    ensures Kept(blk0, blk, log1 + {ib}) <==> !Tears(ino0, blk0, log0, i, off, data, avail)
  {
    SameAddr(sb, ino1, blk1, own1, own, blk, ino, i, (off + tot) / BSIZE, addr);
    TornTurn(sb, ino0, blk0, log0, ino1, blk1, own1, log1, D, B, blk, log1 + {ib}, i, off, tot, data, avail, addr);
  }

  lemma SameAddr(sb: Super, ino1: seq<Inode>, blk1: seq<Block>, own1: map<nat, Own>, own: map<nat, Own>,
                 blk: seq<Block>, ino: seq<Inode>, i: nat, bn: nat, addr: nat)
    requires Inv(sb, ino1, blk1, own1) && Inv(sb, ino, blk, own) && OwnKept(own1, own) && i < |ino1| && i < |ino|
    requires bn < IND && Slot(ino1[i], blk1, bn) != 0 && addr in own && own[addr] == At(i, bn)
    ensures addr == Slot(ino1[i], blk1, bn) && sb.dataStart <= addr
  {
    SlotUsed(sb, ino1, blk1, own1, i, bn);
    var b := Slot(ino1[i], blk1, bn);
    assert own[b] == At(i, bn);
    assert OwnedOk(sb, ino, blk, b, own[b]) && OwnedOk(sb, ino, blk, addr, own[addr]);
  }

  /** A block of the n bytes at off is not there yet. */
  ghost predicate Missing(ip: Inode, blk: seq<Block>, off: nat, n: nat) {
    exists l: nat {:trigger Slot(ip, blk, l)} :: off < (l + 1) * BSIZE && l * BSIZE < off + n && Slot(ip, blk, l) == 0
  }

  lemma SlotMissing(ino0: seq<Inode>, blk0: seq<Block>, ino: seq<Inode>, blk: seq<Block>, i: nat, off: nat, tot: nat,
                    n: nat)
    requires |ino| == |ino0| && i < |ino| && HoleFree(ino0[i], blk0) && off <= ino0[i].size && tot < n
    requires Covers(ino0, blk0, ino, blk, i, off, tot) && Ahead(ino0, blk0, ino, blk, i, off, tot)
    requires Aligned(off, tot, n) && (off + tot) / BSIZE < MAXFILE && Slot(ino[i], blk, (off + tot) / BSIZE) == 0
    ensures Missing(ino0[i], blk0, off, n)
  {
    SameSlot(ino0, blk0, ino, blk, i, off, tot, n);
    var l := (off + tot) / BSIZE;
    assert l * BSIZE <= off + tot < (l + 1) * BSIZE;
    assert Slot(ino0[i], blk0, l) == 0;
  }

  /** One turn of the loop with its share of the transaction. */
  method WriteTurn(f: Fs, i: nat, off: nat, tot: nat, data: seq<Byte>, avail: nat, ghost ino0: seq<Inode>,
                   ghost blk0: seq<Block>, ghost log0: set<nat>, ghost D: set<nat>, ghost B: set<nat>, ghost ib: nat)
    returns (ok: bool, m: nat, ghost D': set<nat>, ghost B': set<nat>)
    requires f.Valid() && Looping(f.sb, ino0, blk0, log0, f.ino, f.blk, f.own, f.logged, D, B, i, off, tot, data)
    requires tot < |data| && tot <= avail <= |data| && off + |data| <= MAXBYTES && ib < f.sb.dataStart
    modifies f`ino, f`blk, f`own, f`logged
    ensures |f.ino| == |old(f.ino)| && m == Stretch(off + tot, |data| - tot)
    ensures !ok ==> Full(f.sb, f.blk) && Missing(ino0[i], blk0, off, |data|)
    ensures ok && tot + m <= avail ==>
              Looping(f.sb, ino0, blk0, log0, f.ino, f.blk, f.own, f.logged, D', B', i, off, tot + m, data)
    ensures ok && tot + m > avail ==> Whole(off, |data|, avail) == tot
    ensures ok && tot + m > avail ==>
              Ended(f.sb, ino0, blk0, log0, f.ino, f.blk, f.own, f.logged, D', B', i, off, data, avail, f.logged + {ib})
  {
    ghost var ino1, blk1, own1, log1 := f.ino, f.blk, f.own, f.logged;
    ghost var isNew := Slot(f.ino[i], f.blk, (off + tot) / BSIZE) == 0;
    ghost var addr;
    ok, m, addr := WriteNext(f, i, off, tot, data, avail, ino0, blk0);
    D', B' := D + {addr}, if isNew then B + {Bblock(f.sb, addr)} else B;
    if ok && tot + m <= avail {
      TurnDone(f.sb, ino0, blk0, log0, ino1, blk1, own1, log1, D, B, f.ino, f.blk, f.own, f.logged, i, off, tot, data,
               m, addr, isNew);
    } else if ok {
      WholeIs(off, tot, |data|, avail);
      LoopTorn(f.sb, ino0, blk0, log0, ino1, blk1, own1, log1, D, B, f.ino, f.blk, f.own, f.logged, i, off, tot, data,
               m, addr, isNew, avail, ib);
    } else {
      SlotMissing(ino0, blk0, ino1, blk1, i, off, tot, |data|);
    }
  }

  lemma WriteStart(sb: Super, ino: seq<Inode>, blk: seq<Block>, own: map<nat, Own>, i: nat, off: nat, data: seq<Byte>)
    requires Inv(sb, ino, blk, own) && i < |ino| && off <= MAXBYTES && off <= ino[i].size && HoleFree(ino[i], blk)
    ensures Writing(sb, ino, blk, ino, blk, own, i, off, 0, data)
  {
    forall l: nat | l < IND && off < (l + 1) * BSIZE && l * BSIZE < off ensures Slot(ino[i], blk, l) != 0 {}
  }

  /** The loop of writei(): it counts `tot` bytes. */
  method WriteLoop(f: Fs, i: nat, off: nat, data: seq<Byte>, avail: nat, ghost ib: nat)
    returns (ok: bool, tot: nat, ghost D: set<nat>, ghost B: set<nat>)
    requires f.Valid() && i < |f.ino| && HoleFree(f.ino[i], f.blk) && off <= f.ino[i].size && off + |data| <= MAXBYTES
    requires avail <= |data| && ib < f.sb.dataStart
    modifies f`ino, f`blk, f`own, f`logged
    ensures |f.ino| == |old(f.ino)|
    ensures !ok ==> Full(f.sb, f.blk) && Missing(old(f.ino)[i], old(f.blk), off, |data|)
    ensures ok ==> tot == Whole(off, |data|, avail)
    ensures ok ==>
              Ended(f.sb, old(f.ino), old(f.blk), old(f.logged), f.ino, f.blk, f.own, f.logged, D, B, i, off, data,
                    avail, f.logged + {ib})
  {
    WriteStart(f.sb, f.ino, f.blk, f.own, i, off, data);
    TrackedStart(f.sb, f.ino, f.blk, f.own, f.logged, i, off);
    D, B := {}, {};
    tot := 0;
    while tot < |data|
      invariant 0 <= tot <= avail && |f.ino| == |old(f.ino)|
      invariant Looping(f.sb, old(f.ino), old(f.blk), old(f.logged), f.ino, f.blk, f.own, f.logged, D, B, i, off, tot,
                        data)
    {
      var m;
      ok, m, D, B := WriteTurn(f, i, off, tot, data, avail, old(f.ino), old(f.blk), old(f.logged), D, B, ib);
      if !ok || tot + m > avail {
        return;
      }
      tot := tot + m;
    }
    LoopDone(f.sb, old(f.ino), old(f.blk), old(f.logged), f.ino, f.blk, f.own, f.logged, D, B, i, off, data,
             f.logged + {ib});
    ok := true;
  }

  ghost predicate FileKept(ino0: seq<Inode>, blk0: seq<Block>, ino: seq<Inode>, blk: seq<Block>, j: nat)
    requires j < |ino0| && j < |ino|
  {
    ino[j] == ino0[j] && HoleFree(ino[j], blk) && Contents(ino[j], blk) == Contents(ino0[j], blk0)
  }

  /** Every other hole-free file keeps its inode and its contents. */
  ghost predicate OthersKept(ino0: seq<Inode>, blk0: seq<Block>, ino: seq<Inode>, blk: seq<Block>, i: nat) {
    |ino| == |ino0| && forall j: nat {:trigger FileKept(ino0, blk0, ino, blk, j)} ::
      j < |ino| && j != i && HoleFree(ino0[j], blk0) ==>
      FileKept(ino0, blk0, ino, blk, j)
  }

  lemma InodeBlock(sb: Super, i: nat)
    requires sb.Valid() && i < sb.ninodes
    ensures Iblock(sb, i) < sb.dataStart
  {
    assert i / IPB <= sb.ninodes / IPB;
  }

  /** writei(): the file becomes prefix + data + untouched suffix, stays free of holes, and no
      other file changes.  -1 exactly when off is past the end, off + n wraps around, or the
      file would grow past MAXFILE blocks.  What it logs is bounded by LogBound.  If only the first
      `avail` bytes of the source can be copied, whole stretches of them count; the bytes of the last
      stretch are in its buffer, and that buffer is in the transaction exactly if it does not tear. */
  method Writei(f: Fs, i: nat, off: nat, data: seq<Byte>, avail: nat) returns (r: Result)
    requires f.Valid() && i < |f.ino| && HoleFree(f.ino[i], f.blk) && off < U32 && |data| < U32 && avail <= |data|
    modifies f
    ensures r.Fail? <==> off > old(f.ino)[i].size || off + |data| >= U32 || off + |data| > MAXBYTES
    ensures r.Fail? ==>
              f.ino == old(f.ino) && f.blk == old(f.blk) && f.dino == old(f.dino) && f.logged == old(f.logged) &&
              f.own == old(f.own)
    ensures r.Panic? ==> Full(f.sb, f.blk) && Missing(old(f.ino)[i], old(f.blk), off, |data|)
    ensures r.Count? ==> r.n == Whole(off, |data|, avail) <= avail
    ensures r.Count? ==> f.Valid() && |f.ino| == |old(f.ino)| && off <= old(f.ino)[i].size
    ensures r.Count? ==> Contents(f.ino[i], f.blk) == Torn(Contents(old(f.ino)[i], old(f.blk)), off, data, r.n, avail)
    ensures r.Count? ==> HoleFree(f.ino[i], f.blk) && f.dino == old(f.dino)[i := f.ino[i]]
    ensures r.Count? ==> OthersKept(old(f.ino), old(f.blk), f.ino, f.blk, i)
    ensures r.Count? ==> |f.logged| <= |old(f.logged)| + LogBound(off, |data|)
    ensures r.Count? ==>
              (Kept(old(f.blk), f.blk, f.logged) <==>
                 !Tears(old(f.ino), old(f.blk), old(f.logged), i, off, data, avail))
  {
    OverflowIff(off, |data|);
    if off > f.ino[i].size || Overflows(off, |data|) {
      return Fail;
    }
    if off + |data| > MAXBYTES {
      return Fail;
    }
    ghost var ino0, blk0 := f.ino, f.blk;
    ghost var D, B;
    InodeBlock(f.sb, i);
    var ok, tot;
    ok, tot, D, B := WriteLoop(f, i, off, data, avail, Iblock(f.sb, i));
    if !ok {
      return Panic;
    }
    WholeLess(off, |data|, avail);
    ghost var ino1 := f.ino;
    if off + tot > f.ino[i].size {
      f.ino := f.ino[i := Resized(f.ino[i], off + tot)];
    }
    WriteEnd(f.sb, ino0, blk0, ino1, f.blk, f.own, i, off, data, tot, avail, f.ino);
    BudgetBound(f.sb, old(f.logged), f.logged, D, B, ino1[i].addrs[NDIRECT], off, |data|, Iblock(f.sb, i));
    f.Iupdate(i);
    return Count(tot);
  }

  lemma WholeLess(off: nat, n: nat, avail: nat)
    requires avail <= n
    ensures Whole(off, n, avail) <= avail
  {
  }

  lemma WriteEnd(sb: Super, ino0: seq<Inode>, blk0: seq<Block>, ino1: seq<Inode>, blk: seq<Block>, own: map<nat, Own>,
                 i: nat, off: nat, data: seq<Byte>, tot: nat, avail: nat, ino: seq<Inode>)
    requires Writing(sb, ino0, blk0, ino1, blk, own, i, off, avail, data) && HoleFree(ino0[i], blk0) &&
             off <= ino0[i].size && tot <= avail
    requires ino == ino1[i := Resized(ino1[i], NewSize(ino1[i].size, off + tot))]
    ensures Inv(sb, ino, blk, own) && HoleFree(ino[i], blk)
    ensures Contents(ino[i], blk) == Torn(Contents(ino0[i], blk0), off, data, tot, avail)
    ensures OthersKept(ino0, blk0, ino, blk, i)
  {
    ResizeOk(sb, ino1, blk, own, i, NewSize(ino1[i].size, off + tot));
    WrittenContents(sb, ino0, blk0, ino1, blk, own, i, off, data, tot, avail, ino[i]);
    forall j: nat | j < |ino| && j != i && HoleFree(ino0[j], blk0) ensures FileKept(ino0, blk0, ino, blk, j) {
      OtherContents(sb, ino0, blk0, ino1, blk, own, i, off, avail, data, j);
    }
  }

  // ---------------------------------------------------------------- filewrite()

  lemma WrittenTwice(c: seq<Byte>, off: nat, a: seq<Byte>, b: seq<Byte>)
    requires off <= |c|
    ensures off + |a| <= |Written(c, off, a)| && Written(Written(c, off, a), off + |a|, b) == Written(c, off, a + b)
  {
  }

  /** A write of the next m bytes, of which t count and w reach the buffers, after k whole ones. */
  lemma TornTwice(c: seq<Byte>, off: nat, data: seq<Byte>, k: nat, m: nat, t: nat, w: nat)
    requires off <= |c| && k + m <= |data| && t <= w <= m
    ensures var c1 := Torn(c, off, data, k, k);
            off + k <= |c1| && Torn(c1, off + k, data[k..k + m], t, w) == Torn(c, off, data, k + t, k + w)
  {
    TornWhole(c, off, data, k);
    WrittenTwice(c, off, data[..k], data[k..k + m][..w]);
    assert data[..k] + data[k..k + m][..w] == data[..k + w];
  }

  lemma OthersKeptTrans(ino0: seq<Inode>, blk0: seq<Block>, ino1: seq<Inode>, blk1: seq<Block>, ino: seq<Inode>,
                        blk: seq<Block>, i: nat)
    requires OthersKept(ino0, blk0, ino1, blk1, i) && OthersKept(ino1, blk1, ino, blk, i)
    ensures OthersKept(ino0, blk0, ino, blk, i)
  {
    forall j: nat | j < |ino| && j != i && HoleFree(ino0[j], blk0) ensures FileKept(ino0, blk0, ino, blk, j) {
      assert FileKept(ino0, blk0, ino1, blk1, j);
      assert FileKept(ino1, blk1, ino, blk, j);
    }
  }

  /** filewrite() with k bytes counted and w bytes in the buffers. */
  ghost predicate Progress(ino0: seq<Inode>, blk0: seq<Block>, ino: seq<Inode>, blk: seq<Block>, i: nat, off: nat,
                           data: seq<Byte>, k: nat, w: nat) {
    && i < |ino| && OthersKept(ino0, blk0, ino, blk, i) && HoleFree(ino[i], blk) && k <= w <= |data|
    && if off > ino0[i].size then ino == ino0 && blk == blk0 && w == 0
       else Contents(ino[i], blk) == Torn(Contents(ino0[i], blk0), off, data, k, w)
  }

  lemma ProgressStep(ino0: seq<Inode>, blk0: seq<Block>, ino1: seq<Inode>, blk1: seq<Block>, ino: seq<Inode>,
                     blk: seq<Block>, i: nat, off: nat, data: seq<Byte>, k: nat, m: nat, t: nat, w: nat)
    requires Progress(ino0, blk0, ino1, blk1, i, off, data, k, k) && k + m <= |data| && t <= w <= m
    requires off <= ino0[i].size && off + k <= ino1[i].size
    requires OthersKept(ino1, blk1, ino, blk, i) && HoleFree(ino[i], blk)
    requires Contents(ino[i], blk) == Torn(Contents(ino1[i], blk1), off + k, data[k..k + m], t, w)
    ensures Progress(ino0, blk0, ino, blk, i, off, data, k + t, k + w)
  {
    OthersKeptTrans(ino0, blk0, ino1, blk1, ino, blk, i);
    TornTwice(Contents(ino0[i], blk0), off, data, k, m, t, w);
  }

  /** One transaction of filewrite(): begin_op, writei of a chunk, end_op. */
  method WriteChunk(f: Fs, i: nat, off: nat, chunk: seq<Byte>, avail: nat) returns (r: Result, ghost tx: set<nat>)
    requires f.Valid() && i < |f.ino| && HoleFree(f.ino[i], f.blk) && off < U32 && |chunk| <= CHUNK && avail <= |chunk|
    modifies f
    ensures r.Fail? <==> off > old(f.ino)[i].size || off + |chunk| > MAXBYTES
    ensures r.Fail? ==> f.ino == old(f.ino) && f.blk == old(f.blk) && f.own == old(f.own) && f.dino == old(f.dino)
    ensures r.Panic? ==> Full(f.sb, f.blk) && Missing(old(f.ino)[i], old(f.blk), off, |chunk|)
    ensures r.Count? ==> r.n == Whole(off, |chunk|, avail) <= avail
    ensures r.Count? ==> f.Valid() && |f.ino| == |old(f.ino)| && off <= old(f.ino)[i].size
    ensures r.Count? ==> Contents(f.ino[i], f.blk) == Torn(Contents(old(f.ino)[i], old(f.blk)), off, chunk, r.n, avail)
    ensures r.Count? ==> HoleFree(f.ino[i], f.blk) && OthersKept(old(f.ino), old(f.blk), f.ino, f.blk, i)
    ensures !r.Panic? ==> |tx| <= LogFormat.MAXOPBLOCKS
    ensures r.Count? ==>
              (Kept(old(f.blk), f.blk, tx) <==> !Tears(old(f.ino), old(f.blk), {}, i, off, chunk, avail))
  {
    f.logged := {};
    ChunkFits(off, |chunk|);
    r := Writei(f, i, off, chunk, avail);
    tx := f.logged;
  }

  /** A run that tears: two bytes into a block that is there, of which only the first can be copied. */
  method TornWrite() returns (f: Fs, ghost before: seq<Block>, ghost tx: set<nat>)
    ensures !Kept(before, f.blk, tx)
  {
    f := new Fs(Super(10, 1, 2, 3, 4), 1);
    NotFull(f.sb, f.ino, f.blk, f.own);
    var b := f.Bmap(0, 0);
    before := f.blk;
    ghost var ip := f.ino[0];
    assert b.Some? && before[b.value] == ZeroBlock();
    forall l: nat | l * BSIZE < 2 ensures Slot(ip, before, l) != 0 { assert l == 0; }
    var r;
    SlotUsed(f.sb, f.ino, f.blk, f.own, 0, 0);
    assert Tears(f.ino, before, {}, 0, 0, [1, 2], 1) by {
      assert before[b.value][0..1][0] == 0 && [1, 2][0..1][0] == 1;
    }
    r, tx := WriteChunk(f, 0, 0, [1, 2], 1);
  }

  lemma NotFull(sb: Super, ino: seq<Inode>, blk: seq<Block>, own: map<nat, Own>)
    requires Inv(sb, ino, blk, own) && own == map[] && sb.dataStart < sb.size
    ensures !Full(sb, blk)
  {
    BitmapBlock(sb, sb.dataStart);
    assert !Used(sb, blk, sb.dataStart);
  }

  /** How much of the chunk from k on can be copied. */
  function Left(avail: nat, k: nat, n: nat): nat
    requires k <= avail
  {
    Least(avail - k, n)
  }

  /** Every transaction logs at most MAXOPBLOCKS distinct blocks. */
  ghost predicate Fit(txs: seq<set<nat>>) {
    forall t :: 0 <= t < |txs| ==> |txs[t]| <= LogFormat.MAXOPBLOCKS
  }

  /** The state of the loop of filewrite(). */
  ghost predicate Filing(ino0: seq<Inode>, blk0: seq<Block>, ino: seq<Inode>, blk: seq<Block>, i: nat, off: nat,
                         data: seq<Byte>, k: nat, avail: nat) {
    && i < |ino0| && k <= avail <= |data| && Progress(ino0, blk0, ino, blk, i, off, data, k, k)
    && (k > 0 ==> off + k <= ino[i].size && off <= ino0[i].size && off + k <= MAXBYTES)
  }

  /** What filewrite() has done when it returns. */
  ghost predicate Filed(ino0: seq<Inode>, blk0: seq<Block>, ino: seq<Inode>, blk: seq<Block>, i: nat, off: nat,
                        data: seq<Byte>, avail: nat, r: Result, done: nat, w: nat)
    requires i < |ino0|
  {
    && Progress(ino0, blk0, ino, blk, i, off, data, done, w)
    && (r.Count? ==> r.n == done == w == |data|)
    && (r.Count? && |data| > 0 ==> off <= ino0[i].size && off + |data| <= MAXBYTES && avail == |data|)
    && (r.Fail? ==> |data| > 0 && (off > ino0[i].size || off + |data| > MAXBYTES || w == avail < |data|))
  }

  lemma AllFiled(ino0: seq<Inode>, blk0: seq<Block>, ino: seq<Inode>, blk: seq<Block>, i: nat, off: nat,
                 data: seq<Byte>, avail: nat)
    requires Filing(ino0, blk0, ino, blk, i, off, data, |data|, avail)
    ensures Filed(ino0, blk0, ino, blk, i, off, data, avail, Count(|data|), |data|, |data|)
  {
  }

  lemma ChunkDone(ino0: seq<Inode>, blk0: seq<Block>, ino1: seq<Inode>, blk1: seq<Block>, ino: seq<Inode>,
                  blk: seq<Block>, i: nat, off: nat, data: seq<Byte>, k: nat, n1: nat, t: nat, avail: nat)
    requires Filing(ino0, blk0, ino1, blk1, i, off, data, k, avail) && 0 < n1 && k + n1 <= |data|
    requires off + k <= ino1[i].size && off + k + n1 <= MAXBYTES && t == Whole(off + k, n1, Left(avail, k, n1))
    requires OthersKept(ino1, blk1, ino, blk, i) && HoleFree(ino[i], blk) && t <= Left(avail, k, n1)
    requires Contents(ino[i], blk) ==
             Torn(Contents(ino1[i], blk1), off + k, data[k..k + n1], t, Left(avail, k, n1))
    ensures off <= ino0[i].size
    ensures t == n1 ==> Filing(ino0, blk0, ino, blk, i, off, data, k + n1, avail)
    ensures t != n1 ==> Filed(ino0, blk0, ino, blk, i, off, data, avail, Fail, k + t, avail)
  {
    StartsInFile(ino0, blk0, ino1, blk1, i, off, data, k);
    ProgressStep(ino0, blk0, ino1, blk1, ino, blk, i, off, data, k, n1, t, Left(avail, k, n1));
    if t == n1 { ProgressSize(ino0, blk0, ino, blk, i, off, data, k + n1, k + n1); }
  }

  lemma ChunkFailed(ino0: seq<Inode>, blk0: seq<Block>, ino: seq<Inode>, blk: seq<Block>, i: nat, off: nat,
                    data: seq<Byte>, k: nat, n1: nat, avail: nat)
    requires Filing(ino0, blk0, ino, blk, i, off, data, k, avail) && 0 < n1 && k + n1 <= |data|
    requires off + k > ino[i].size || off + k + n1 > MAXBYTES
    ensures Filed(ino0, blk0, ino, blk, i, off, data, avail, Fail, k, k)
  {
    if k == 0 && off <= ino0[i].size { assert |Contents(ino[i], blk)| == ino[i].size; }
  }

  /** One turn of the loop of filewrite(). */
  method NextChunk(f: Fs, i: nat, off: nat, data: seq<Byte>, k: nat, n1: nat, avail: nat, ghost ino0: seq<Inode>,
                   ghost blk0: seq<Block>, ghost txs: seq<set<nat>>)
    returns (r: Result, ghost txs': seq<set<nat>>)
    requires f.Valid() && Fit(txs) && Filing(ino0, blk0, f.ino, f.blk, i, off, data, k, avail)
    requires off < U32 && 0 < n1 <= CHUNK && k + n1 <= |data|
    modifies f
    ensures r.Panic? ==> Full(f.sb, f.blk)
    ensures (!r.Panic? ==> f.Valid()) && Fit(txs')
    ensures r.Fail? ==> Filed(ino0, blk0, f.ino, f.blk, i, off, data, avail, Fail, k, k)
    ensures r.Count? ==> r.n <= n1
    ensures r.Count? && r.n == n1 ==> Filing(ino0, blk0, f.ino, f.blk, i, off, data, k + n1, avail)
    ensures r.Count? && r.n != n1 ==> Filed(ino0, blk0, f.ino, f.blk, i, off, data, avail, Fail, k + r.n, avail)
  {
    ghost var ino1, blk1 := f.ino, f.blk;
    ghost var tx;
    r, tx := WriteChunk(f, i, off + k, data[k..k + n1], Left(avail, k, n1));
    txs' := if r.Panic? then txs else txs + [tx];
    if r.Fail? { ChunkFailed(ino0, blk0, ino1, blk1, i, off, data, k, n1, avail); }
    if r.Count? { ChunkDone(ino0, blk0, ino1, blk1, f.ino, f.blk, i, off, data, k, n1, r.n, avail); }
  }

  lemma StartsInFile(ino0: seq<Inode>, blk0: seq<Block>, ino: seq<Inode>, blk: seq<Block>, i: nat, off: nat,
                     data: seq<Byte>, k: nat)
    requires i < |ino0| && Progress(ino0, blk0, ino, blk, i, off, data, k, k) && off + k <= ino[i].size
    ensures off <= ino0[i].size
  {
  }

  function ChunkSize(left: nat): (n: nat)
    requires left > 0
    ensures 0 < n <= CHUNK && n <= left
  {
    if left > CHUNK then CHUNK else left
  }

  /** The file is at least as long as what has been counted. */
  lemma ProgressSize(ino0: seq<Inode>, blk0: seq<Block>, ino: seq<Inode>, blk: seq<Block>, i: nat, off: nat,
                     data: seq<Byte>, k: nat, w: nat)
    requires i < |ino0| && Progress(ino0, blk0, ino, blk, i, off, data, k, w) && k > 0
    ensures off + k <= ino[i].size
  {
    assert |Contents(ino[i], blk)| == ino[i].size;
  }

  /** filewrite() on a file: writes all of data at the file offset, which advances by `done`, in
      transactions that each log at most MAXOPBLOCKS distinct blocks.  It fails exactly when the
      offset is past the end, the file would outgrow MAXFILE blocks, or not all of data can be copied;
      the chunks before the failing one stay written. */
  method Filewrite(f: Fs, i: nat, off: nat, data: seq<Byte>, avail: nat)
    returns (r: Result, done: nat, ghost w: nat, ghost txs: seq<set<nat>>)
    requires f.Valid() && i < |f.ino| && HoleFree(f.ino[i], f.blk) && off < U32 && |data| < 0x8000_0000
    requires avail <= |data|
    modifies f
    ensures Fit(txs)
    ensures r.Panic? ==> Full(f.sb, f.blk)
    ensures !r.Panic? ==> f.Valid()
    ensures !r.Panic? ==> Filed(old(f.ino), old(f.blk), f.ino, f.blk, i, off, data, avail, r, done, w)
  {
    txs := [];
    FilingStart(f.ino, f.blk, i, off, data, avail);
    done, w := 0, 0;
    while done < |data|
      invariant 0 <= done <= |data| && w == done && f.Valid() && Fit(txs)
      invariant Filing(old(f.ino), old(f.blk), f.ino, f.blk, i, off, data, done, avail)
    {
      var n1 := ChunkSize(|data| - done);
      r, txs := NextChunk(f, i, off, data, done, n1, avail, old(f.ino), old(f.blk), txs);
      if !r.Count? {
        return;
      }
      done := done + r.n;
      if r.n != n1 {
        w, r := avail, Fail;
        return;
      }
      w := done;
    }
    AllFiled(old(f.ino), old(f.blk), f.ino, f.blk, i, off, data, avail);
    r := Count(|data|);
  }

  lemma FilingStart(ino: seq<Inode>, blk: seq<Block>, i: nat, off: nat, data: seq<Byte>, avail: nat)
    requires i < |ino| && HoleFree(ino[i], blk) && avail <= |data|
    ensures Filing(ino, blk, ino, blk, i, off, data, 0, avail)
  {
    if off <= ino[i].size { TornWhole(Contents(ino[i], blk), off, data, 0); }
  }
}
