/** kernel/log.c in its own form: loops over the in-memory log header, one disk write at a
    time.  `images` records the disk after every single write; the contracts speak about
    each of them, since each is a disk a crash can leave behind. */
module LogDevice {
  import opened LogFormat
  import opened LogProofs

  /** Buffers of blocks that are not logged hold what the disk holds; logged blocks are pinned. */
  ghost predicate Agrees(cache: map<int, Block>, lh: seq<int>, d: Disk) {
    && (forall b :: b in cache && b !in lh ==> 0 <= b < |d| && cache[b] == d[b])
    && (forall i :: 0 <= i < |lh| ==> lh[i] in cache)
  }

  /** Image `e` holds the cached content of every logged block. */
  ghost predicate TakesCache(cache: map<int, Block>, lh: seq<int>, e: Disk) {
    forall i :: 0 <= i < |lh| ==> 0 <= lh[i] < |e| && lh[i] in cache && e[lh[i]] == cache[lh[i]]
  }

  /** Every disk image in positions `k` to `m` recovers to `durable`. */
  ghost predicate Safe(L: Layout, images: seq<Disk>, k: nat, m: nat, durable: Disk) {
    m <= |images| && forall i :: k <= i < m ==> Recoverable(L, images[i], durable)
  }

  /** `images` extends `before` by images that all recover to `durable`. */
  ghost predicate Extends(L: Layout, before: seq<Disk>, images: seq<Disk>, m: nat, durable: Disk) {
    |images| == |before| + m && images[..|before|] == before && Safe(L, images, |before|, |images|, durable)
  }

  lemma ExtendOne(L: Layout, before: seq<Disk>, images: seq<Disk>, m: nat, durable: Disk, d: Disk)
    requires Extends(L, before, images, m, durable) && Recoverable(L, d, durable)
    ensures Extends(L, before, images + [d], m + 1, durable)
  {
  }

  /** The first `t` log blocks hold the `e` contents of the blocks they stand for. */
  ghost predicate LoggedUpTo(L: Layout, d: Disk, lh: seq<int>, t: nat, e: Disk)
    requires L.Valid() && LoggableList(L, lh) && |d| == |e| == L.nblocks
  {
    t <= |lh| && forall i :: 0 <= i < t ==> d[L.start + 1 + i] == e[lh[i]]
  }

  ghost predicate HomeUpTo(d: Disk, lh: seq<int>, t: nat, e: Disk) {
    |d| == |e| && t <= |lh| && forall i :: 0 <= i < t ==> 0 <= lh[i] < |d| && d[lh[i]] == e[lh[i]]
  }

  /** Buffers hold what the disk holds, except those of the log entries from `t` on. */
  ghost predicate CleanUpTo(cache: map<int, Block>, lh: seq<int>, t: nat, d: Disk) {
    t <= |lh| && forall b :: b in cache ==> 0 <= b < |d| && (b in lh[t..] || cache[b] == d[b])
  }

  /** write_log() with `t` blocks copied: crashes still recover to `durable`, and `e` is what is being logged. */
  ghost predicate Logging(L: Layout, d: Disk, cache: map<int, Block>, lh: seq<int>, t: nat, durable: Disk, e: Disk) {
    && Recoverable(L, d, durable) && Header(d[L.start]) == []
    && LoggableList(L, lh) && |e| == L.nblocks
    && Agrees(cache, lh, d) && TakesCache(cache, lh, e)
    && LoggedUpTo(L, d, lh, t, e)
  }

  /** install_trans() with `t` blocks copied: crashes recover to `e`. */
  ghost predicate Installing(L: Layout, d: Disk, cache: map<int, Block>, lh: seq<int>, t: nat, e: Disk) {
    && Recoverable(L, d, e) && Header(d[L.start]) == lh
    && HomeUpTo(d, lh, t, e) && CleanUpTo(cache, lh, t, d)
  }

  lemma InstallOne(L: Layout, d: Disk, cache: map<int, Block>, lh: seq<int>, t: nat, e: Disk)
    requires Installing(L, d, cache, lh, t, e) && t < |lh|
    ensures L.start + 1 + t in cache ==> cache[L.start + 1 + t] == d[L.start + 1 + t]
    ensures var b, v := lh[t], d[L.start + 1 + t];
            Installing(L, d[b := v], cache[b := v], lh, t + 1, e)
  {
    LogBlockNotListed(L, lh, L.start + 1 + t);
    CopyHome(L, d, e, t);
    assert lh[t..] == [lh[t]] + lh[t + 1..];
  }

  lemma LogOne(L: Layout, d: Disk, cache: map<int, Block>, lh: seq<int>, t: nat, durable: Disk, e: Disk)
    requires Logging(L, d, cache, lh, t, durable, e) && t < |lh|
    ensures lh[t] in cache && cache[lh[t]] == e[lh[t]]
    ensures var b, v := L.start + 1 + t, e[lh[t]];
            Logging(L, d[b := v], cache[b := v], lh, t + 1, durable, e)
  {
    WriteKeepsRecoverable(L, d, durable, L.start + 1 + t, e[lh[t]]);
    LogBlockNotListed(L, lh, L.start + 1 + t);
  }

  /** The header write on top of a complete log is the commit point. */
  lemma CommitHead(L: Layout, d: Disk, cache: map<int, Block>, lh: seq<int>, durable: Disk, e: Disk, hb: Block)
    requires Logging(L, d, cache, lh, |lh|, durable, e) && Distinct(lh)
    requires forall b :: 0 <= b < L.nblocks && b !in lh ==> e[b] == durable[b]
    ensures var v := WithHeader(hb, lh);
            Installing(L, d[L.start := v], cache[L.start := v], lh, 0, e)
  {
    HeaderCommits(L, d, durable, e, lh, hb);
    LogBlockNotListed(L, lh, L.start);
    assert lh[0..] == lh;
  }

  /** The home blocks as the logged operations want them. */
  ghost function Target(cache: map<int, Block>, lh: seq<int>, d: Disk): (e: Disk)
    ensures |e| == |d|
  {
    seq(|d|, b requires 0 <= b < |d| => if b in lh && b in cache then cache[b] else d[b])
  }

  lemma StartLogging(L: Layout, d: Disk, cache: map<int, Block>, lh: seq<int>)
    requires WellFormed(L, d) && Header(d[L.start]) == [] && LoggableList(L, lh) && Agrees(cache, lh, d)
    ensures Logging(L, d, cache, lh, 0, d, Target(cache, lh, d))
  {
  }

  /** Recovery from any of the disk images in positions `k` to `m` yields the home blocks of `d`. */
  ghost predicate RecoversTo(L: Layout, images: seq<Disk>, k: nat, m: nat, d: Disk) {
    m <= |images| &&
    forall i :: k <= i < m ==> WellFormed(L, images[i]) && SameHome(L, Recover(L, images[i]), d)
  }

  lemma SafeRecovers(L: Layout, images: seq<Disk>, k: nat, m: nat, durable: Disk, d: Disk)
    requires Safe(L, images, k, m, durable) && SameHome(L, durable, d)
    ensures RecoversTo(L, images, k, m, d)
  {
    forall i | k <= i < m ensures WellFormed(L, images[i]) && SameHome(L, Recover(L, images[i]), d) {
      RecoverableRecovers(L, images[i], durable);
    }
  }

  lemma EmptyLogIsHome(L: Layout, d: Disk, durable: Disk)
    requires Recoverable(L, d, durable) && Header(d[L.start]) == []
    ensures SameHome(L, d, durable)
  {
  }

  class Log {
    const L: Layout
    const disk: array<Block>
    const block: array<int>          // lh.block
    var n: nat                       // lh.n
    var cache: map<int, Block>
    var outstanding: int
    var committing: bool
    ghost var images: seq<Disk>
    ghost var unspent: nat           // blocks the outstanding operations may still add

    /** Log space is not promised twice: what is in the log and what the outstanding operations may
        still add fits together. */
    ghost predicate Reserved()
      reads this
    {
      n + unspent <= LOGSIZE && unspent <= outstanding * MAXOPBLOCKS
    }

    ghost predicate Valid()
      reads this, disk, block
    {
      && L.Valid() && disk.Length == L.nblocks
      && block.Length == LOGSIZE && n <= LOGSIZE
      && LoggableList(L, block[..n]) && Distinct(block[..n])
    }

    /** initlog(): an empty cache and no operation, and then recovery.  The log is empty, the home blocks
        are what the disk recovers to, and so they are after a crash at any write on the way. */
    constructor (L: Layout, disk: array<Block>)
      requires L.Valid() && disk.Length == L.nblocks && WellFormed(L, disk[..]) && 0 <= disk[L.start][0] <= LOGSIZE
      modifies disk
      ensures this.L == L && this.disk == disk && fresh(block) && Valid() && Reserved() && outstanding == 0 &&
              !committing
      ensures n == 0 && Header(disk[L.start]) == [] && Agrees(cache, [], disk[..]) && WellFormed(L, disk[..])
      ensures SameHome(L, disk[..], Recover(L, old(disk[..])))
      ensures RecoversTo(L, images, 0, |images|, Recover(L, old(disk[..])))
    {
      this.L, this.disk, block := L, disk, new int[LOGSIZE];
      n, cache, outstanding, committing, images, unspent := 0, map[], 0, false, [], 0;
      new;
      RecoverFromLog();
    }

    /** bread(): the data of block b. */
    method Read(b: int) returns (v: Block)
      requires 0 <= b < disk.Length
      ensures v == if b in cache then cache[b] else disk[b]
    {
      if b in cache { v := cache[b]; } else { v := disk[b]; }
    }

    /** bwrite(): one atomic block write. */
    method Write(b: int, v: Block)
      requires 0 <= b < disk.Length
      modifies disk, this`cache, this`images
      ensures disk[..] == old(disk[..])[b := v] && cache == old(cache)[b := v]
      ensures images == old(images) + [disk[..]]
    {
      disk[b] := v;
      cache := cache[b := v];
      images := images + [disk[..]];
    }

    /** write_log(): cached blocks into the log; a crash here still recovers to `durable`. */
    method WriteLog(ghost durable: Disk, ghost e: Disk)
      requires Valid() && Logging(L, disk[..], cache, block[..n], 0, durable, e)
      modifies disk, this`cache, this`images
      ensures Logging(L, disk[..], cache, block[..n], n, durable, e)
      ensures Extends(L, old(images), images, n, durable)
    {
      var tail := 0;
      ghost var lh := block[..n];
      while tail < n
        invariant 0 <= tail <= n && Logging(L, disk[..], cache, lh, tail, durable, e)
        invariant Extends(L, old(images), images, tail, durable)
      {
        LogOne(L, disk[..], cache, lh, tail, durable, e);
        assert lh[tail] == block[tail];
        ghost var d, im := disk[..], images;
        var data := Read(block[tail]);
        var b := L.start + 1 + tail;
        ExtendOne(L, old(images), im, tail, durable, d[b := data]);
        Write(b, data);
        tail := tail + 1;
      }
    }

    /** The header block that write_head() builds from lh. */
    method BuildHead(hb0: Block) returns (hb: Block)
      requires block.Length == LOGSIZE && n <= LOGSIZE
      ensures hb == WithHeader(hb0, block[..n])
    {
      hb := hb0[0 := n];
      var i := 0;
      while i < n
        invariant 0 <= i <= n
        invariant hb == [n] + block[..i] + hb0[1 + i..]
      {
        hb := hb[1 + i := block[i]];
        i := i + 1;
      }
    }

    /** write_head(): the in-memory header to disk. */
    method WriteHead() returns (ghost hb: Block)
      requires L.Valid() && disk.Length == L.nblocks && block.Length == LOGSIZE && n <= LOGSIZE
      modifies disk, this`cache, this`images
      ensures disk[..] == old(disk[..])[L.start := WithHeader(hb, block[..n])]
      ensures cache == old(cache)[L.start := WithHeader(hb, block[..n])]
      ensures images == old(images) + [disk[..]]
    {
      var h := Read(L.start);
      hb := h;
      var head := BuildHead(h);
      Write(L.start, head);
    }

    /** install_trans(): log blocks to their home locations; a crash here recovers to `e`. */
    method InstallTrans(ghost e: Disk)
      requires Valid() && Installing(L, disk[..], cache, block[..n], 0, e)
      modifies disk, this`cache, this`images
      ensures Installing(L, disk[..], cache, block[..n], n, e)
      ensures Extends(L, old(images), images, n, e)
    {
      var tail := 0;
      ghost var lh := block[..n];
      while tail < n
        invariant 0 <= tail <= n && Installing(L, disk[..], cache, lh, tail, e)
        invariant Extends(L, old(images), images, tail, e)
      {
        InstallOne(L, disk[..], cache, lh, tail, e);
        var data := Read(L.start + 1 + tail);
        assert lh[tail] == block[tail];
        ExtendOne(L, old(images), images, tail, e, disk[..][block[tail] := data]);
        Write(block[tail], data);
        tail := tail + 1;
      }
    }

    /** lh.n = 0 and the clearing header write. */
    method ClearLog(ghost e: Disk)
      requires Valid() && Installing(L, disk[..], cache, block[..n], n, e)
      modifies disk, this`cache, this`images, this`n
      ensures n == 0 && Recoverable(L, disk[..], e) && Header(disk[L.start]) == []
      ensures CleanUpTo(cache, [], 0, disk[..])
      ensures images == old(images) + [disk[..]]
    {
      ghost var d, lh := disk[..], block[..n];
      n := 0;
      ghost var hb := WriteHead();
      assert block[..0] == [];
      ClearedHeader(L, d, e, hb);
      assert lh[|lh|..] == [];
    }

    /** How both commit() and recover_from_log() end: install, then clear the log. */
    method InstallAndClear(ghost e: Disk)
      requires Valid() && Installing(L, disk[..], cache, block[..n], 0, e)
      modifies disk, this`cache, this`images, this`n
      ensures n == 0 && Valid() && WellFormed(L, disk[..]) && Header(disk[L.start]) == []
      ensures Agrees(cache, [], disk[..]) && SameHome(L, disk[..], e)
      ensures old(images) <= images && Safe(L, images, |old(images)|, |images|, e)
    {
      InstallTrans(e);
      ghost var im := images;
      ClearLog(e);
      EmptyLogIsHome(L, disk[..], e);
      assert im <= images && block[..0] == [];
    }

    /** The part of commit() up to and including the commit point. */
    method LogAndCommit(ghost e: Disk)
      requires Valid() && Agrees(cache, block[..n], disk[..]) && WellFormed(L, disk[..]) && Header(disk[L.start]) == []
      requires e == Target(cache, block[..n], disk[..])
      modifies disk, this`cache, this`images
      ensures Installing(L, disk[..], cache, block[..n], 0, e)
      ensures |images| == |old(images)| + n + 1 && images[|old(images)| + n] == disk[..]
      ensures Extends(L, old(images), images[..|old(images)| + n], n, old(disk[..]))
    {
      ghost var d, lh := disk[..], block[..n];
      StartLogging(L, d, cache, lh);
      WriteLog(d, e);
      ghost var d1, cache1, im := disk[..], cache, images;
      ghost var hb := WriteHead();
      CommitHead(L, d1, cache1, lh, d, e, hb);
      assert images[..|im|] == im;
    }

    /** commit(): atomic over crashes.  Until the header write every disk image recovers to the
        home blocks from before the call, from then on to the ones with all logged blocks updated,
        which is also what the disk holds when commit() returns. */
    method Commit()
      requires Valid() && Agrees(cache, block[..n], disk[..]) && WellFormed(L, disk[..]) && Header(disk[L.start]) == []
      modifies disk, this`cache, this`images, this`n
      ensures n == 0 && Valid() && Agrees(cache, [], disk[..]) && WellFormed(L, disk[..]) && Header(disk[L.start]) == []
      ensures SameHome(L, disk[..], Target(old(cache), old(block[..n]), old(disk[..])))
      ensures old(images) <= images
      ensures RecoversTo(L, images, |old(images)|, |old(images)| + old(n), old(disk[..]))
      ensures RecoversTo(L, images, |old(images)| + old(n), |images|, disk[..])
    {
      if n > 0 {
        CommitSome();
      } else {
        assert block[..0] == [];
      }
    }

    method CommitSome()
      requires n > 0
      requires Valid() && Agrees(cache, block[..n], disk[..]) && WellFormed(L, disk[..]) && Header(disk[L.start]) == []
      modifies disk, this`cache, this`images, this`n
      ensures n == 0 && Valid() && Agrees(cache, [], disk[..]) && WellFormed(L, disk[..]) && Header(disk[L.start]) == []
      ensures SameHome(L, disk[..], Target(old(cache), old(block[..n]), old(disk[..])))
      ensures old(images) <= images
      ensures RecoversTo(L, images, |old(images)|, |old(images)| + old(n), old(disk[..]))
      ensures RecoversTo(L, images, |old(images)| + old(n), |images|, disk[..])
    {
      ghost var e := Target(cache, block[..n], disk[..]);
      LogAndCommit(e);
      ghost var k, im := |images| - 1, images;
      SafeRecovers(L, im, |old(images)|, k, old(disk[..]), old(disk[..]));
      InstallAndClear(e);
      assert im <= images;
      SafeRecovers(L, images, k, |images|, e, disk[..]);
    }

    /** read_head(): the on-disk header into memory. */
    method ReadHead()
      requires L.Valid() && disk.Length == L.nblocks && block.Length == LOGSIZE && cache == map[]
      requires 0 <= disk[L.start][0] <= LOGSIZE && disk as object != block as object
      modifies this`n, this`cache, block
      ensures n <= LOGSIZE && block[..n] == Header(disk[L.start]) && disk[..] == old(disk[..])
      ensures cache == map[L.start := disk[L.start]]
    {
      var hb := Read(L.start);
      cache := cache[L.start := hb];
      n := hb[0];
      var i := 0;
      while i < n
        invariant cache == map[L.start := disk[L.start]] && n == hb[0] && 0 <= i <= n && block[..i] == hb[1..1 + i] &&
                  disk[..] == old(disk[..])
      {
        block[i] := hb[1 + i];
        i := i + 1;
      }
      WordsOf(hb, hb[1..1 + n], n);
    }

    /** recover_from_log(): completes to exactly Recover, and a crash at any of its own writes
        leaves a disk that recovers to the same home blocks. */
    method RecoverFromLog()
      requires L.Valid() && disk.Length == L.nblocks && block.Length == LOGSIZE && cache == map[]
      requires 0 <= disk[L.start][0] <= LOGSIZE && WellFormed(L, disk[..]) && disk as object != block as object
      modifies disk, block, this`n, this`cache, this`images
      ensures Valid() && n == 0 && Agrees(cache, [], disk[..])
      ensures WellFormed(L, disk[..]) && Header(disk[L.start]) == []
      ensures SameHome(L, disk[..], Recover(L, old(disk[..])))
      ensures old(images) <= images
      ensures RecoversTo(L, images, |old(images)|, |images|, Recover(L, old(disk[..])))
    {
      ghost var e := Recover(L, disk[..]);
      BootRecoverable(L, disk[..]);
      ReadHead();
      LogBlockNotListed(L, block[..n], L.start);
      InstallAndClear(e);
      SafeRecovers(L, images, |old(images)|, |images|, e, e);
    }

    /** begin_op(), one turn of its wait loop; false means it goes to sleep.  An operation is let in
        exactly if the worst case of all of them fits, and then has MAXOPBLOCKS blocks reserved. */
    method BeginOp() returns (admitted: bool)
      modifies this`outstanding, this`unspent
      ensures admitted <==> !committing && n + (old(outstanding) + 1) * MAXOPBLOCKS <= LOGSIZE
      ensures outstanding == old(outstanding) + (if admitted then 1 else 0)
      ensures unspent == old(unspent) + (if admitted then MAXOPBLOCKS else 0)
      ensures old(Reserved()) ==> Reserved()
    {
      if committing {
        admitted := false;
      } else if n + (outstanding + 1) * MAXOPBLOCKS > LOGSIZE {
        admitted := false;
      } else {
        outstanding := outstanding + 1;
        unspent := unspent + MAXOPBLOCKS;
        admitted := true;
      }
    }

    /** log_write(): the block joins the log once, however often it is written.  Within what was
        reserved the log cannot be full. */
    method LogWrite(b: int) returns (ok: bool)
      requires Valid() && L.Home(b) && b in cache
      modifies this`n, this`unspent, block
      ensures Valid()
      ensures old(Reserved()) && (old(unspent) > 0 || n == old(n)) ==> Reserved()
      ensures old(Reserved()) && old(unspent) > 0 ==> old(n) < LOGSIZE
      ensures ok <==> old(n) < LOGSIZE && old(n) < L.size - 1 && outstanding >= 1
      ensures !ok ==> n == old(n) && block[..n] == old(block[..n])
      ensures ok ==> block[..n] == if b in old(block[..n]) then old(block[..n]) else old(block[..n]) + [b]
    {
      if n >= LOGSIZE || n >= L.size - 1 {
        return false;                      // panic: too big a transaction
      }
      if outstanding < 1 {
        return false;                      // panic: log_write outside of trans
      }
      ghost var lh := block[..n];
      var i := 0;
      while i < n && block[i] != b
        invariant 0 <= i <= n && b !in block[..i]
      {
        i := i + 1;
      }
      block[i] := b;
      if i == n {
        n := n + 1;
        unspent := if unspent > 0 then unspent - 1 else 0;
        assert block[..n] == lh + [b];
      } else {
        assert block[..n] == lh;
      }
      ok := true;
    }

    /** end_op() by the last operation out, and by any other. */
    method EndOp() returns (ok: bool)
      requires Valid() && Agrees(cache, block[..n], disk[..]) && WellFormed(L, disk[..]) && Header(disk[L.start]) == []
      modifies disk, this
      ensures ok <==> !old(committing)
      ensures outstanding == old(outstanding) - 1
      ensures ok && outstanding >= 0 && old(Reserved()) ==> Reserved()
      ensures ok && outstanding == 0 ==>
                !committing && n == 0 && SameHome(L, disk[..], Target(old(cache), old(block[..n]), old(disk[..])))
                && RecoversTo(L, images, |old(images)|, |old(images)| + old(n), old(disk[..]))
                && RecoversTo(L, images, |old(images)| + old(n), |images|, disk[..])
      ensures !ok || outstanding != 0 ==> disk[..] == old(disk[..]) && images == old(images) && n == old(n)
    {
      outstanding := outstanding - 1;
      if 0 <= outstanding * MAXOPBLOCKS < unspent { unspent := outstanding * MAXOPBLOCKS; }
      if committing {
        return false;                      // panic: log.committing
      }
      if outstanding == 0 {
        committing := true;
        Commit();
        committing := false;
      }
      ok := true;
    }
  }
}
