/** kernel/bio.c.  Each method is what happens under bcache.lock, or to a buffer whose sleep-lock
    the caller holds, so processes interleave as sequences of these calls.  `store` is the plain
    block store the cache stands for: the last content every block was given. */
module BufferCache {
  import opened Prelude
  import opened CacheList
  import opened Counting
  import LogFormat

  type Block = LogFormat.Block

  datatype Key = Key(dev: nat, blockno: nat)
  datatype Buf = Buf(key: Key, refcnt: int, valid: bool, data: Block, locked: bool)

  /** For each buffer: how many processes got it from bget() and have not released it, how many pins
      it has, whether its content is newer than the disk's, and when it was last released. */
  datatype Use = Use(holds: nat, pins: nat, dirty: bool, stamp: nat)

  // ---------------------------------------------------------------- invariant

  /** refcnt counts holders and pins; a buffer nobody holds or pins has what the disk has. */
  predicate BufOk(b: Buf, g: Use, disk: map<Key, Block>, store: map<Key, Block>) {
    && b.refcnt == g.holds + g.pins
    && (b.locked ==> g.holds > 0)
    && (g.dirty ==> b.valid && (g.pins > 0 || b.locked))
    && (b.valid ==>
          b.key.dev != 0 && b.key in store && b.key in disk && b.data == store[b.key] &&
          (!g.dirty ==> b.data == disk[b.key]))
  }

  ghost predicate BufsOk(buf: seq<Buf>, use: seq<Use>, disk: map<Key, Block>, store: map<Key, Block>)
    requires |buf| == |use|
  {
    forall i: nat {:trigger BufOk(buf[i], use[i], disk, store)} :: i < |buf| ==> BufOk(buf[i], use[i], disk, store)
  }

  /** A block of a real device has at most one buffer. */
  ghost predicate OneEach(buf: seq<Buf>) {
    forall i, j :: 0 <= i < |buf| && 0 <= j < |buf| && i != j && buf[i].key.dev != 0 ==> buf[i].key != buf[j].key
  }

  predicate Changed(b: Buf, g: Use, k: Key) { b.key == k && g.dirty }

  /** Blocks that no buffer holds a change of are on disk. */
  ghost predicate OnDisk(k: Key, buf: seq<Buf>, use: seq<Use>, disk: map<Key, Block>, store: map<Key, Block>)
    requires |buf| == |use|
  {
    k in disk ==> k in store && (disk[k] == store[k] || exists i: nat :: i < |buf| && Changed(buf[i], use[i], k))
  }

  ghost predicate StoreOk(buf: seq<Buf>, use: seq<Use>, disk: map<Key, Block>, store: map<Key, Block>)
    requires |buf| == |use|
  {
    forall k: Key {:trigger OnDisk(k, buf, use, disk, store)} :: OnDisk(k, buf, use, disk, store)
  }

  /** All buffers are in the list, the more recently released ones first. */
  ghost predicate ListOk(prev: seq<nat>, next: seq<nat>, order: seq<nat>, use: seq<Use>, clock: nat) {
    && Links(prev, next, order) && Indices(order, NBUF) && |order| == NBUF == |use|
    && (forall i, j :: 0 <= i < j < NBUF ==> use[order[i]].stamp > use[order[j]].stamp)
    && (forall i :: 0 <= i < NBUF ==> use[i].stamp < clock)
  }

  // ---------------------------------------------------------------- one buffer changes

  lemma KeepBufs(buf: seq<Buf>, use: seq<Use>, disk: map<Key, Block>, store: map<Key, Block>, i: nat, b: Buf, g: Use)
    requires |buf| == |use| && BufsOk(buf, use, disk, store) && i < |buf| && BufOk(b, g, disk, store)
    ensures BufsOk(buf[i := b], use[i := g], disk, store)
  {
    var buf', use' := buf[i := b], use[i := g];
    forall j: nat | j < |buf'| ensures BufOk(buf'[j], use'[j], disk, store) {
      assert BufOk(buf[j], use[j], disk, store);
    }
  }

  lemma KeepStore(buf: seq<Buf>, use: seq<Use>, disk: map<Key, Block>, store: map<Key, Block>, i: nat, b: Buf, g: Use)
    requires |buf| == |use| && StoreOk(buf, use, disk, store) && i < |buf|
    requires use[i].dirty ==> g.dirty && b.key == buf[i].key
    ensures StoreOk(buf[i := b], use[i := g], disk, store)
  {
    var buf', use' := buf[i := b], use[i := g];
    forall k: Key ensures OnDisk(k, buf', use', disk, store) {
      assert OnDisk(k, buf, use, disk, store);
      if k in disk && disk[k] != store[k] {
        var j: nat :| j < |buf| && Changed(buf[j], use[j], k);
        assert Changed(buf'[j], use'[j], k);
      }
    }
  }

  lemma KeepList(prev: seq<nat>, next: seq<nat>, order: seq<nat>, use: seq<Use>, clock: nat, i: nat, g: Use)
    requires ListOk(prev, next, order, use, clock) && i < NBUF && g.stamp == use[i].stamp
    ensures ListOk(prev, next, order, use[i := g], clock)
  {
  }

  function Zeroes(): Block { seq(LogFormat.WORDS, i => 0) }

  lemma Place(order: seq<nat>, i: nat) returns (m: nat)
    requires Indices(order, NBUF) && |order| == NBUF && i < NBUF
    ensures m < NBUF && order[m] == i
  {
    Covers(order, NBUF);
    assert i in order;
    m :| m < NBUF && order[m] == i;
  }

  class Bcache {
    var buf: seq<Buf>
    var prev: seq<nat>
    var next: seq<nat>
    var disk: map<Key, Block>
    ghost var order: seq<nat>
    ghost var use: seq<Use>
    ghost var clock: nat
    ghost var store: map<Key, Block>

    ghost predicate Valid()
      reads this
    {
      && |buf| == |use| == NBUF
      && ListOk(prev, next, order, use, clock) && OneEach(buf)
      && BufsOk(buf, use, disk, store) && StoreOk(buf, use, disk, store)
    }

    /** binit(): the list is built by pushing one buffer after the other. */
    constructor (d: map<Key, Block>)
      ensures Valid() && disk == d && store == d
    {
      buf := seq(NBUF, i => Buf(Key(0, 0), 0, false, Zeroes(), false));
      disk, store := d, d;
      prev, next := seq(NBUF + 1, i => HEAD), seq(NBUF + 1, i => HEAD);
      order, clock := [], NBUF;
      use := seq(NBUF, i => Use(0, 0, false, if 0 <= i then i else 0));
      new;
      assert Links(prev, next, order) by { assert Link(prev, next, order, 0); }
      var b := 0;
      while b < NBUF
        invariant 0 <= b <= NBUF && Links(prev, next, order) && Indices(order, NBUF)
        invariant |order| == b && forall i :: 0 <= i < b ==> order[i] == b - 1 - i
        modifies this`prev, this`next, this`order
      {
        Push(prev, next, order, b);
        var n := next[HEAD];
        next := next[b := n];
        prev := prev[b := HEAD];
        prev := prev[n := b];
        next := next[HEAD := b];
        order := [b] + order;
        b := b + 1;
      }
      forall i: nat | i < NBUF ensures BufOk(buf[i], use[i], disk, store) {}
      forall k: Key ensures OnDisk(k, buf, use, disk, store) {}
    }

    /** The first loop of bget(). */
    method Lookup(k: Key) returns (r: Option<nat>)
      requires Valid()
      ensures r.Some? ==> r.value < NBUF && buf[r.value].key == k
      ensures r.None? ==> forall i: nat :: i < NBUF ==> buf[i].key != k
    {
      assert Link(prev, next, order, 0);
      var b := next[HEAD];
      ghost var n: nat := 1;
      while b != HEAD
        invariant 1 <= n <= NBUF + 1 && b == At(order, n)
        invariant forall m :: 0 <= m < n - 1 ==> buf[order[m]].key != k
        decreases NBUF + 1 - n
      {
        if buf[b].key == k {
          return Some(b);
        }
        assert Link(prev, next, order, n);
        b := next[b];
        n := n + 1;
      }
      forall i: nat | i < NBUF ensures buf[i].key != k { ghost var m := Place(order, i); }
      return None;
    }

    /** The second loop of bget(): the unreferenced buffer released least recently. */
    method Oldest() returns (r: Option<nat>)
      requires Valid()
      ensures r.Some? ==> r.value < NBUF && buf[r.value].refcnt == 0
      ensures r.Some? ==> forall j: nat :: j < NBUF && buf[j].refcnt == 0 ==> use[r.value].stamp <= use[j].stamp
      ensures r.None? ==> forall i: nat :: i < NBUF ==> buf[i].refcnt != 0
    {
      assert Link(prev, next, order, NBUF);
      var b := prev[HEAD];
      ghost var n: nat := NBUF;
      while b != HEAD
        invariant 0 <= n <= NBUF && b == At(order, n)
        invariant forall m :: n <= m < NBUF ==> buf[order[m]].refcnt != 0
        decreases n
      {
        if buf[b].refcnt == 0 {
          forall j: nat | j < NBUF && buf[j].refcnt == 0
            ensures use[b].stamp <= use[j].stamp { ghost var m := Place(order, j); }
          return Some(b);
        }
        assert Link(prev, next, order, n - 1);
        b := prev[b];
        n := n - 1;
      }
      forall i: nat | i < NBUF ensures buf[i].refcnt != 0 { ghost var m := Place(order, i); }
      return None;
    }

    /** One buffer gets new contents and bookkeeping; its place in the list stays. */
    method Put(i: nat, b: Buf, ghost g: Use)
      requires Valid() && i < NBUF && BufOk(b, g, disk, store) && g.stamp == use[i].stamp
      requires b.key == buf[i].key || (forall j: nat :: j < NBUF ==> buf[j].key != b.key)
      requires use[i].dirty ==> g.dirty && b.key == buf[i].key
      modifies this`buf, this`use
      ensures Valid() && buf == old(buf)[i := b] && use == old(use)[i := g]
    {
      KeepBufs(buf, use, disk, store, i, b, g);
      KeepStore(buf, use, disk, store, i, b, g);
      KeepList(prev, next, order, use, clock, i, g);
      buf := buf[i := b];
      use := use[i := g];
    }

    /** bget() under bcache.lock: the buffer of the block, or the least recently released buffer that
        nobody uses, taken over for it.  None stands for the panic. */
    method Bget(k: Key) returns (r: Option<nat>)
      requires Valid() && k.dev != 0
      modifies this`buf, this`use
      ensures Valid()
      ensures r.None? ==> buf == old(buf) && use == old(use)
      ensures r.None? <==> forall i: nat :: i < NBUF ==> old(buf)[i].key != k && old(buf)[i].refcnt != 0
      ensures r.Some? ==>
                r.value < NBUF && use == old(use)[r.value := old(use)[r.value].(holds := old(use)[r.value].holds + 1)]
      ensures r.Some? && old(buf)[r.value].key == k ==>
                buf == old(buf)[r.value := old(buf)[r.value].(refcnt := old(buf)[r.value].refcnt + 1)]
      ensures r.Some? && old(buf)[r.value].key != k ==>
                && (forall i: nat :: i < NBUF ==> old(buf)[i].key != k)
                && old(buf)[r.value].refcnt == 0
                && (forall j: nat :: j < NBUF && old(buf)[j].refcnt == 0 ==>
                      old(use)[r.value].stamp <= old(use)[j].stamp)
                && buf == old(buf)[r.value := old(buf)[r.value].(key := k, valid := false, refcnt := 1)]
    {
      r := Lookup(k);
      if r.Some? {
        var i := r.value;
        assert BufOk(buf[i], use[i], disk, store);
        Put(i, buf[i].(refcnt := buf[i].refcnt + 1), use[i].(holds := use[i].holds + 1));
        return;
      }
      r := Oldest();
      if r.Some? {
        var i := r.value;
        assert BufOk(buf[i], use[i], disk, store);
        Put(i, buf[i].(key := k, valid := false, refcnt := 1), use[i].(holds := use[i].holds + 1));
      }
    }

    /** acquiresleep() of a buffer got from bget(), once it is free. */
    method Lock(i: nat)
      requires Valid() && i < NBUF && use[i].holds > 0 && !buf[i].locked
      modifies this`buf, this`use
      ensures Valid() && buf == old(buf)[i := old(buf)[i].(locked := true)] && use == old(use)
    {
      assert BufOk(buf[i], use[i], disk, store);
      Put(i, buf[i].(locked := true), use[i]);
      assert use == old(use);
    }

    /** The rest of bread(): the caller gets the last content the block was given, by anyone. */
    method Bread(i: nat) returns (data: Block)
      requires Valid() && i < NBUF && buf[i].locked && buf[i].key in disk && buf[i].key.dev != 0
      modifies this`buf, this`use
      ensures Valid() && use == old(use) && buf == old(buf)[i := old(buf)[i].(valid := true, data := data)]
      ensures buf[i].key in store && data == store[buf[i].key]
    {
      assert BufOk(buf[i], use[i], disk, store);
      if !buf[i].valid {
        Unchanged(buf, use, disk, store, i);
        Put(i, buf[i].(valid := true, data := disk[buf[i].key]), use[i]);
        assert use == old(use);
      }
      data := buf[i].data;
    }

    /** The holder changes the content; that is the new content of the block. */
    method Modify(i: nat, v: Block)
      requires Valid() && i < NBUF && buf[i].locked && buf[i].valid
      modifies this`buf, this`use, this`store
      ensures Valid() && store == old(store)[buf[i].key := v]
      ensures buf == old(buf)[i := old(buf)[i].(data := v)] && use == old(use)[i := old(use)[i].(dirty := true)]
    {
      ModifyBufs(buf, use, disk, store, i, v);
      KeepList(prev, next, order, use, clock, i, use[i].(dirty := true));
      store := store[buf[i].key := v];
      buf := buf[i := buf[i].(data := v)];
      use := use[i := use[i].(dirty := true)];
    }

    /** bwrite(): the disk catches up. */
    method Bwrite(i: nat)
      requires Valid() && i < NBUF && buf[i].locked && buf[i].valid
      modifies this`disk, this`use
      ensures Valid() && disk == old(disk)[buf[i].key := buf[i].data] &&
              use == old(use)[i := old(use)[i].(dirty := false)]
    {
      WriteBufs(buf, use, disk, store, i);
      KeepList(prev, next, order, use, clock, i, use[i].(dirty := false));
      disk := disk[buf[i].key := buf[i].data];
      use := use[i := use[i].(dirty := false)];
    }

    /** releasesleep() in brelse().  The rule for callers: a changed buffer has been written, or
        pinned by log_write(), before it is released. */
    method Unlock(i: nat)
      requires Valid() && i < NBUF && buf[i].locked && (use[i].dirty ==> use[i].pins > 0)
      modifies this`buf, this`use
      ensures Valid() && buf == old(buf)[i := old(buf)[i].(locked := false)] && use == old(use)
    {
      assert BufOk(buf[i], use[i], disk, store);
      Put(i, buf[i].(locked := false), use[i]);
      assert use == old(use);
    }

    /** The rest of brelse(): the last one out moves the buffer to the front of the list. */
    method Unref(i: nat)
      requires Valid() && i < NBUF && use[i].holds > (if buf[i].locked then 1 else 0)
      modifies this`buf, this`use, this`prev, this`next, this`order, this`clock
      ensures Valid() && buf == old(buf)[i := old(buf)[i].(refcnt := old(buf)[i].refcnt - 1)]
      ensures buf[i].refcnt != 0 ==>
                order == old(order) && use == old(use)[i := old(use)[i].(holds := old(use)[i].holds - 1)]
      ensures buf[i].refcnt == 0 ==>
                && order[0] == i
                && use == old(use)[i := old(use)[i].(holds := old(use)[i].holds - 1, stamp := old(clock))]
    {
      assert BufOk(buf[i], use[i], disk, store);
      Put(i, buf[i].(refcnt := buf[i].refcnt - 1), use[i].(holds := use[i].holds - 1));
      if buf[i].refcnt == 0 {
        MoveToFront(i);
      }
    }

    /** The list surgery of brelse(). */
    method MoveToFront(i: nat)
      requires Valid() && i < NBUF
      modifies this`use, this`prev, this`next, this`order, this`clock
      ensures Valid() && order[0] == i && use == old(use)[i := old(use)[i].(stamp := old(clock))] &&
              clock == old(clock) + 1
    {
      ghost var p := Place(order, i);
      Unlink(prev, next, order, p);
      Pushed(prev, next, order, use, clock, p);
      var n, q := next[i], prev[i];
      prev := prev[n := q];
      next := next[q := n];
      Push(prev, next, Without(order, p), i);
      n := next[HEAD];
      next := next[i := n];
      prev := prev[i := HEAD];
      prev := prev[n := i];
      next := next[HEAD := i];
      KeepUse(buf, use, disk, store, i, clock);
      order := [i] + Without(order, p);
      use := use[i := use[i].(stamp := clock)];
      clock := clock + 1;
    }

    method Bpin(i: nat)
      requires Valid() && i < NBUF && buf[i].locked
      modifies this`buf, this`use
      ensures Valid() && buf == old(buf)[i := old(buf)[i].(refcnt := old(buf)[i].refcnt + 1)]
      ensures use == old(use)[i := old(use)[i].(pins := old(use)[i].pins + 1)]
    {
      assert BufOk(buf[i], use[i], disk, store);
      Put(i, buf[i].(refcnt := buf[i].refcnt + 1), use[i].(pins := use[i].pins + 1));
    }

    /** The rule for callers: the last pin goes only after the content has been written. */
    method Bunpin(i: nat)
      requires Valid() && i < NBUF && use[i].pins > 0 && (use[i].dirty ==> use[i].pins > 1 || buf[i].locked)
      modifies this`buf, this`use
      ensures Valid() && buf == old(buf)[i := old(buf)[i].(refcnt := old(buf)[i].refcnt - 1)]
      ensures use == old(use)[i := old(use)[i].(pins := old(use)[i].pins - 1)]
    {
      assert BufOk(buf[i], use[i], disk, store);
      Put(i, buf[i].(refcnt := buf[i].refcnt - 1), use[i].(pins := use[i].pins - 1));
    }
  }

  /** A buffer that has not been read yet: the disk has the block's content. */
  lemma Unchanged(buf: seq<Buf>, use: seq<Use>, disk: map<Key, Block>, store: map<Key, Block>, i: nat)
    requires |buf| == |use| && BufsOk(buf, use, disk, store) && StoreOk(buf, use, disk, store) && OneEach(buf)
    requires i < |buf| && !buf[i].valid && buf[i].key.dev != 0 && buf[i].key in disk
    ensures buf[i].key in store && disk[buf[i].key] == store[buf[i].key]
  {
    var k := buf[i].key;
    assert OnDisk(k, buf, use, disk, store);
    forall j: nat | j < |buf| ensures !Changed(buf[j], use[j], k) { assert BufOk(buf[j], use[j], disk, store); }
  }

  lemma ModifyBufs(buf: seq<Buf>, use: seq<Use>, disk: map<Key, Block>, store: map<Key, Block>, i: nat, v: Block)
    requires |buf| == |use| && BufsOk(buf, use, disk, store) && StoreOk(buf, use, disk, store) && OneEach(buf)
    requires i < |buf| && buf[i].locked && buf[i].valid
    ensures var buf', use', store' := buf[i := buf[i].(data := v)], use[i := use[i].(dirty := true)],
              store[buf[i].key := v];
            BufsOk(buf', use', disk, store') && StoreOk(buf', use', disk, store') && OneEach(buf')
  {
    var k := buf[i].key;
    var buf', use', store' := buf[i := buf[i].(data := v)], use[i := use[i].(dirty := true)], store[k := v];
    assert BufOk(buf[i], use[i], disk, store);
    forall j: nat | j < |buf'| ensures BufOk(buf'[j], use'[j], disk, store') {
      assert BufOk(buf[j], use[j], disk, store);
    }
    forall k': Key ensures OnDisk(k', buf', use', disk, store') {
      assert OnDisk(k', buf, use, disk, store);
      if k' == k {
        assert Changed(buf'[i], use'[i], k);
      } else if k' in disk && disk[k'] != store[k'] {
        var j: nat :| j < |buf| && Changed(buf[j], use[j], k');
        assert Changed(buf'[j], use'[j], k');
      }
    }
  }

  lemma WriteBufs(buf: seq<Buf>, use: seq<Use>, disk: map<Key, Block>, store: map<Key, Block>, i: nat)
    requires |buf| == |use| && BufsOk(buf, use, disk, store) && StoreOk(buf, use, disk, store) && OneEach(buf)
    requires i < |buf| && buf[i].locked && buf[i].valid
    ensures var use', disk' := use[i := use[i].(dirty := false)], disk[buf[i].key := buf[i].data];
            BufsOk(buf, use', disk', store) && StoreOk(buf, use', disk', store)
  {
    var k := buf[i].key;
    var use', disk' := use[i := use[i].(dirty := false)], disk[k := buf[i].data];
    assert BufOk(buf[i], use[i], disk, store);
    forall j: nat | j < |buf| ensures BufOk(buf[j], use'[j], disk', store) {
      assert BufOk(buf[j], use[j], disk, store);
    }
    forall k': Key ensures OnDisk(k', buf, use', disk', store) {
      assert OnDisk(k', buf, use, disk, store);
      if k' != k && k' in disk && disk[k'] != store[k'] {
        var j: nat :| j < |buf| && Changed(buf[j], use[j], k');
        assert Changed(buf[j], use'[j], k');
      }
    }
  }

  /** The order of release after buffer order[p] has been released once more. */
  lemma Pushed(prev: seq<nat>, next: seq<nat>, order: seq<nat>, use: seq<Use>, clock: nat, p: nat)
    requires ListOk(prev, next, order, use, clock) && p < NBUF
    ensures var l, use' := [order[p]] + Without(order, p), use[order[p] := use[order[p]].(stamp := clock)];
            && |l| == NBUF && order[p] !in Without(order, p) && Indices(Without(order, p), NBUF)
            && (forall i, j :: 0 <= i < j < NBUF && l[i] < NBUF && l[j] < NBUF ==> use'[l[i]].stamp > use'[l[j]].stamp)
            && (forall i :: 0 <= i < NBUF ==> use'[i].stamp < clock + 1)
  {
    var w := Without(order, p);
    forall i | 0 <= i < |w| ensures w[i] == order[if i < p then i else i + 1] {}
  }

  lemma KeepUse(buf: seq<Buf>, use: seq<Use>, disk: map<Key, Block>, store: map<Key, Block>, i: nat, t: nat)
    requires |buf| == |use| && BufsOk(buf, use, disk, store) && StoreOk(buf, use, disk, store) && i < |buf|
    ensures var use' := use[i := use[i].(stamp := t)]; BufsOk(buf, use', disk, store) && StoreOk(buf, use', disk, store)
  {
    assert BufOk(buf[i], use[i], disk, store);
    KeepBufs(buf, use, disk, store, i, buf[i], use[i].(stamp := t));
    KeepStore(buf, use, disk, store, i, buf[i], use[i].(stamp := t));
    assert buf[i := buf[i]] == buf;
  }
}
