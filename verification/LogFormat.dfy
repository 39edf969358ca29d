/** On-disk format of the redo log: a header block naming home blocks, followed
    by one log block per name.  A disk block is seen as WORDS ints, which is how
    the log code casts the header block. */
module LogFormat {

  const WORDS: nat := 256            // BSIZE / sizeof(int)
  const MAXOPBLOCKS: nat := 10
  const LOGSIZE: nat := 3 * MAXOPBLOCKS

  type Block = b: seq<int> | |b| == WORDS witness seq(WORDS, i => 0)
  type Disk = seq<Block>

  /** Where the log lives on the disk: header at `start`, log blocks after it. */
  datatype Layout = Layout(nblocks: nat, start: nat, size: nat) {
    predicate Valid() {
      0 < size && start + size <= nblocks
    }

    predicate Home(b: int) {
      0 <= b < nblocks && !(start <= b < start + size)
    }

    function Cap(): nat
      requires Valid()
    {
      if size - 1 < LOGSIZE then size - 1 else LOGSIZE
    }
  }

  /** Words 1 to n of a block, the way read_head collects them. */
  function Words(b: Block, n: nat): seq<int>
    requires n < WORDS
  {
    if n == 0 then [] else Words(b, n - 1) + [b[n]]
  }

  /** The block numbers recorded in a header block. */
  function Header(b: Block): seq<int> {
    Words(b, if b[0] < 0 then 0 else if b[0] > LOGSIZE then LOGSIZE else b[0])
  }

  /** A header block after recording `lh` in it; words past the count keep their old content. */
  function WithHeader(hb: Block, lh: seq<int>): Block
    requires |lh| <= LOGSIZE
  {
    [|lh|] + lh + hb[1 + |lh|..]
  }

  lemma {:induction false} WordsOf(b: Block, lh: seq<int>, n: nat)
    requires n <= |lh| < WORDS
    requires forall i :: 0 <= i < |lh| ==> b[1 + i] == lh[i]
    ensures Words(b, n) == lh[..n]
  {
    if n > 0 { WordsOf(b, lh, n - 1); }
  }

  lemma HeaderRoundTrip(hb: Block, lh: seq<int>)
    requires |lh| <= LOGSIZE
    ensures Header(WithHeader(hb, lh)) == lh
  {
    var w := WithHeader(hb, lh);
    assert w[0] == |lh|;
    WordsOf(w, lh, |lh|);
  }

  predicate LoggableList(L: Layout, lh: seq<int>)
    requires L.Valid()
  {
    && |lh| <= L.Cap()
    && (forall i :: 0 <= i < |lh| ==> L.Home(lh[i]))
  }

  predicate Distinct(lh: seq<int>) {
    forall i, j :: 0 <= i < j < |lh| ==> lh[i] != lh[j]
  }

  /** The disk has the expected size and its log header names home blocks, each once. */
  predicate WellFormed(L: Layout, d: Disk) {
    && L.Valid()
    && |d| == L.nblocks
    && LoggableList(L, Header(d[L.start]))
    && Distinct(Header(d[L.start]))
  }

  /** The disk after the first `t` log blocks have been copied to their home locations. */
  function Installed(L: Layout, d: Disk, lh: seq<int>, t: nat): (r: Disk)
    requires L.Valid() && |d| == L.nblocks && LoggableList(L, lh) && t <= |lh|
    ensures |r| == |d|
    ensures forall b :: 0 <= b < |d| && b !in lh[..t] ==> r[b] == d[b]
  {
    if t == 0 then d
    else
      var e := Installed(L, d, lh, t - 1);
      assert lh[..t] == lh[..t - 1] + [lh[t - 1]];
      e[lh[t - 1] := e[L.start + t]]
  }

  /** What a complete, uninterrupted recovery makes of a disk. */
  function Recover(L: Layout, d: Disk): (r: Disk)
    requires WellFormed(L, d)
    ensures |r| == |d|
  {
    var lh := Header(d[L.start]);
    Installed(L, d, lh, |lh|)[L.start := WithHeader(d[L.start], [])]
  }

  /** Two disks agree outside the log region. */
  predicate SameHome(L: Layout, d: Disk, e: Disk) {
    |d| == |e| && forall b :: 0 <= b < |d| && L.Home(b) ==> d[b] == e[b]
  }

  /** Every way of getting from this disk to `durable` by replaying the log is still open:
      blocks named in the header are right in the log, all others are right at home. */
  predicate Recoverable(L: Layout, d: Disk, durable: Disk) {
    && WellFormed(L, d)
    && |durable| == |d|
    && var h := Header(d[L.start]);
       && (forall i :: 0 <= i < |h| ==> d[L.start + 1 + i] == durable[h[i]])
       && (forall b :: 0 <= b < |d| && L.Home(b) && b !in h ==> d[b] == durable[b])
  }

  lemma {:induction false} InstalledHere(L: Layout, d: Disk, lh: seq<int>, t: nat)
    requires Distinct(lh) && L.Valid() && |d| == L.nblocks && LoggableList(L, lh) && t <= |lh|
    ensures forall i :: 0 <= i < t ==> Installed(L, d, lh, t)[lh[i]] == d[L.start + 1 + i]
  {
    if t > 0 {
      InstalledHere(L, d, lh, t - 1);
      var e := Installed(L, d, lh, t - 1);
      assert e[L.start + t] == d[L.start + t] by {
        forall i | 0 <= i < t - 1 ensures lh[i] != L.start + t { assert L.Home(lh[i]); }
      }
    }
  }

  /** A recoverable disk recovers to its durable image, whatever its home blocks hold. */
  lemma RecoverableRecovers(L: Layout, d: Disk, durable: Disk)
    requires Recoverable(L, d, durable)
    ensures SameHome(L, Recover(L, d), durable)
    ensures Header(Recover(L, d)[L.start]) == []
  {
    var h := Header(d[L.start]);
    InstalledHere(L, d, h, |h|);
    assert h[..|h|] == h;
    HeaderRoundTrip(d[L.start], []);
    var r := Installed(L, d, h, |h|);
    forall b | 0 <= b < |d| && L.Home(b) ensures r[b] == durable[b] {
      if b in h {
        var i :| 0 <= i < |h| && h[i] == b;
      }
    }
  }
}
