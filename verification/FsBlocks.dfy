/** Disk blocks as the file system sees them through the log: bytes, bitmap bits, words of
    indirect blocks. */
module FsBlocks {
  import opened Prelude

  const BSIZE: nat := 1024
  const BPB: nat := BSIZE * 8
  const IPB: nat := 16             // BSIZE / sizeof(struct dinode)
  const NDIRECT: nat := 12
  const NINDIRECT: nat := 256      // BSIZE / sizeof(uint)
  const MAXFILE: nat := NDIRECT + NINDIRECT
  const U32: nat := 0x1_0000_0000

  type Block = b: seq<Byte> | |b| == BSIZE witness seq(BSIZE, i => 0)

  /** The superblock fields the block layer uses; blocks below dataStart hold metadata. */
  datatype Super = Super(size: nat, ninodes: nat, inodeStart: nat, bmapStart: nat, dataStart: nat) {
    predicate Valid() {
      && inodeStart + ninodes / IPB < bmapStart && bmapStart + size / BPB < dataStart <= size
      && size < 0x8000_0000
    }
  }

  // ---------------------------------------------------------------- bits

  /** x & (1 << k) */
  predicate BitOf(x: nat, k: nat) {
    if k == 0 then x % 2 == 1 else BitOf(x / 2, k - 1)
  }

  /** x | (1 << k), or x & ~(1 << k) */
  function WithBit(x: nat, k: nat, on: bool): nat {
    if k == 0 then x / 2 * 2 + (if on then 1 else 0) else WithBit(x / 2, k - 1, on) * 2 + x % 2
  }

  lemma {:induction false} ZeroBits(k: nat)
    ensures !BitOf(0, k)
  {
    if k > 0 { ZeroBits(k - 1); }
  }

  /** Exactly the named bit changes. */
  lemma {:induction false} WithBitBits(x: nat, k: nat, on: bool, j: nat)
    ensures BitOf(WithBit(x, k, on), j) == if j == k then on else BitOf(x, j)
  {
    if k > 0 && j > 0 {
      WithBitBits(x / 2, k - 1, on, j - 1);
      assert WithBit(x, k, on) / 2 == WithBit(x / 2, k - 1, on);
    }
  }

  function Pow2(n: nat): nat { if n == 0 then 1 else 2 * Pow2(n - 1) }

  lemma {:induction false} WithBitRange(x: nat, k: nat, on: bool, n: nat)
    requires k < n && x < Pow2(n)
    ensures WithBit(x, k, on) < Pow2(n)
  {
    if k > 0 { WithBitRange(x / 2, k - 1, on, n - 1); }
  }

  lemma WithBitByte(x: Byte, k: nat, on: bool)
    requires k < 8
    ensures 0 <= WithBit(x, k, on) < 256
  {
    assert Pow2(4) == 16;
    assert Pow2(8) == 256;
    WithBitRange(x, k, on, 8);
  }

  // ---------------------------------------------------------------- words of an indirect block

  /** ((uint*)data)[j], little endian. */
  function Word(b: Block, j: nat): nat
    requires j < NINDIRECT
  {
    (b[4 * j] as int) + 256 * (b[4 * j + 1] as int) + 65536 * (b[4 * j + 2] as int) + 16777216 * (b[4 * j + 3] as int)
  }

  function WithWord(b: Block, j: nat, x: nat): Block
    requires j < NINDIRECT && x < U32
  {
    b[4 * j := x % 256][4 * j + 1 := x / 256 % 256][4 * j + 2 := x / 65536 % 256][4 * j + 3 := x / 16777216]
  }

  lemma FourBytes(x: nat)
    ensures x % 256 + 256 * (x / 256 % 256) + 65536 * (x / 65536 % 256) + 16777216 * (x / 16777216) == x
  {
    var y := x / 256;
    var z := y / 256;
    assert x / 65536 == z && x / 16777216 == z / 256;
  }

  lemma WithWordWords(b: Block, j: nat, x: nat, i: nat)
    requires j < NINDIRECT && i < NINDIRECT && x < U32
    ensures Word(WithWord(b, j, x), i) == if i == j then x else Word(b, i)
  {
    FourBytes(x);
    var c := WithWord(b, j, x);
    if i == j {
      assert c[4 * j] == x % 256 && c[4 * j + 1] == x / 256 % 256 && c[4 * j + 2] == x / 65536 % 256 &&
             c[4 * j + 3] == x / 16777216;
    } else {
      assert c[4 * i] == b[4 * i] && c[4 * i + 1] == b[4 * i + 1] && c[4 * i + 2] == b[4 * i + 2] &&
             c[4 * i + 3] == b[4 * i + 3];
    }
  }

  function ZeroBlock(): (z: Block)
    ensures forall i :: 0 <= i < BSIZE ==> z[i] == 0
    ensures forall j: nat :: j < NINDIRECT ==> Word(z, j) == 0
  {
    seq(BSIZE, i => 0)
  }

  // ---------------------------------------------------------------- the bitmap

  /** Bit bi of a bitmap block. */
  predicate BitAt(b: Block, bi: nat)
    requires bi < BPB
  {
    BitOf(b[bi / 8], bi % 8)
  }

  function WithBitAt(b: Block, bi: nat, on: bool): Block
    requires bi < BPB
  {
    WithBitByte(b[bi / 8], bi % 8, on);
    b[bi / 8 := WithBit(b[bi / 8], bi % 8, on)]
  }

  lemma WithBitAtBits(b: Block, bi: nat, on: bool, j: nat)
    requires bi < BPB && j < BPB
    ensures BitAt(WithBitAt(b, bi, on), j) == if j == bi then on else BitAt(b, j)
  {
    WithBitBits(b[bi / 8], bi % 8, on, j % 8);
    assert bi == bi / 8 * 8 + bi % 8 && j == j / 8 * 8 + j % 8;
  }

  /** BBLOCK(b, sb) */
  function Bblock(sb: Super, b: nat): nat { sb.bmapStart + b / BPB }

  predicate Used(sb: Super, blk: seq<Block>, b: nat)
    requires Bblock(sb, b) < |blk|
  {
    BitAt(blk[Bblock(sb, b)], b % BPB)
  }

  function Marked(sb: Super, blk: seq<Block>, b: nat, on: bool): seq<Block>
    requires Bblock(sb, b) < |blk|
  {
    blk[Bblock(sb, b) := WithBitAt(blk[Bblock(sb, b)], b % BPB, on)]
  }

  lemma MarkedBits(sb: Super, blk: seq<Block>, b: nat, on: bool, c: nat)
    requires Bblock(sb, b) < |blk| && Bblock(sb, c) < |blk|
    ensures Used(sb, Marked(sb, blk, b, on), c) == if c == b then on else Used(sb, blk, c)
  {
    assert b == b / BPB * BPB + b % BPB && c == c / BPB * BPB + c % BPB;
    if Bblock(sb, b) == Bblock(sb, c) { WithBitAtBits(blk[Bblock(sb, b)], b % BPB, on, c % BPB); }
  }
}
