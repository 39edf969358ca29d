/** Directories as files: the entries of struct dirent, 16 bytes each, and dirlookup() and dirlink() on the
    bytes that readi() and writei() move. */
module DirBytes {
  import opened Prelude
  import opened DirEntries
  import opened FsBlocks
  import opened FileSystem
  import opened FsFiles
  import W = FsReadWrite

  /** What fits a struct dirent: a 16-bit inode number and a name of bytes. */
  predicate Fits(e: Ent) { e.inum < 0x1_0000 && forall k :: 0 <= k < DIRSIZ ==> e.name[k] as int < 256 }

  function ToByte(c: char): Byte { if c as int < 256 then c as int else 0 }

  function Encode(e: Ent): (r: seq<Byte>)
    requires Fits(e)
    ensures |r| == 16
  {
    [e.inum % 256, e.inum / 256] + seq(DIRSIZ, k requires 0 <= k < DIRSIZ => ToByte(e.name[k]))
  }

  function Number(lo: int, hi: int): nat
    requires lo >= 0 && hi >= 0
  {
    lo + 256 * hi
  }

  function Decode(b: seq<Byte>): Ent
    requires |b| == 16
  {
    Ent(Number(b[0], b[1]), seq(DIRSIZ, k requires 0 <= k < DIRSIZ => b[2 + k] as char))
  }

  lemma DecodeEncode(e: Ent)
    requires Fits(e)
    ensures Decode(Encode(e)) == e
  {
    var r := Decode(Encode(e));
    forall k | 0 <= k < DIRSIZ ensures r.name[k] == e.name[k] {
      assert Encode(e)[2 + k] == ToByte(e.name[k]);
    }
    assert r.name == e.name;
  }

  lemma EncodeDecode(b: seq<Byte>)
    requires |b| == 16
    ensures Fits(Decode(b)) && Encode(Decode(b)) == b
  {
    var e := Decode(b);
    forall k | 0 <= k < DIRSIZ ensures e.name[k] as int < 256 && ToByte(e.name[k]) == b[2..][k] {}
    var lo: int, hi: int := b[0], b[1];
    assert e.inum == 256 * hi + lo && e.inum % 256 == lo && e.inum / 256 == hi;
    var name := seq<Byte>(DIRSIZ, k requires 0 <= k < DIRSIZ => ToByte(e.name[k]));
    assert name == b[2..];
    assert b == [b[0], b[1]] + b[2..];
  }

  // ---------------------------------------------------------------- a directory file

  /** Bytes of entry k. */
  function At(c: seq<Byte>, k: nat): seq<Byte>
    requires (k + 1) * 16 <= |c|
  {
    c[k * 16..k * 16 + 16]
  }

  /** The entries of a directory file. */
  function Entries(c: seq<Byte>): (r: seq<Ent>)
    ensures |r| == |c| / 16
  {
    if |c| < 16 then [] else [Decode(c[..16])] + Entries(c[16..])
  }

  lemma {:induction false} EntryAt(c: seq<Byte>, k: nat)
    requires k < |Entries(c)|
    ensures (k + 1) * 16 <= |c| && Entries(c)[k] == Decode(At(c, k))
  {
    if k > 0 {
      EntryAt(c[16..], k - 1);
      assert At(c[16..], k - 1) == At(c, k);
    } else {
      assert At(c, 0) == c[..16];
    }
  }

  lemma AtKept(c: seq<Byte>, d: seq<Byte>, k: nat, j: nat)
    requires |d| == 16 && k * 16 <= |c| && j != k && (j + 1) * 16 <= |c|
    ensures (j + 1) * 16 <= |Written(c, k * 16, d)| && At(Written(c, k * 16, d), j) == At(c, j)
  {
    var w := Written(c, k * 16, d);
    var x, y := At(w, j), At(c, j);
    forall o | 0 <= o < 16 ensures x[o] == y[o] { WrittenOutside(c, k * 16, d, j * 16 + o); }
  }

  lemma WrittenOutside(c: seq<Byte>, off: nat, d: seq<Byte>, o: nat)
    requires off <= |c| && o < |c| && !(off <= o < off + |d|)
    ensures o < |Written(c, off, d)| && Written(c, off, d)[o] == c[o]
  {
  }

  lemma WrittenSize(size: nat, k: nat)
    requires size % 16 == 0 && k <= size / 16
    ensures k * 16 <= size && (k * 16 + 16 <= size <==> k < size / 16)
    ensures (size + 16) % 16 == 0 && (size + 16) / 16 == size / 16 + 1 && size == size / 16 * 16
  {
  }

  /** The list of entries with entry k changed, or a new one at the end. */
  function Put(ents: seq<Ent>, k: nat, e: Ent): seq<Ent>
    requires k <= |ents|
  {
    if k < |ents| then ents[k := e] else ents + [e]
  }

  lemma EntrySet(c: seq<Byte>, k: nat, e: Ent, j: nat)
    requires |c| % 16 == 0 && k <= |c| / 16 && k * 16 <= |c| && Fits(e) && j < |Put(Entries(c), k, e)|
    requires |Entries(Written(c, k * 16, Encode(e)))| == |Put(Entries(c), k, e)|
    ensures Entries(Written(c, k * 16, Encode(e)))[j] == Put(Entries(c), k, e)[j]
  {
    var w := Written(c, k * 16, Encode(e));
    EntryAt(w, j);
    if j == k {
      assert At(w, k) == Encode(e);
      DecodeEncode(e);
    } else {
      EntryAt(c, j);
      AtKept(c, Encode(e), k, j);
    }
  }

  /** Writing one entry where another one is, or at the end, changes the list of entries just so. */
  lemma EntryWritten(c: seq<Byte>, k: nat, e: Ent)
    requires |c| % 16 == 0 && k <= |c| / 16 && Fits(e)
    ensures k * 16 <= |c|
    ensures var w := Written(c, k * 16, Encode(e)); |w| % 16 == 0 && Entries(w) == Put(Entries(c), k, e)
  {
    WrittenSize(|c|, k);
    var w, r := Written(c, k * 16, Encode(e)), Put(Entries(c), k, e);
    WrittenLength(c, k, Encode(e));
    var n := Entries(w);
    PutLength(Entries(c), k, e);
    assert |n| == |r|;
    forall j: nat | j < |r| ensures n[j] == r[j] { EntrySet(c, k, e, j); }
    SameItems(n, r);
  }

  lemma SameItems(a: seq<Ent>, b: seq<Ent>)
    requires |a| == |b| && forall j: nat :: j < |a| ==> a[j] == b[j]
    ensures a == b
  {
  }

  lemma PutLength(ents: seq<Ent>, k: nat, e: Ent)
    requires k <= |ents|
    ensures |Put(ents, k, e)| == if k < |ents| then |ents| else |ents| + 1
  {
  }

  lemma WrittenLength(c: seq<Byte>, k: nat, d: seq<Byte>)
    requires |d| == 16 && |c| % 16 == 0 && k <= |c| / 16 && k * 16 <= |c|
    ensures var w := Written(c, k * 16, d); |w| % 16 == 0 && |w| / 16 == if k < |c| / 16 then |c| / 16 else |c| / 16 + 1
  {
    WrittenSize(|c|, k);
  }

  // ---------------------------------------------------------------- on the file system

  /** Inode i is a directory file: free of holes, whole entries. */
  ghost predicate IsDirFile(f: Fs, i: nat)
    reads f
  {
    f.Valid() && i < |f.ino| && HoleFree(f.ino[i], f.blk) && f.ino[i].size % 16 == 0
  }

  /** The entries of directory file i. */
  ghost function Dir(f: Fs, i: nat): seq<Ent>
    reads f
    requires i < |f.ino|
  {
    Entries(Contents(f.ino[i], f.blk))
  }

  /** readi() of one entry. */
  method ReadEntry(f: Fs, i: nat, k: nat) returns (e: Ent)
    requires IsDirFile(f, i) && k < |Dir(f, i)|
    modifies f`ino, f`blk, f`own, f`logged
    ensures f.ino == old(f.ino) && f.blk == old(f.blk) && f.own == old(f.own) && f.logged == old(f.logged)
    ensures e == Dir(f, i)[k]
  {
    EntryInside(f.ino[i].size, k);
    EntryAt(Contents(f.ino[i], f.blk), k);
    var r, out := W.Readi(f, i, k * 16, 16, 16);
    assert out == At(Contents(f.ino[i], f.blk), k);
    e := Decode(out);
  }

  lemma EntryInside(size: nat, k: nat)
    requires k < size / 16 && size <= MAXBYTES
    ensures k * 16 + 16 <= size < U32
  {
  }

  /** Reads entry k and compares its name. */
  method MatchEntry(f: Fs, i: nat, k: nat, name: string) returns (hit: bool)
    requires IsDirFile(f, i) && k < |Dir(f, i)|
    modifies f`ino, f`blk, f`own, f`logged
    ensures f.ino == old(f.ino) && f.blk == old(f.blk) && f.own == old(f.own) && f.logged == old(f.logged)
    ensures hit == Matches(Dir(f, i)[k], name)
  {
    var de := ReadEntry(f, i, k);
    hit := de.inum != 0 && Namecmp(name, de.name);
  }

  /** dirlookup() on the bytes: the first entry in use that matches the name. */
  method LookupBytes(f: Fs, i: nat, name: string) returns (r: Option<nat>)
    requires IsDirFile(f, i) && NoNul(name)
    modifies f`ino, f`blk, f`own, f`logged
    ensures f.ino == old(f.ino) && f.blk == old(f.blk) && f.own == old(f.own) && f.logged == old(f.logged)
    ensures r.Some? ==> r.value < |Dir(f, i)| && Matches(Dir(f, i)[r.value], name)
    ensures forall j: nat :: j < |Dir(f, i)| && (r.Some? ==> j < r.value) ==> !Matches(Dir(f, i)[j], name)
  {
    var k := 0;
    var n := f.ino[i].size / 16;
    ghost var ents := Dir(f, i);
    assert |ents| == n;
    while k < n
      invariant f.ino == old(f.ino) && f.blk == old(f.blk) && f.own == old(f.own) && f.logged == old(f.logged)
      invariant 0 <= k <= n && forall j: nat :: j < k ==> !Matches(ents[j], name)
    {
      var hit := MatchEntry(f, i, k, name);
      if hit {
        return Some(k);
      }
      k := k + 1;
    }
    return None;
  }

  /** Reads entry k and tells whether it is empty. */
  method FreeEntry(f: Fs, i: nat, k: nat) returns (free: bool)
    requires IsDirFile(f, i) && k < |Dir(f, i)|
    modifies f`ino, f`blk, f`own, f`logged
    ensures f.ino == old(f.ino) && f.blk == old(f.blk) && f.own == old(f.own) && f.logged == old(f.logged)
    ensures free == (Dir(f, i)[k].inum == 0)
  {
    var de := ReadEntry(f, i, k);
    free := de.inum == 0;
  }

  /** The search of dirlink() for an empty entry. */
  method VacantBytes(f: Fs, i: nat) returns (k: nat)
    requires IsDirFile(f, i)
    modifies f`ino, f`blk, f`own, f`logged
    ensures f.ino == old(f.ino) && f.blk == old(f.blk) && f.own == old(f.own) && f.logged == old(f.logged)
    ensures k <= |Dir(f, i)| && (k < |Dir(f, i)| ==> Dir(f, i)[k].inum == 0)
    ensures forall j: nat :: j < k ==> Dir(f, i)[j].inum != 0
  {
    k := 0;
    var n := f.ino[i].size / 16;
    ghost var ents := Dir(f, i);
    assert |ents| == n;
    while k < n
      invariant f.ino == old(f.ino) && f.blk == old(f.blk) && f.own == old(f.own) && f.logged == old(f.logged)
      invariant 0 <= k <= n && forall j: nat :: j < k ==> ents[j].inum != 0
    {
      var free := FreeEntry(f, i, k);
      if free {
        return;
      }
      k := k + 1;
    }
  }

  /** writei() of one entry, which panics if it does not succeed. */
  method WriteEntry(f: Fs, i: nat, k: nat, e: Ent) returns (r: W.Result)
    requires IsDirFile(f, i) && k <= |Dir(f, i)| && Fits(e)
    modifies f
    ensures !r.Fail?
    ensures r.Count? ==>
              && IsDirFile(f, i)
              && Dir(f, i) == Put(old(Dir(f, i)), k, e)
              && W.OthersKept(old(f.ino), old(f.blk), f.ino, f.blk, i)
    ensures r.Panic? ==> old(f.ino)[i].size + 16 > MAXBYTES || Full(f.sb, f.blk)
  {
    ghost var c := Contents(f.ino[i], f.blk);
    EntryWritten(c, k, e);
    AllTorn(c, k * 16, Encode(e));
    r := W.Writei(f, i, k * 16, Encode(e), 16);
    if !r.Count? {
      r := W.Panic;
    }
  }

  lemma AllTorn(c: seq<Byte>, off: nat, d: seq<Byte>)
    requires off <= |c|
    ensures Torn(c, off, d, |d|, |d|) == Written(c, off, d)
  {
    TornWhole(c, off, d, |d|);
    assert d[..|d|] == d;
  }

  /** dirlink() on the bytes: exactly the new entry appears, in the first empty place or at the end, and
      no other file changes.  Fail: the name is taken.  Panic: no block is free, or the directory has
      grown to MAXFILE blocks. */
  method LinkBytes(f: Fs, i: nat, name: string, inum: nat) returns (r: W.Result, ghost k: nat)
    requires IsDirFile(f, i) && NoNul(name) && Fits(Ent(inum, Pad(name)))
    modifies f
    ensures r.Fail? <==> exists j: nat :: j < |old(Dir(f, i))| && Matches(old(Dir(f, i))[j], name)
    ensures r.Fail? ==> f.ino == old(f.ino) && f.blk == old(f.blk) && f.own == old(f.own)
    ensures r.Count? ==>
              && IsDirFile(f, i) && k <= |old(Dir(f, i))|
              && (k < |old(Dir(f, i))| ==> old(Dir(f, i))[k].inum == 0)
              && (forall j: nat :: j < k ==> old(Dir(f, i))[j].inum != 0)
              && Dir(f, i) == Linked(old(Dir(f, i)), k, name, inum)
              && W.OthersKept(old(f.ino), old(f.blk), f.ino, f.blk, i)
    ensures r.Panic? ==> old(f.ino)[i].size + 16 > MAXBYTES || Full(f.sb, f.blk)
  {
    k := 0;
    var found := LookupBytes(f, i, name);
    if found.Some? {
      return W.Fail, 0;
    }
    var slot := VacantBytes(f, i);
    k := slot;
    r := WriteEntry(f, i, slot, Ent(inum, Pad(name)));
  }
}
