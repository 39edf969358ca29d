/** The user half of memory as the kernel sees it through walkaddr(): copyout(), copyin() and
    copyinstr() of kernel/vm.c on the bytes of a user address space. */
module UserCopy {
  import opened Prelude
  import opened PageTables
  import opened VirtualMemory

  // ---------------------------------------------------------------- bytes of words and pages

  function ByteOf(w: nat, k: nat): Byte { if k == 0 then w % 256 else ByteOf(w / 256, k - 1) }

  function WithByte(w: nat, k: nat, b: Byte): nat {
    if k == 0 then w / 256 * 256 + b else WithByte(w / 256, k - 1, b) * 256 + w % 256
  }

  /** Storing one byte of a word changes that byte and no other. */
  lemma {:induction false} WithByteIs(w: nat, k: nat, b: Byte, j: nat)
    ensures ByteOf(WithByte(w, k, b), j) == if j == k then b else ByteOf(w, j)
  {
    if k == 0 {
      LowByte(w / 256, b);
    } else {
      LowByte(WithByte(w / 256, k - 1, b), w % 256);
      if j > 0 { WithByteIs(w / 256, k - 1, b, j - 1); }
    }
  }

  lemma LowByte(q: nat, b: Byte)
    ensures (q * 256 + b) / 256 == q && (q * 256 + b) % 256 == b
  {
  }

  function PageByte(pg: Page, o: nat): Byte
    requires o < PGSIZE
  {
    ByteOf(pg[o / 8], o % 8)
  }

  function SetByte(pg: Page, o: nat, b: Byte): Page
    requires o < PGSIZE
  {
    pg[o / 8 := WithByte(pg[o / 8], o % 8, b)]
  }

  lemma SetByteIs(pg: Page, o: nat, b: Byte, i: nat)
    requires o < PGSIZE && i < PGSIZE
    ensures PageByte(SetByte(pg, o, b), i) == if i == o then b else PageByte(pg, i)
  {
    WithByteIs(pg[o / 8], o % 8, b, i % 8);
  }

  /** Page pg1 is pg0 with data in place of its bytes from o on. */
  ghost predicate Patched(pg0: Page, pg1: Page, o: nat, data: seq<Byte>) {
    forall i: nat {:trigger PageByte(pg1, i)} :: i < PGSIZE ==>
      PageByte(pg1, i) == if o <= i < o + |data| then data[i - o] else PageByte(pg0, i)
  }

  lemma PatchOne(pg0: Page, pg1: Page, o: nat, data: seq<Byte>, b: Byte)
    requires Patched(pg0, pg1, o, data) && o + |data| < PGSIZE
    ensures Patched(pg0, SetByte(pg1, o + |data|, b), o, data + [b])
  {
    var pg2 := SetByte(pg1, o + |data|, b);
    forall i: nat {:trigger PageByte(pg2, i)} | i < PGSIZE
      ensures PageByte(pg2, i) == if o <= i < o + |data + [b]| then (data + [b])[i - o] else PageByte(pg0, i)
    {
      SetByteIs(pg1, o + |data|, b, i);
      assert PageByte(pg1, i) == if o <= i < o + |data| then data[i - o] else PageByte(pg0, i);
    }
  }

  // ---------------------------------------------------------------- a user address space

  function Vpn(a: nat): nat { a / PGSIZE }          // PGROUNDDOWN(a) / PGSIZE

  function Offset(a: nat): (o: nat)
    ensures o < PGSIZE
  {
    a % PGSIZE
  }

  predicate UserPte(pte: nat) { IsValid(pte) && pte / 16 % 2 == 1 }      // PTE_V and PTE_U

  /** walkaddr() finds virtual page v. */
  ghost predicate Reachable(m: Mem, r: nat, v: nat) { v < MAXVPN && UserPte(Pte(m, r, v)) }

  /** The pages a process may use are its own data pages. */
  ghost predicate UserPages(m: Mem, u: map<nat, Use>, r: nat) {
    forall v: nat {:trigger Owned(m, u, r, v)} :: Reachable(m, r, v) ==> Owned(m, u, r, v)
  }

  /** The byte at user address a. */
  function UserByte(m: Mem, r: nat, a: nat): Byte {
    var p := Ppn(Pte(m, r, Vpn(a)));
    if p in m then PageByte(m[p], Offset(a)) else 0
  }

  /** The bytes from address a on are s. */
  ghost predicate Reads(m: Mem, r: nat, a: nat, s: seq<Byte>) {
    forall i: nat {:trigger s[i]} :: i < |s| ==> s[i] == UserByte(m, r, a + i)
  }

  /** From m0 to m the bytes from address a of root r on became `data`.  No other byte of any address
      space, no translation and no page of the kernel changed. */
  ghost predicate Stored(m0: Mem, m: Mem, u: map<nat, Use>, r: nat, a: nat, data: seq<Byte>) {
    && SameMaps(m0, m, u)
    && (forall p :: p in u && !u[p].Data? ==> p in m0 && p in m && m[p] == m0[p])
    && (forall r', b: nat {:trigger UserByte(m, r', b)} ::
        IsRoot(u, r') && Vpn(b) < MAXV && Owned(m0, u, r', Vpn(b)) ==>
          UserByte(m, r', b) == if r' == r && a <= b < a + |data| then data[b - a] else UserByte(m0, r', b))
  }

  lemma StoredMore(m0: Mem, m1: Mem, m2: Mem, u: map<nat, Use>, r: nat, a: nat, data: seq<Byte>, more: seq<Byte>)
    requires Stored(m0, m1, u, r, a, data) && Stored(m1, m2, u, r, a + |data|, more)
    ensures Stored(m0, m2, u, r, a, data + more)
  {
    forall r', b: nat | IsRoot(u, r') && Vpn(b) < MAXV && Owned(m0, u, r', Vpn(b))
      ensures UserByte(m2, r', b) == if r' == r &&
              a <= b < a + |data + more| then (data + more)[b - a] else UserByte(m0, r', b)
    {
      assert Pte(m1, r', Vpn(b)) == Pte(m0, r', Vpn(b));
      assert Owned(m1, u, r', Vpn(b));
      assert UserByte(m1, r', b) == if r' == r && a <= b < a + |data| then data[b - a] else UserByte(m0, r', b);
    }
    forall r', v: nat | IsRoot(u, r') && v < MAXV ensures Pte(m2, r', v) == Pte(m0, r', v) {
      assert Pte(m1, r', v) == Pte(m0, r', v);
    }
  }

  lemma Address(b: nat, v: nat, o: nat, n: nat)
    requires o + n <= PGSIZE
    ensures v * PGSIZE + o <= b < v * PGSIZE + o + n <==> Vpn(b) == v && o <= Offset(b) < o + n
    ensures v * PGSIZE + o <= b < v * PGSIZE + o + n ==> b - (v * PGSIZE + o) == Offset(b) - o
  {
    assert b == Vpn(b) * PGSIZE + Offset(b);
  }

  /** Patching the data page behind virtual page v stores there and nowhere else: no other address
      space, and no other page of this one, has that page. */
  lemma PageStored(m0: Mem, u: map<nat, Use>, r: nat, v: nat, pg: Page, o: nat, data: seq<Byte>)
    requires TreesOk(m0, u) && IsRoot(u, r) && v < MAXV && Owned(m0, u, r, v) && o + |data| <= PGSIZE
    requires Patched(m0[Ppn(Pte(m0, r, v))], pg, o, data)
    ensures TreesOk(m0[Ppn(Pte(m0, r, v)) := pg], u)
    ensures Stored(m0, m0[Ppn(Pte(m0, r, v)) := pg], u, r, v * PGSIZE + o, data)
  {
    var p := Ppn(Pte(m0, r, v));
    var m := m0[p := pg];
    TreesFrame(m0, m, u, u);
    RootsFrame(m0, m, u, u);
    forall r', b: nat | IsRoot(u, r') && Vpn(b) < MAXV && Owned(m0, u, r', Vpn(b))
      ensures UserByte(m, r', b)
           == if r' == r && v * PGSIZE + o <= b < v * PGSIZE + o + |data| then data[b - (v * PGSIZE + o)]
           else UserByte(m0, r', b)
    {
      Address(b, v, o, |data|);
      assert Pte(m, r', Vpn(b)) == Pte(m0, r', Vpn(b));
      if r' == r && Vpn(b) == v {
        assert PageByte(pg, Offset(b)) == if o <= Offset(b) < o + |data| then data[Offset(b) - o]
               else PageByte(m0[p], Offset(b));
      }
    }
  }

  /** Translations as before: the same pages can be reached and are owned. */
  lemma SameReach(m0: Mem, m: Mem, u: map<nat, Use>, r: nat)
    requires SameMaps(m0, m, u) && IsRoot(u, r) && UserPages(m0, u, r)
    ensures UserPages(m, u, r) && forall v: nat {:trigger Reachable(m, r, v)} :: Reachable(m, r, v) <==>
              Reachable(m0, r, v)
  {
    forall v: nat ensures Reachable(m, r, v) <==> Reachable(m0, r, v) {
      if v < MAXVPN { assert Pte(m, r, v) == Pte(m0, r, v); }
    }
    forall v: nat | Reachable(m, r, v) ensures Owned(m, u, r, v) {
      assert Pte(m, r, v) == Pte(m0, r, v);
      assert Owned(m0, u, r, v);
    }
  }

  /** What was copied out is what copyin() then finds there. */
  lemma RoundTrip(m0: Mem, m: Mem, u: map<nat, Use>, r: nat, a: nat, data: seq<Byte>)
    requires Stored(m0, m, u, r, a, data) && IsRoot(u, r) && UserPages(m0, u, r) && InReach(m0, r, a, |data|)
    ensures Reads(m, r, a, data) && InReach(m, r, a, |data|)
  {
    SameReach(m0, m, u, r);
    forall i: nat | i < |data| ensures data[i] == UserByte(m, r, a + i) {
      assert Reachable(m0, r, Vpn(a + i));
      assert Owned(m0, u, r, Vpn(a + i));
      assert UserByte(m, r, a + i) == data[a + i - a];
    }
    forall b: nat | a <= b < a + |data| ensures Reachable(m, r, Vpn(b)) {
      assert Reachable(m0, r, Vpn(b));
    }
  }

  /** The addresses from a on, n of them, lie on pages that walkaddr() finds. */
  ghost predicate InReach(m: Mem, r: nat, a: nat, n: nat) {
    forall b: nat {:trigger Vpn(b)} :: a <= b < a + n ==> Reachable(m, r, Vpn(b))
  }

  /** The stretch of n bytes from address a to at most the end of its page. */
  function Stretch(a: nat, n: nat): (k: nat)
    ensures k <= n && Offset(a) + k <= PGSIZE && (n > 0 ==> k > 0)
  {
    if PGSIZE - Offset(a) < n then PGSIZE - Offset(a) else n
  }

  lemma StretchPage(a: nat, n: nat, b: nat)
    requires a <= b < a + Stretch(a, n)
    ensures Vpn(b) == Vpn(a) && Offset(b) == Offset(a) + (b - a)
  {
    Address(b, Vpn(a), Offset(a), Stretch(a, n));
    assert a == Vpn(a) * PGSIZE + Offset(a);
  }

  lemma ReachMore(m: Mem, r: nat, a: nat, done: nat, n: nat)
    requires InReach(m, r, a, done) && Reachable(m, r, Vpn(a + done))
    ensures InReach(m, r, a, done + Stretch(a + done, n))
  {
    forall b: nat | a <= b < a + (done + Stretch(a + done, n)) ensures Reachable(m, r, Vpn(b)) {
      if b >= a + done { StretchPage(a + done, n, b); }
    }
  }

  // ---------------------------------------------------------------- after uvmalloc() and uvmcopy()

  /** Growing an address space, as uvmalloc() and uvmcopy() do it, keeps user pages private. */
  lemma GrownUserPages(m0: Mem, u0: map<nat, Use>, m: Mem, u: map<nat, Use>, r: nat, first: nat, k: nat,
                       content: nat -> Page, perm: nat -> nat)
    requires Growing(m0, u0, m, u, r, first, k, content, perm) && UserPages(m0, u0, r)
    ensures UserPages(m, u, r)
  {
    forall v: nat | Reachable(m, r, v) ensures Owned(m, u, r, v) {
      if first <= v < first + k {
        assert Backed(m, u, r, v, content(v), perm(v));
      } else {
        assert Pte(m, r, v) == Pte(m0, r, v);
        assert Owned(m0, u0, r, v);
      }
    }
  }

  /** After fork() has copied k pages, parent and child read the same bytes at every address below,
      and can reach the same pages there. */
  lemma ForkedBytes(m0: Mem, u0: map<nat, Use>, m: Mem, u: map<nat, Use>, parent: nat, child: nat, k: nat, a: nat)
    requires Growing(m0, u0, m, u, child, 0, k, PageOf(m0, parent), FlagsOf(m0, parent))
    requires parent != child && IsRoot(u0, parent) && Vpn(a) < k && Owned(m0, u0, parent, Vpn(a)) && TreesOk(m0, u0)
    ensures UserByte(m, child, a) == UserByte(m, parent, a) == UserByte(m0, parent, a)
    ensures Reachable(m, child, Vpn(a)) <==> Reachable(m0, parent, Vpn(a))
  {
    var v := Vpn(a);
    assert Backed(m, u, child, v, PageOf(m0, parent)(v), FlagsOf(m0, parent)(v));
    assert Pte(m, parent, v) == Pte(m0, parent, v);
    UserBit(Pte(m, child, v));
    UserBit(Pte(m0, parent, v));
    ValidFlags(Pte(m0, parent, v));
  }

  /** PTE_V and PTE_U are flag bits. */
  lemma UserBit(e: nat)
    ensures UserPte(e) <==> Flags(e) % 2 == 1 && Flags(e) / 16 % 2 == 1
  {
    var q, f := e / 1024, e % 1024;
    var k, b, c := f / 32, f % 32 / 16, f % 16;
    LowBits32(f, k, b, c);
    LowBits32(e, 32 * q + k, b, c);
  }

  lemma LowBits32(x: nat, k: nat, b: nat, c: nat)
    requires x == 32 * k + 16 * b + c && b < 2 && c < 16
    ensures x / 16 % 2 == b && x % 2 == c % 2
  {
    Digit(x, 16 * k + 8 * b + c / 2, 2, c % 2);
    Digit(x, 2 * k + b, 16, c);
    Digit(x / 16, k, 2, b);
  }

  lemma ValidFlags(e: nat)
    requires IsValid(e)
    ensures WithV(Flags(e)) == Flags(e)
  {
    FlagBits(e);
  }

  // ---------------------------------------------------------------- walkaddr(), copyout()

  /** walkaddr(): the page behind a user address, 0 if the process may not use it. */
  method Walkaddr(pm: PageMemory, r: nat, va: nat) returns (p: nat)
    requires pm.Valid() && IsRoot(pm.use, r) && UserPages(pm.mem, pm.use, r)
    modifies pm
    ensures pm.Valid() && pm.mem == old(pm.mem) && pm.use == old(pm.use) && pm.free == old(pm.free)
    ensures p != 0 <==> Reachable(pm.mem, r, Vpn(va))
    ensures p != 0 ==> p == Ppn(Pte(pm.mem, r, Vpn(va))) && Owned(pm.mem, pm.use, r, Vpn(va))
  {
    var v := Vpn(va);
    if v >= MAXVPN {
      return 0;
    }
    var slot := pm.Walk(r, v, false);
    if slot == None {
      return 0;
    }
    var (q, j) := slot.value;
    PteAt(pm.mem, pm.use, q, j);
    var pte := pm.mem[q][j];
    if !IsValid(pte) || pte / 16 % 2 == 0 {
      return 0;
    }
    p := Ppn(pte);
    assert Owned(pm.mem, pm.use, r, v);
  }

  /** memmove() into a page. */
  method PatchPage(page: Page, o: nat, data: seq<Byte>) returns (pg: Page)
    requires o + |data| <= PGSIZE
    ensures Patched(page, pg, o, data)
  {
    var i: nat := 0;
    pg := page;
    while i < |data|
      invariant i <= |data| && Patched(page, pg, o, data[..i])
    {
      PatchOne(page, pg, o, data[..i], data[i]);
      assert data[..i] + [data[i]] == data[..i + 1];
      pg := SetByte(pg, o + i, data[i]);
      i := i + 1;
    }
    assert data[..|data|] == data;
  }

  /** The first `done` bytes of src are in place. */
  ghost predicate CopiedOut(m0: Mem, m: Mem, u: map<nat, Use>, r: nat, a: nat, src: seq<Byte>, done: nat) {
    done <= |src| && Stored(m0, m, u, r, a, src[..done]) && InReach(m0, r, a, done)
  }

  lemma CopiedNone(m: Mem, u: map<nat, Use>, r: nat, a: nat, src: seq<Byte>)
    requires TreesOk(m, u)
    ensures CopiedOut(m, m, u, r, a, src, 0)
  {
    assert src[..0] == [];
  }

  lemma CopiedMore(m0: Mem, m: Mem, u: map<nat, Use>, r: nat, a: nat, src: seq<Byte>, done: nat, n: nat, pg: Page)
    requires TreesOk(m, u) && CopiedOut(m0, m, u, r, a, src, done) && IsRoot(u, r) && UserPages(m0, u, r)
    requires Reachable(m0, r, Vpn(a + done)) && n == Stretch(a + done, |src| - done)
    requires Ppn(Pte(m, r, Vpn(a + done))) in m
    requires Patched(m[Ppn(Pte(m, r, Vpn(a + done)))], pg, Offset(a + done), src[done..done + n])
    ensures TreesOk(m[Ppn(Pte(m, r, Vpn(a + done))) := pg], u)
    ensures CopiedOut(m0, m[Ppn(Pte(m, r, Vpn(a + done))) := pg], u, r, a, src, done + n)
  {
    var m2 := m[Ppn(Pte(m, r, Vpn(a + done))) := pg];
    StoredAt(m0, m, u, r, a + done, pg, src[done..done + n]);
    StoredNext(m0, m, m2, u, r, a, src, done, n);
    ReachMore(m0, r, a, done, |src| - done);
  }

  lemma StoredAt(m0: Mem, m: Mem, u: map<nat, Use>, r: nat, a: nat, pg: Page, data: seq<Byte>)
    requires TreesOk(m, u) && IsRoot(u, r) && SameMaps(m0, m, u) && UserPages(m0, u, r) && Reachable(m0, r, Vpn(a))
    requires Offset(a) + |data| <= PGSIZE && Ppn(Pte(m, r, Vpn(a))) in m
    requires Patched(m[Ppn(Pte(m, r, Vpn(a)))], pg, Offset(a), data)
    ensures TreesOk(m[Ppn(Pte(m, r, Vpn(a))) := pg], u)
    ensures Stored(m, m[Ppn(Pte(m, r, Vpn(a))) := pg], u, r, a, data)
  {
    SameReach(m0, m, u, r);
    assert Owned(m, u, r, Vpn(a));
    PageStored(m, u, r, Vpn(a), pg, Offset(a), data);
    assert Vpn(a) * PGSIZE + Offset(a) == a;
  }

  lemma StoredNext(m0: Mem, m1: Mem, m2: Mem, u: map<nat, Use>, r: nat, a: nat, src: seq<Byte>, done: nat, n: nat)
    requires done + n <= |src| && Stored(m0, m1, u, r, a, src[..done]) &&
             Stored(m1, m2, u, r, a + done, src[done..done + n])
    ensures Stored(m0, m2, u, r, a, src[..done + n])
  {
    StoredMore(m0, m1, m2, u, r, a, src[..done], src[done..done + n]);
    assert src[..done] + src[done..done + n] == src[..done + n];
  }

  lemma CopiedAll(m0: Mem, m: Mem, u: map<nat, Use>, r: nat, a: nat, src: seq<Byte>)
    requires CopiedOut(m0, m, u, r, a, src, |src|) && IsRoot(u, r) && UserPages(m0, u, r)
    ensures UserPages(m, u, r) && InReach(m0, r, a, |src|) && Reads(m, r, a, src)
  {
    assert src[..|src|] == src;
    SameReach(m0, m, u, r);
    RoundTrip(m0, m, u, r, a, src);
  }

  /** One turn of the loop of copyout(): n bytes more, or 0 if the next page cannot be reached. */
  method CopyoutPage(pm: PageMemory, r: nat, dstva: nat, src: seq<Byte>, i: nat, ghost m0: Mem) returns (n: nat)
    requires pm.Valid() && IsRoot(pm.use, r) && UserPages(m0, pm.use, r)
    requires i < |src| && CopiedOut(m0, pm.mem, pm.use, r, dstva, src, i)
    modifies pm
    ensures pm.Valid() && pm.use == old(pm.use) && pm.free == old(pm.free)
    ensures CopiedOut(m0, pm.mem, old(pm.use), r, dstva, src, i + n)
    ensures n == 0 <==> !Reachable(m0, r, Vpn(dstva + i))
  {
    ghost var u := pm.use;
    SameReach(m0, pm.mem, u, r);
    var a := dstva + i;
    var p := Walkaddr(pm, r, a);
    if p == 0 {
      return 0;
    }
    n := Stretch(a, |src| - i);
    var pg := PatchPage(pm.mem[p], Offset(a), src[i..i + n]);
    CopiedMore(m0, pm.mem, u, r, dstva, src, i, n, pg);
    PoolFrame(pm.mem, pm.mem[p := pg], u, u, pm.free, pm.freelist);
    pm.mem := pm.mem[p := pg];
  }

  /** copyout(): succeeds exactly if every byte of the range can be reached, and then the range holds
      src.  Otherwise the bytes before the first page that cannot be reached have been written.
      Either way no other byte of any address space changes. */
  method Copyout(pm: PageMemory, r: nat, dstva: nat, src: seq<Byte>) returns (ok: bool, ghost done: nat)
    requires pm.Valid() && IsRoot(pm.use, r) && UserPages(pm.mem, pm.use, r)
    modifies pm
    ensures pm.Valid() && pm.use == old(pm.use) && pm.free == old(pm.free) && UserPages(pm.mem, pm.use, r)
    ensures CopiedOut(old(pm.mem), pm.mem, pm.use, r, dstva, src, done)
    ensures ok <==> InReach(old(pm.mem), r, dstva, |src|)
    ensures ok ==> done == |src| && Reads(pm.mem, r, dstva, src)
    ensures !ok ==> done < |src| && !Reachable(old(pm.mem), r, Vpn(dstva + done))
  {
    ghost var m0, u := pm.mem, pm.use;
    var i: nat := 0;
    CopiedNone(m0, u, r, dstva, src);
    while i < |src|
      invariant pm.Valid() && pm.use == u && pm.free == old(pm.free) && CopiedOut(m0, pm.mem, u, r, dstva, src, i)
      decreases |src| - i
    {
      var n := CopyoutPage(pm, r, dstva, src, i, m0);
      if n == 0 {
        ReachAt(m0, r, dstva, |src|, dstva + i);
        SameReach(m0, pm.mem, u, r);
        return false, i;
      }
      i := i + n;
    }
    CopiedAll(m0, pm.mem, u, r, dstva, src);
    return true, i;
  }

  // ---------------------------------------------------------------- copyin(), copyinstr()

  /** memmove() out of page p. */
  method LoadPage(pm: PageMemory, p: nat, o: nat, n: nat) returns (data: seq<Byte>)
    requires p in pm.mem && o + n <= PGSIZE
    ensures |data| == n && forall i: nat :: i < n ==> data[i] == PageByte(pm.mem[p], o + i)
  {
    data := [];
    while |data| < n
      invariant |data| <= n && forall i: nat :: i < |data| ==> data[i] == PageByte(pm.mem[p], o + i)
    {
      data := data + [PageByte(pm.mem[p], o + |data|)];
    }
  }

  lemma LoadedMore(m: Mem, r: nat, a: nat, done: seq<Byte>, n: nat, more: seq<Byte>)
    requires Reads(m, r, a, done) && |more| <= Stretch(a + |done|, n)
    requires Ppn(Pte(m, r, Vpn(a + |done|))) in m
    requires forall i: nat :: i < |more| ==>
               more[i] == PageByte(m[Ppn(Pte(m, r, Vpn(a + |done|)))], Offset(a + |done|) + i)
    ensures Reads(m, r, a, done + more)
  {
    forall i: nat | i < |done + more| ensures (done + more)[i] == UserByte(m, r, a + i) {
      if i < |done| {
        assert done[i] == UserByte(m, r, a + i);
      } else {
        StretchPage(a + |done|, n, a + i);
        assert (done + more)[i] == more[i - |done|];
      }
    }
  }

  /** copyin(): the bytes of the range, exactly if all of them can be reached; nothing changes. */
  method Copyin(pm: PageMemory, r: nat, srcva: nat, len: nat) returns (ok: bool, dst: seq<Byte>)
    requires pm.Valid() && IsRoot(pm.use, r) && UserPages(pm.mem, pm.use, r)
    modifies pm
    ensures pm.Valid() && pm.mem == old(pm.mem) && pm.use == old(pm.use) && pm.free == old(pm.free)
    ensures ok <==> InReach(pm.mem, r, srcva, len)
    ensures |dst| <= len && Reads(pm.mem, r, srcva, dst) && (ok <==> |dst| == len)
  {
    ghost var m0, u := pm.mem, pm.use;
    dst := [];
    while |dst| < len
      invariant pm.Valid() && pm.mem == m0 && pm.use == u && pm.free == old(pm.free)
      invariant |dst| <= len && Reads(m0, r, srcva, dst) && InReach(m0, r, srcva, |dst|)
      decreases len - |dst|
    {
      var a := srcva + |dst|;
      var p := Walkaddr(pm, r, a);
      if p == 0 {
        ok := false;
        return;
      }
      var n := Stretch(a, len - |dst|);
      var data := LoadPage(pm, p, Offset(a), n);
      ReachMore(m0, r, srcva, |dst|, len - |dst|);
      LoadedMore(m0, r, srcva, dst, len - |dst|, data);
      dst := dst + data;
    }
    ok := true;
  }

  ghost predicate NoZero(s: seq<Byte>) { forall i: nat :: i < |s| ==> s[i] != 0 }

  /** A string with its NUL, s, of at most max bytes starts at address a. */
  ghost predicate StringAt(m: Mem, r: nat, a: nat, s: seq<Byte>, max: nat) {
    && 0 < |s| <= max && InReach(m, r, a, |s|) && Reads(m, r, a, s)
    && s[|s| - 1] == 0 && NoZero(s[..|s| - 1])
  }

  /** The inner loop of copyinstr(): up to the first NUL of the stretch. */
  method LoadString(pm: PageMemory, p: nat, o: nat, n: nat) returns (data: seq<Byte>, gotNull: bool)
    requires p in pm.mem && o + n <= PGSIZE
    ensures |data| <= n && forall i: nat :: i < |data| ==> data[i] == PageByte(pm.mem[p], o + i)
    ensures gotNull ==> |data| > 0 && data[|data| - 1] == 0 && NoZero(data[..|data| - 1])
    ensures !gotNull ==> |data| == n && NoZero(data)
  {
    data, gotNull := [], false;
    while |data| < n
      invariant |data| <= n && NoZero(data)
      invariant forall i: nat :: i < |data| ==> data[i] == PageByte(pm.mem[p], o + i)
    {
      var b := PageByte(pm.mem[p], o + |data|);
      ghost var before := data;
      data := data + [b];
      if b == 0 {
        gotNull := true;
        assert data[..|data| - 1] == before;
        return;
      }
    }
  }

  /** Without a NUL so far and without a way on there is no string. */
  lemma NoString(m: Mem, r: nat, a: nat, done: seq<Byte>, max: nat, s: seq<Byte>)
    requires Reads(m, r, a, done) && NoZero(done)
    requires |done| == max || !Reachable(m, r, Vpn(a + |done|))
    ensures !StringAt(m, r, a, s, max)
  {
    if 0 < |s| <= |done| {
      assert done[|s| - 1] == UserByte(m, r, a + (|s| - 1));
    } else if |done| < |s| <= max {
      ReachAt(m, r, a, |s|, a + |done|);
    }
  }

  lemma ReachAt(m: Mem, r: nat, a: nat, n: nat, b: nat)
    requires a <= b < a + n
    ensures InReach(m, r, a, n) ==> Reachable(m, r, Vpn(b))
  {
  }

  lemma StringEnds(m: Mem, r: nat, a: nat, done: seq<Byte>, more: seq<Byte>, max: nat)
    requires Reads(m, r, a, done + more) && InReach(m, r, a, |done + more|) && NoZero(done) && |done + more| <= max
    requires |more| > 0 && more[|more| - 1] == 0 && NoZero(more[..|more| - 1])
    ensures StringAt(m, r, a, done + more, max)
  {
    var s := done + more;
    assert s[..|s| - 1] == done + more[..|more| - 1];
  }

  lemma ReachLess(m: Mem, r: nat, a: nat, n: nat, k: nat)
    requires InReach(m, r, a, n) && k <= n
    ensures InReach(m, r, a, k)
  {
  }

  /** copyinstr(): the string at srcva with its NUL, exactly if there is one within max bytes whose
      bytes can all be reached. */
  method Copyinstr(pm: PageMemory, r: nat, srcva: nat, max: nat) returns (ok: bool, dst: seq<Byte>)
    requires pm.Valid() && IsRoot(pm.use, r) && UserPages(pm.mem, pm.use, r)
    modifies pm
    ensures pm.Valid() && pm.mem == old(pm.mem) && pm.use == old(pm.use) && pm.free == old(pm.free)
    ensures ok ==> StringAt(pm.mem, r, srcva, dst, max)
    ensures !ok ==> forall s :: !StringAt(pm.mem, r, srcva, s, max)
  {
    ghost var m0, u := pm.mem, pm.use;
    dst, ok := [], false;
    while |dst| < max
      invariant pm.Valid() && pm.mem == m0 && pm.use == u && pm.free == old(pm.free)
      invariant |dst| <= max && Reads(m0, r, srcva, dst) && InReach(m0, r, srcva, |dst|) && NoZero(dst)
      decreases max - |dst|
    {
      var a := srcva + |dst|;
      var p := Walkaddr(pm, r, a);
      if p == 0 {
        forall s ensures !StringAt(m0, r, srcva, s, max) { NoString(m0, r, srcva, dst, max, s); }
        return;
      }
      var n := Stretch(a, max - |dst|);
      var data, gotNull := LoadString(pm, p, Offset(a), n);
      ReachMore(m0, r, srcva, |dst|, max - |dst|);
      ReachLess(m0, r, srcva, |dst| + n, |dst| + |data|);
      LoadedMore(m0, r, srcva, dst, max - |dst|, data);
      if gotNull {
        StringEnds(m0, r, srcva, dst, data, max);
        dst, ok := dst + data, true;
        return;
      }
      dst := dst + data;
    }
    forall s ensures !StringAt(m0, r, srcva, s, max) { NoString(m0, r, srcva, dst, max, s); }
  }
}
