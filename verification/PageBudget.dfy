/** How many pages an address space needs to grow: the pages themselves, and every table page on
    their way that is not there yet, counted at the first virtual page that needs it. */
module PageBudget {
  import opened Prelude
  import opened PageTables

  /** The prefix of the level-l table on the path to virtual page v ... */
  function Prefix(l: nat, v: nat): nat {
    if l == 0 then v / ENTRIES else Prefix(l - 1, v) / ENTRIES
  }

  /** ... and PX(l, va), the index into it. */
  function Index(l: nat, v: nat): (i: nat)
    ensures i < ENTRIES
  {
    if l == 0 then v % ENTRIES else Prefix(l - 1, v) % ENTRIES
  }

  /** Root r has the table of level l and prefix x. */
  predicate Has(m: Mem, r: nat, l: nat, x: nat) { TableAt(m, r, l, x).Some? }

  /** The tables missing on the way to v, from the root down to level l. */
  function LackTo(m: Mem, r: nat, v: nat, l: nat): nat {
    One(l <= 1 && !Has(m, r, 1, Prefix(1, v))) + One(l == 0 && !Has(m, r, 0, Prefix(0, v)))
  }

  function Lack(m: Mem, r: nat, v: nat): nat { LackTo(m, r, v, 0) }

  /** From m0 to m root r got the tables on the way to v down to level l, and no others. */
  ghost predicate MadeTo(m0: Mem, m: Mem, r: nat, v: nat, l: nat) {
    forall i: nat, x: nat {:trigger Has(m, r, i, x)} :: i < 2 && InRange(i, x) ==>
      (Has(m, r, i, x) <==> Has(m0, r, i, x) || (l <= i && x == Prefix(i, v)))
  }

  /** From m0 to m root r got the tables on the way to virtual pages first to first+k, and no others. */
  ghost predicate Made(m0: Mem, m: Mem, r: nat, first: nat, k: nat) {
    forall i: nat, x: nat {:trigger Has(m, r, i, x)} :: i < 2 && InRange(i, x) ==>
      (Has(m, r, i, x) <==> Has(m0, r, i, x) || (k > 0 && Prefix(i, first) <= x <= Prefix(i, first + k - 1)))
  }

  /** Virtual page v is the first from `first` on to need its table of level l, which is missing. */
  predicate NewAt(m: Mem, r: nat, first: nat, v: nat, l: nat) {
    !Has(m, r, l, Prefix(l, v)) && (v <= first || Prefix(l, v - 1) != Prefix(l, v))
  }

  /** What k virtual pages from `first` on take: the missing tables, and with `page` a page each. */
  function Need(m: Mem, r: nat, first: nat, k: nat, page: bool): nat {
    if k == 0 then 0
    else
      var v := first + k - 1;
      Need(m, r, first, k - 1, page) + One(NewAt(m, r, first, v, 1)) + One(NewAt(m, r, first, v, 0)) + One(page)
  }

  lemma PrefixUp(l: nat, v: nat)
    requires l < 2 && v + 1 < MAXV
    ensures Prefix(l, v) <= Prefix(l, v + 1) <= Prefix(l, v) + 1
  {
    assert Prefix(1, v) == v / ENTRIES / ENTRIES && Prefix(1, v + 1) == (v + 1) / ENTRIES / ENTRIES;
  }

  lemma {:induction false} PrefixMono(l: nat, v: nat, w: nat)
    requires l < 2 && v <= w < MAXV
    ensures Prefix(l, v) <= Prefix(l, w)
    decreases w - v
  {
    if v < w {
      PrefixMono(l, v, w - 1);
      PrefixUp(l, w - 1);
    }
  }

  lemma PrefixRange(l: nat, v: nat)
    requires l < 2 && v < MAXV
    ensures InRange(l, Prefix(l, v))
  {
    assert Prefix(1, v) == v / ENTRIES / ENTRIES;
  }

  /** What the next page lacks now is what it is counted for. */
  lemma LackIsNew(m0: Mem, m: Mem, r: nat, first: nat, k: nat, v: nat)
    requires Made(m0, m, r, first, k) && v == first + k < MAXV
    ensures Lack(m, r, v) == One(NewAt(m0, r, first, v, 1)) + One(NewAt(m0, r, first, v, 0))
  {
    PrefixRange(0, v);
    PrefixRange(1, v);
    if k > 0 {
      PrefixUp(0, v - 1);
      PrefixUp(1, v - 1);
      PrefixMono(0, first, v);
      PrefixMono(1, first, v);
    }
    assert Has(m, r, 0, Prefix(0, v)) <==> Has(m0, r, 0, Prefix(0, v)) || (k > 0 && Prefix(0, v - 1) == Prefix(0, v));
    assert Has(m, r, 1, Prefix(1, v)) <==> Has(m0, r, 1, Prefix(1, v)) || (k > 0 && Prefix(1, v - 1) == Prefix(1, v));
  }

  lemma MadeNext(m0: Mem, m: Mem, m': Mem, r: nat, first: nat, k: nat, v: nat)
    requires Made(m0, m, r, first, k) && MadeTo(m, m', r, v, 0) && v == first + k < MAXV
    ensures Made(m0, m', r, first, k + 1)
  {
    forall i: nat, x: nat | i < 2 && InRange(i, x)
      ensures Has(m', r, i, x) <==> Has(m0, r, i, x) || (Prefix(i, first) <= x <= Prefix(i, v))
    {
      assert Has(m, r, i, x) <==> Has(m0, r, i, x) || (k > 0 && Prefix(i, first) <= x <= Prefix(i, first + k - 1));
      PrefixMono(i, first, v);
      if k > 0 { PrefixUp(i, v - 1); }
    }
  }

  lemma MadeNone(m: Mem, r: nat, first: nat)
    ensures Made(m, m, r, first, 0)
  {
  }

  lemma MadeFrame(m0: Mem, m: Mem, m': Mem, r: nat, v: nat, l: nat)
    requires MadeTo(m0, m, r, v, l)
    requires forall i: nat, x: nat {:trigger Has(m', r, i, x)} :: i < 2 && InRange(i, x) ==>
               TableAt(m', r, i, x) == TableAt(m, r, i, x)
    ensures MadeTo(m0, m', r, v, l)
  {
    forall i: nat, x: nat | i < 2 && InRange(i, x)
      ensures Has(m', r, i, x) <==> Has(m0, r, i, x) || (l <= i && x == Prefix(i, v))
    {
      assert Has(m, r, i, x) <==> Has(m0, r, i, x) || (l <= i && x == Prefix(i, v));
    }
  }

  lemma {:induction false} NeedGrows(m: Mem, r: nat, first: nat, k: nat, n: nat, page: bool)
    requires k <= n
    ensures Need(m, r, first, k, page) <= Need(m, r, first, n, page)
    decreases n
  {
    if k < n { NeedGrows(m, r, first, k, n - 1, page); }
  }

  /** From m to m' root r got the table of level l and prefix y. */
  ghost predicate LevelMade(m: Mem, m': Mem, r: nat, l: nat, y: nat) {
    forall i: nat, x: nat {:trigger Has(m', r, i, x)} :: i < 2 && InRange(i, x) ==>
      (Has(m', r, i, x) <==> Has(m, r, i, x) || (i == l && x == y))
  }

  /** One more level of walk(). */
  lemma WalkDown(m0: Mem, m: Mem, m': Mem, r: nat, v: nat, level: nat)
    requires 0 < level <= 2 && v < MAXV && MadeTo(m0, m, r, v, level) &&
             LevelMade(m, m', r, level - 1, Prefix(level - 1, v))
    ensures MadeTo(m0, m', r, v, level - 1)
    ensures LackTo(m0, r, v, level - 1) == LackTo(m0, r, v, level) + One(!Has(m, r, level - 1, Prefix(level - 1, v)))
  {
    PrefixRange(level - 1, v);
    forall i: nat, x: nat | i < 2 && InRange(i, x)
      ensures Has(m', r, i, x) <==> Has(m0, r, i, x) || (level - 1 <= i && x == Prefix(i, v))
    {
      assert Has(m, r, i, x) <==> Has(m0, r, i, x) || (level <= i && x == Prefix(i, v));
    }
  }

  /** A table is missing now: it was missing at the start, too. */
  lemma LackMore(m0: Mem, m: Mem, r: nat, v: nat, level: nat)
    requires 0 < level <= 2 && v < MAXV && MadeTo(m0, m, r, v, level)
    ensures !Has(m, r, level - 1, Prefix(level - 1, v)) ==> LackTo(m0, r, v, level) < Lack(m0, r, v)
  {
    PrefixRange(level - 1, v);
    assert Has(m, r, level - 1, Prefix(level - 1, v)) <==> Has(m0, r, level - 1, Prefix(level - 1, v));
  }

  /** From m0 and f0 free pages to m and f: k virtual pages from `first` on have been paid for. */
  ghost predicate Paid(m0: Mem, m: Mem, r: nat, first: nat, k: nat, page: bool, f0: nat, f: nat) {
    Made(m0, m, r, first, k) && f + Need(m0, r, first, k, page) == f0
  }

  lemma PaidNone(m: Mem, r: nat, first: nat, page: bool, f: nat)
    ensures Paid(m, m, r, first, 0, page, f, f)
  {
    MadeNone(m, r, first);
  }

  lemma PaidNext(m0: Mem, m: Mem, m': Mem, r: nat, first: nat, k: nat, page: bool, f0: nat, f: nat, f': nat, v: nat)
    requires Paid(m0, m, r, first, k, page, f0, f) && v == first + k < MAXV
    requires MadeTo(m, m', r, v, 0) && f' + Lack(m, r, v) + One(page) == f
    ensures Paid(m0, m', r, first, k + 1, page, f0, f')
  {
    LackIsNew(m0, m, r, first, k, v);
    MadeNext(m0, m, m', r, first, k, v);
  }

  /** A page could not be paid for: there was not enough from the beginning. */
  lemma PaidShort(m0: Mem, m: Mem, r: nat, first: nat, k: nat, page: bool, f0: nat, f: nat, v: nat, n: nat, need: nat)
    requires Paid(m0, m, r, first, k, page, f0, f) && v == first + k < MAXV && f < Lack(m, r, v) + One(page) && k < n
    requires need == Need(m0, r, first, n, page)
    ensures f0 < need
  {
    LackIsNew(m0, m, r, first, k, v);
    NeedGrows(m0, r, first, k + 1, n, page);
  }

  /** All pages have been paid for. */
  lemma PaidAll(m0: Mem, m: Mem, r: nat, first: nat, k: nat, page: bool, f0: nat, f: nat, n: nat, need: nat)
    requires Paid(m0, m, r, first, k, page, f0, f) && k == n && need == Need(m0, r, first, n, page)
    ensures need <= f0
  {
  }
}
