/** The log protocol on top of the buffer cache of kernel/bio.c: clients and the log reach blocks only
    through buffers, which have reference counts, pins and sleep-locks and are recycled.  The steps on
    buffers are the methods of class Bcache, except that any unreferenced buffer may be recycled and
    that time stamps are arbitrary.  Process |ops| is the log itself. */
module LogCache {
  import opened Prelude
  import opened LogFormat
  import opened LogProtocol
  import opened LogProofs
  import opened LogTheorems
  import B = BufferCache

  const DEV: nat := 1              // ROOTDEV

  /** `who` holds the sleep-lock of a buffer; `unlogged` are the buffers changed since log_write(). */
  datatype Machine = Machine(
    buf: seq<B.Buf>, use: seq<B.Use>, who: seq<Option<nat>>, unlogged: set<nat>,
    disk: Disk, lh: seq<int>, outstanding: int, committing: bool, phase: Phase, ops: seq<Op>)

  datatype Act =
    | Hit(i: nat, b: nat) | Recycle(i: nat, b: nat)          // bget()
    | Take(i: nat, p: nat)                                   // acquiresleep(), the rest of bread()
    | Change(i: nat, p: nat, v: Block) | Log(i: nat, p: nat)
    | Give(i: nat, p: nat) | Unref(i: nat, stamp: nat)       // brelse()
    | Begin(p: nat) | End(p: nat)
    | CopyOut(i: nat, j: nat) | WriteHead(i: nat)            // commit(): write_log(), write_head()
    | CopyHome(i: nat, j: nat) | ClearHead(i: nat)           // install_trans() and the cleared header
    | ReadHead(i: nat) | Finished | Fail

  predicate Sized(m: Machine) { |m.use| == |m.who| == |m.buf| }

  function Key(b: nat): B.Key { B.Key(DEV, b) }

  /** Buffer i holds block b and p has its lock. */
  predicate Has(m: Machine, i: nat, p: nat, b: int) {
    && i < |m.buf| && i < |m.who| && m.who[i] == Some(p) && m.buf[i].valid
    && m.buf[i].key.dev == DEV && m.buf[i].key.blockno == b
  }

  // ---------------------------------------------------------------- steps on buffers

  function With(m: Machine, i: nat, b: B.Buf, g: B.Use): Machine
    requires Sized(m) && i < |m.buf|
  {
    m.(buf := m.buf[i := b], use := m.use[i := g])
  }

  function DoHit(m: Machine, i: nat, b: nat): Option<Machine>
    requires Sized(m)
  {
    if i < |m.buf| && m.buf[i].key == Key(b) then
      Some(With(m, i, m.buf[i].(refcnt := m.buf[i].refcnt + 1), m.use[i].(holds := m.use[i].holds + 1)))
    else None
  }

  function DoRecycle(m: Machine, i: nat, b: nat): Option<Machine>
    requires Sized(m)
  {
    if i < |m.buf| && m.buf[i].refcnt == 0 && (forall j :: 0 <= j < |m.buf| ==> m.buf[j].key != Key(b)) then
      Some(With(m, i, m.buf[i].(key := Key(b), valid := false, refcnt := 1), m.use[i].(holds := m.use[i].holds + 1)))
    else None
  }

  /** Clients read home blocks of a running system, the log any block. */
  predicate MayRead(L: Layout, m: Machine, p: nat, b: int) {
    0 <= b < |m.disk| && (p == |m.ops| || (p < |m.ops| && Live(m.phase) && L.Home(b)))
  }

  function DoTake(L: Layout, m: Machine, i: nat, p: nat): Option<Machine>
    requires Sized(m)
  {
    if !(i < |m.buf| && m.use[i].holds > 0 && !m.buf[i].locked && m.buf[i].key.dev == DEV) then None
    else if !MayRead(L, m, p, m.buf[i].key.blockno) then None
    else
      var data := if m.buf[i].valid then m.buf[i].data else m.disk[m.buf[i].key.blockno];
      Some(With(m, i, m.buf[i].(locked := true, valid := true, data := data), m.use[i]).(who := m.who[i := Some(p)]))
  }

  function DoChange(m: Machine, i: nat, p: nat, v: Block): Option<Machine>
    requires Sized(m)
  {
    if i < |m.buf| && m.who[i] == Some(p) && m.buf[i].valid && Live(m.phase) && InOp(m.ops, p) then
      Some(With(m, i, m.buf[i].(data := v), m.use[i].(dirty := true)).(unlogged := m.unlogged + {i}))
    else None
  }

  /** log_write(): a block that is new in the log is pinned. */
  function DoLog(L: Layout, m: Machine, i: nat, p: nat): Option<Machine>
    requires Sized(m)
  {
    if !(i < |m.buf| && m.who[i] == Some(p) && m.buf[i].valid && Live(m.phase) && InOp(m.ops, p)) then None
    else if !(|m.lh| < LOGSIZE && |m.lh| < L.size - 1 && m.outstanding >= 1) then None
    else
      var b := m.buf[i].key.blockno;
      var n := m.(unlogged := m.unlogged - {i}, ops := m.ops[p := Active(m.ops[p].touched + {b as int})]);
      if b in m.lh then Some(n)
      else Some(With(n, i, m.buf[i].(refcnt := m.buf[i].refcnt + 1), m.use[i].(pins := m.use[i].pins + 1)).
                (lh := m.lh + [b]))
  }

  /** The client rule: a changed buffer is logged before it is released. */
  function DoGive(m: Machine, i: nat, p: nat): Option<Machine>
    requires Sized(m)
  {
    if i < |m.buf| && m.who[i] == Some(p) && i !in m.unlogged then
      Some(With(m, i, m.buf[i].(locked := false), m.use[i]).(who := m.who[i := None]))
    else None
  }

  function DoUnref(m: Machine, i: nat, stamp: nat): Option<Machine>
    requires Sized(m)
  {
    if i < |m.buf| && m.use[i].holds > (if m.buf[i].locked then 1 else 0) then
      Some(With(m, i, m.buf[i].(refcnt := m.buf[i].refcnt - 1),
                m.use[i].(holds := m.use[i].holds - 1, stamp := stamp)))
    else None
  }

  // ---------------------------------------------------------------- steps of the log

  function DoBegin(m: Machine, p: nat): Option<Machine> {
    if !Live(m.phase) || p >= |m.ops| || m.ops[p].Active? || m.committing then None
    else if |m.lh| + (m.outstanding + 1) * MAXOPBLOCKS > LOGSIZE then None
    else Some(m.(outstanding := m.outstanding + 1, ops := m.ops[p := Active({})]))
  }

  function DoEnd(m: Machine, p: nat): Option<Machine>
    requires Sized(m)
  {
    if !Live(m.phase) || !InOp(m.ops, p) || m.committing then None
    else if exists i :: 0 <= i < |m.who| && i in m.unlogged && m.who[i] == Some(p) then None
    else
      var n := m.(outstanding := m.outstanding - 1, ops := m.ops[p := Idle]);
      if n.outstanding != 0 then Some(n)
      else Some(n.(committing := true, phase := if |m.lh| > 0 then WriteLog(0) else Phase.Finish))
  }

  /** bwrite() of buffer i, which holds block b, with new content v. */
  function Written(m: Machine, i: nat, b: int, v: Block): Machine
    requires Sized(m) && i < |m.buf| && 0 <= b < |m.disk|
  {
    With(m, i, m.buf[i].(data := v), m.use[i].(dirty := false)).(disk := m.disk[b := v])
  }

  /** One block of write_log(): j is the cached block, i its place in the log. */
  function DoCopyOut(L: Layout, m: Machine, i: nat, j: nat): Option<Machine>
    requires Sized(m) && L.Valid() && |m.disk| == L.nblocks && LoggableList(L, m.lh)
  {
    if !(m.phase.WriteLog? && m.phase.t < |m.lh|) then None
    else
      var t, log := m.phase.t, |m.ops|;
      if Has(m, i, log, L.start + 1 + t) && Has(m, j, log, m.lh[t]) then
        Some(Written(m, i, L.start + 1 + t, m.buf[j].data).(phase := WriteLog(t + 1)))
      else None
  }

  function DoWriteHead(L: Layout, m: Machine, i: nat): Option<Machine>
    requires Sized(m) && L.Valid() && |m.disk| == L.nblocks && LoggableList(L, m.lh)
  {
    if m.phase.WriteLog? && m.phase.t == |m.lh| && Has(m, i, |m.ops|, L.start) then
      Some(Written(m, i, L.start, WithHeader(m.buf[i].data, m.lh)).(phase := Install(0, false)))
    else None
  }

  /** One block of install_trans(): j is the log block, i the home block, which is unpinned unless recovering. */
  function DoCopyHome(L: Layout, m: Machine, i: nat, j: nat): Option<Machine>
    requires Sized(m) && L.Valid() && |m.disk| == L.nblocks && LoggableList(L, m.lh)
  {
    if !(m.phase.Install? && m.phase.t < |m.lh|) then None
    else
      var t, log := m.phase.t, |m.ops|;
      if !(Has(m, i, log, m.lh[t]) && Has(m, j, log, L.start + 1 + t)) then None
      else
        var n := Written(m, i, m.lh[t], m.buf[j].data).(phase := Install(t + 1, m.phase.recovering));
        if m.phase.recovering then Some(n)
        else if m.use[i].pins == 0 then None
        else Some(With(n, i, n.buf[i].(refcnt := n.buf[i].refcnt - 1), n.use[i].(pins := n.use[i].pins - 1)))
  }

  function DoClearHead(L: Layout, m: Machine, i: nat): Option<Machine>
    requires Sized(m) && L.Valid() && |m.disk| == L.nblocks && LoggableList(L, m.lh)
  {
    if m.phase.Install? && m.phase.t >= |m.lh| && Has(m, i, |m.ops|, L.start) then
      Some(Written(m, i, L.start, WithHeader(m.buf[i].data, [])).
           (phase := if m.phase.recovering then Normal else Phase.Finish, lh := []))
    else None
  }

  function DoReadHead(L: Layout, m: Machine, i: nat): Option<Machine>
    requires Sized(m)
  {
    if m.phase.BootRead? && Has(m, i, |m.ops|, L.start) then
      Some(m.(lh := Header(m.buf[i].data), phase := Install(0, true)))
    else None
  }

  /** Power failure, and binit() after it. */
  function DoFail(m: Machine): Machine {
    m.(buf := Empty(|m.buf|), use := seq(|m.buf|, i => B.Use(0, 0, false, 0)), who := seq(|m.buf|, i => None),
       unlogged := {}, lh := [], outstanding := 0, committing := false, phase := BootRead,
       ops := seq(|m.ops|, i => Idle))
  }

  function Empty(n: nat): seq<B.Buf> { seq(n, i => B.Buf(B.Key(0, 0), 0, false, B.Zeroes(), false)) }

  predicate Ready(L: Layout, m: Machine) {
    Sized(m) && L.Valid() && |m.disk| == L.nblocks && LoggableList(L, m.lh)
  }

  function Step(L: Layout, m: Machine, a: Act): Option<Machine>
    requires Ready(L, m)
  {
    match a
    case Hit(i, b) => DoHit(m, i, b)
    case Recycle(i, b) => DoRecycle(m, i, b)
    case Take(i, p) => DoTake(L, m, i, p)
    case Change(i, p, v) => DoChange(m, i, p, v)
    case Log(i, p) => DoLog(L, m, i, p)
    case Give(i, p) => DoGive(m, i, p)
    case Unref(i, stamp) => DoUnref(m, i, stamp)
    case Begin(p) => DoBegin(m, p)
    case End(p) => DoEnd(m, p)
    case CopyOut(i, j) => DoCopyOut(L, m, i, j)
    case WriteHead(i) => DoWriteHead(L, m, i)
    case CopyHome(i, j) => DoCopyHome(L, m, i, j)
    case ClearHead(i) => DoClearHead(L, m, i)
    case ReadHead(i) => DoReadHead(L, m, i)
    case Finished => if m.phase.Finish? then Some(m.(phase := Normal, committing := false)) else None
    case Fail => Some(DoFail(m))
  }

  function Start(d: Disk, nproc: nat, nbuf: nat): Machine {
    Machine(Empty(nbuf), seq(nbuf, i => B.Use(0, 0, false, 0)), seq(nbuf, i => None), {}, d, [], 0, false, BootRead,
            seq(nproc, i => Idle))
  }

  // ---------------------------------------------------------------- the calls of class Bcache are steps

  /** The machine's buffers and disk are those of the cache. */
  ghost predicate Of(m: Machine, c: B.Bcache)
    reads c
  {
    && Sized(m) && m.buf == c.buf && m.use == c.use
    && forall x: nat :: x < |m.disk| ==> Key(x) in c.disk && c.disk[Key(x)] == m.disk[x]
  }

  /** bget() is a hit or a recycling, and panics exactly if neither is possible. */
  method BgetIs(c: B.Bcache, ghost m: Machine, b: nat) returns (r: Option<nat>)
    requires c.Valid() && Of(m, c)
    modifies c`buf, c`use
    ensures c.Valid()
    ensures r.Some? ==> Some(m.(buf := c.buf, use := c.use)) in {DoHit(m, r.value, b), DoRecycle(m, r.value, b)}
    ensures r.None? ==> forall i: nat :: DoHit(m, i, b).None? && DoRecycle(m, i, b).None?
  {
    r := c.Bget(Key(b));
  }

  /** acquiresleep() and the rest of bread() */
  method TakeIs(L: Layout, c: B.Bcache, ghost m: Machine, i: nat, p: nat) returns (data: B.Block)
    requires c.Valid() && Of(m, c) && DoTake(L, m, i, p).Some?
    modifies c`buf, c`use
    ensures c.Valid() && DoTake(L, m, i, p) == Some(m.(buf := c.buf, use := c.use, who := m.who[i := Some(p)]))
    ensures data == c.buf[i].data
  {
    assert m.use[i := m.use[i]] == m.use && Key(m.buf[i].key.blockno) == m.buf[i].key;
    assert B.BufOk(m.buf[i], m.use[i], c.disk, c.store);
    if !m.buf[i].valid { B.Unchanged(m.buf, m.use, c.disk, c.store, i); }
    c.Lock(i);
    data := c.Bread(i);
    assert c.buf == m.buf[i := m.buf[i].(locked := true, valid := true, data := data)];
  }

  method ChangeIs(c: B.Bcache, ghost m: Machine, i: nat, p: nat, v: Block)
    requires c.Valid() && Of(m, c) && DoChange(m, i, p, v).Some? && c.buf[i].locked
    modifies c`buf, c`use, c`store
    ensures c.Valid()
    ensures DoChange(m, i, p, v) == Some(m.(buf := c.buf, use := c.use, unlogged := m.unlogged + {i}))
  {
    c.Modify(i, v);
  }

  /** The pin of log_write(). */
  method PinIs(L: Layout, c: B.Bcache, ghost m: Machine, i: nat, p: nat)
    requires c.Valid() && Of(m, c) && DoLog(L, m, i, p).Some? && c.buf[i].locked && m.buf[i].key.blockno !in m.lh
    modifies c`buf, c`use
    ensures c.Valid() && DoLog(L, m, i, p).value.buf == c.buf && DoLog(L, m, i, p).value.use == c.use
  {
    c.Bpin(i);
  }

  /** brelse() in its two parts. */
  method GiveIs(c: B.Bcache, ghost m: Machine, i: nat, p: nat)
    requires c.Valid() && Of(m, c) && DoGive(m, i, p).Some? && c.buf[i].locked
    requires m.use[i].dirty ==> m.use[i].pins > 0
    modifies c`buf, c`use
    ensures c.Valid() && DoGive(m, i, p) == Some(m.(buf := c.buf, use := c.use, who := m.who[i := None]))
  {
    assert m.use[i := m.use[i]] == m.use;
    c.Unlock(i);
  }

  method UnrefIs(c: B.Bcache, ghost m: Machine, i: nat)
    requires c.Valid() && Of(m, c) && DoUnref(m, i, 0).Some?
    modifies c
    ensures c.Valid() && exists stamp: nat :: DoUnref(m, i, stamp) == Some(m.(buf := c.buf, use := c.use))
  {
    ghost var t := if m.buf[i].refcnt == 1 then c.clock else c.use[i].stamp;
    c.Unref(i);
    assert DoUnref(m, i, t) == Some(m.(buf := c.buf, use := c.use));
  }

  // ---------------------------------------------------------------- the simulation

  /** A buffer agrees with the protocol's view of its block. */
  predicate BufSim(b: B.Buf, g: B.Use, w: Option<nat>, u: bool, s: State) {
    var x: int := b.key.blockno;
    && b.refcnt == g.holds + g.pins && b.locked == w.Some? && (b.locked ==> g.holds > 0 && b.valid)
    && (b.valid || g.pins > 0 ==> b.key.dev == DEV && x < |s.disk| && b.valid && b.data == View(s, x))
    && (w.Some? && w.value < |s.ops| ==> x in s.held && s.held[x] == w.value)
    && (w.Some? && w.value >= |s.ops| ==> x !in s.held)
    && (u <==> w.Some? && x in s.unlogged)
    && (b.key.dev == DEV ==> g.pins == One(x in s.pins))
  }

  ghost predicate BufsSim(buf: seq<B.Buf>, use: seq<B.Use>, who: seq<Option<nat>>, unlogged: set<nat>, s: State)
    requires |use| == |who| == |buf|
  {
    forall i: nat {:trigger BufSim(buf[i], use[i], who[i], i in unlogged, s)} :: i < |buf| ==>
      BufSim(buf[i], use[i], who[i], i in unlogged, s)
  }

  predicate Holder(b: B.Buf, w: Option<nat>, x: int, p: nat) {
    b.key.dev == DEV && b.key.blockno == x && w == Some(p)
  }

  /** Locked and pinned blocks have a buffer. */
  ghost predicate HeldSim(buf: seq<B.Buf>, who: seq<Option<nat>>, s: State)
    requires |who| == |buf|
  {
    && (forall x :: x in s.held ==>
          s.held[x] < |s.ops| && exists i: nat :: i < |buf| && Holder(buf[i], who[i], x, s.held[x]))
    && (forall x :: x in s.pins ==> exists i: nat :: i < |buf| && buf[i].key.dev == DEV && buf[i].key.blockno == x)
  }

  ghost predicate Sim(m: Machine, s: State) {
    && Sized(m) && B.OneEach(m.buf) && BufsSim(m.buf, m.use, m.who, m.unlogged, s) && HeldSim(m.buf, m.who, s)
    && m.disk == s.disk && m.lh == s.lh && m.outstanding == s.outstanding && m.committing == s.committing
    && m.phase == s.phase && m.ops == s.ops
  }

  /** The protocol steps a step on buffers amounts to: one, or none. */
  function Abs(m: Machine, a: Act): seq<LogProtocol.Step>
    requires Sized(m)
  {
    match a
    case Take(i, p) => if i < |m.buf| && p < |m.ops| then [Bread(p, m.buf[i].key.blockno)] else []
    case Change(i, p, v) => if i < |m.buf| then [Modify(p, m.buf[i].key.blockno, v)] else []
    case Log(i, p) => if i < |m.buf| then [LogWrite(p, m.buf[i].key.blockno)] else []
    case Give(i, p) => if i < |m.buf| && p < |m.ops| then [Brelse(p, m.buf[i].key.blockno)] else []
    case Begin(p) => [BeginOp(p)]
    case End(p) => [EndOp(p)]
    case CopyOut(i, j) => [Commit]
    case WriteHead(i) => [Commit]
    case CopyHome(i, j) => if m.phase.Install? && m.phase.recovering then [Recovery] else [Commit]
    case ClearHead(i) => if m.phase.Install? && m.phase.recovering then [Recovery] else [Commit]
    case ReadHead(i) => [Recovery]
    case Finished => [Commit]
    case Fail => [Crash]
    case _ => []
  }

  // ---------------------------------------------------------------- one buffer changes

  /** The protocol looks the same at block y. */
  predicate SameAt(s: State, s': State, y: int) {
    && |s'.disk| == |s.disk| && |s'.ops| == |s.ops|
    && (y in s'.held <==> y in s.held) && (y in s.held ==> s'.held[y] == s.held[y])
    && (y in s'.unlogged <==> y in s.unlogged) && (y in s'.pins <==> y in s.pins)
    && (0 <= y < |s.disk| ==> View(s', y) == View(s, y))
  }

  lemma BufKept(b: B.Buf, g: B.Use, w: Option<nat>, u: bool, s: State, s': State)
    requires BufSim(b, g, w, u, s) && SameAt(s, s', b.key.blockno)
    ensures BufSim(b, g, w, u, s')
  {
  }

  lemma OtherBuf(b: B.Buf, g: B.Use, w: Option<nat>, u: bool, s: State, s': State)
    requires BufSim(b, g, w, u, s) && b.key.dev != DEV
    ensures BufSim(b, g, w, u, s')
  {
  }

  /** Buffer i and the protocol's view of its block change together. */
  lemma OneSim(m: Machine, s: State, s': State, i: nat, b: B.Buf, g: B.Use, w: Option<nat>, unlogged: set<nat>)
    requires Sized(m) && B.OneEach(m.buf) && BufsSim(m.buf, m.use, m.who, m.unlogged, s) && HeldSim(m.buf, m.who, s)
    requires i < |m.buf| && b.key == m.buf[i].key && b.key.dev == DEV && BufSim(b, g, w, i in unlogged, s')
    requires forall j: nat :: j < |m.buf| && j != i ==> (j in unlogged <==> j in m.unlogged)
    requires forall y {:trigger SameAt(s, s', y)} :: y != b.key.blockno ==> SameAt(s, s', y)
    requires |s'.ops| == |s.ops| &&
             (b.key.blockno in s'.held ==> w == Some(s'.held[b.key.blockno]) && w.value < |s.ops|)
    ensures B.OneEach(m.buf[i := b]) && BufsSim(m.buf[i := b], m.use[i := g], m.who[i := w], unlogged, s')
    ensures HeldSim(m.buf[i := b], m.who[i := w], s')
  {
    var buf, use, who := m.buf[i := b], m.use[i := g], m.who[i := w];
    forall j: nat | j < |buf| ensures BufSim(buf[j], use[j], who[j], j in unlogged, s') {
      if j != i {
        assert BufSim(m.buf[j], m.use[j], m.who[j], j in m.unlogged, s);
        if m.buf[j].key.dev == DEV {
          assert SameAt(s, s', m.buf[j].key.blockno);
          BufKept(m.buf[j], m.use[j], m.who[j], j in m.unlogged, s, s');
        } else {
          OtherBuf(m.buf[j], m.use[j], m.who[j], j in m.unlogged, s, s');
        }
      }
    }
    OneHeld(m, s, s', i, b, w);
  }

  lemma OneHeld(m: Machine, s: State, s': State, i: nat, b: B.Buf, w: Option<nat>)
    requires Sized(m) && B.OneEach(m.buf) && HeldSim(m.buf, m.who, s)
    requires i < |m.buf| && b.key == m.buf[i].key && b.key.dev == DEV
    requires forall y {:trigger SameAt(s, s', y)} :: y != b.key.blockno ==> SameAt(s, s', y)
    requires |s'.ops| == |s.ops| &&
             (b.key.blockno in s'.held ==> w == Some(s'.held[b.key.blockno]) && w.value < |s.ops|)
    ensures HeldSim(m.buf[i := b], m.who[i := w], s')
  {
    var buf, who := m.buf[i := b], m.who[i := w];
    forall x | x in s'.held
      ensures s'.held[x] < |s'.ops| && exists j: nat :: j < |buf| && Holder(buf[j], who[j], x, s'.held[x])
    {
      if x == b.key.blockno {
        assert Holder(buf[i], who[i], x, s'.held[x]);
      } else {
        assert SameAt(s, s', x);
        var j: nat :| j < |m.buf| && Holder(m.buf[j], m.who[j], x, s.held[x]);
        assert Holder(buf[j], who[j], x, s'.held[x]);
      }
    }
    forall x | x in s'.pins
      ensures exists j: nat :: j < |buf| && buf[j].key.dev == DEV && buf[j].key.blockno == x
    {
      if x == b.key.blockno {
        assert buf[i].key.dev == DEV && buf[i].key.blockno == x;
      } else {
        assert SameAt(s, s', x);
        var j: nat :| j < |m.buf| && m.buf[j].key.dev == DEV && m.buf[j].key.blockno == x;
        assert buf[j].key.dev == DEV && buf[j].key.blockno == x;
      }
    }
  }

  /** The protocol changes nothing that buffers show. */
  lemma AllSim(m: Machine, s: State, s': State)
    requires Sized(m) && BufsSim(m.buf, m.use, m.who, m.unlogged, s) && HeldSim(m.buf, m.who, s)
    requires |s'.ops| == |s.ops| && s'.held == s.held && s'.pins == s.pins && s'.unlogged == s.unlogged
    requires |s'.disk| == |s.disk| && forall y :: 0 <= y < |s.disk| ==> View(s', y) == View(s, y)
    ensures BufsSim(m.buf, m.use, m.who, m.unlogged, s') && HeldSim(m.buf, m.who, s')
  {
    forall j: nat | j < |m.buf| ensures BufSim(m.buf[j], m.use[j], m.who[j], j in m.unlogged, s') {
      assert BufSim(m.buf[j], m.use[j], m.who[j], j in m.unlogged, s);
    }
    forall x | x in s'.held
      ensures s'.held[x] < |s'.ops| && exists j: nat :: j < |m.buf| && Holder(m.buf[j], m.who[j], x, s'.held[x])
    {
      var j: nat :| j < |m.buf| && Holder(m.buf[j], m.who[j], x, s.held[x]);
      assert Holder(m.buf[j], m.who[j], x, s'.held[x]);
    }
  }

  /** A block whose buffer is not locked is held by no client. */
  lemma NotHeld(m: Machine, s: State, i: nat)
    requires Sim(m, s) && i < |m.buf| && m.buf[i].key.dev == DEV && m.who[i] == None
    ensures m.buf[i].key.blockno !in s.held
  {
    forall j: nat, p: nat | j < |m.buf| ensures !Holder(m.buf[j], m.who[j], m.buf[i].key.blockno, p) {
      assert j != i ==> m.buf[j].key != m.buf[i].key;
    }
  }

  // ---------------------------------------------------------------- steps on buffers

  lemma HitSim(m: Machine, s: State, i: nat, b: nat)
    requires Sim(m, s) && DoHit(m, i, b).Some?
    ensures Sim(DoHit(m, i, b).value, s)
  {
    var n := DoHit(m, i, b).value;
    assert BufSim(m.buf[i], m.use[i], m.who[i], i in m.unlogged, s);
    OneSim(m, s, s, i, n.buf[i], n.use[i], m.who[i], m.unlogged);
    assert m.who[i := m.who[i]] == m.who;
  }

  lemma UnrefSim(m: Machine, s: State, i: nat, stamp: nat)
    requires Sim(m, s) && DoUnref(m, i, stamp).Some?
    ensures Sim(DoUnref(m, i, stamp).value, s)
  {
    var n := DoUnref(m, i, stamp).value;
    assert BufSim(m.buf[i], m.use[i], m.who[i], i in m.unlogged, s);
    if m.buf[i].key.dev == DEV {
      OneSim(m, s, s, i, n.buf[i], n.use[i], m.who[i], m.unlogged);
    } else {
      OtherUnref(m, s, i, n.buf[i], n.use[i]);
    }
    assert m.who[i := m.who[i]] == m.who;
  }

  lemma OtherUnref(m: Machine, s: State, i: nat, b: B.Buf, g: B.Use)
    requires Sim(m, s) && i < |m.buf| && b.key == m.buf[i].key && b.key.dev != DEV
    requires BufSim(b, g, m.who[i], i in m.unlogged, s)
    ensures Sim(m.(buf := m.buf[i := b], use := m.use[i := g]), s)
  {
    var buf, use := m.buf[i := b], m.use[i := g];
    forall j: nat | j < |buf| ensures BufSim(buf[j], use[j], m.who[j], j in m.unlogged, s) {
      assert BufSim(m.buf[j], m.use[j], m.who[j], j in m.unlogged, s);
    }
    KeysHeld(m, s, buf);
  }

  /** HeldSim depends on keys and locks only. */
  lemma KeysHeld(m: Machine, s: State, buf: seq<B.Buf>)
    requires Sized(m) && HeldSim(m.buf, m.who, s) && |buf| == |m.buf|
    requires forall j: nat {:trigger buf[j]} :: j < |buf| && buf[j].key != m.buf[j].key ==>
               m.who[j] == None && (m.buf[j].key.dev == DEV ==> m.buf[j].key.blockno as int !in s.pins)
    ensures HeldSim(buf, m.who, s)
  {
    forall x | x in s.held
      ensures exists j: nat :: j < |buf| && Holder(buf[j], m.who[j], x, s.held[x])
    {
      var j: nat :| j < |m.buf| && Holder(m.buf[j], m.who[j], x, s.held[x]);
      assert Holder(buf[j], m.who[j], x, s.held[x]);
    }
    forall x | x in s.pins
      ensures exists j: nat :: j < |buf| && buf[j].key.dev == DEV && buf[j].key.blockno == x
    {
      var j: nat :| j < |m.buf| && m.buf[j].key.dev == DEV && m.buf[j].key.blockno == x;
      assert buf[j].key.dev == DEV && buf[j].key.blockno == x;
    }
  }

  /** A buffer without references is not locked and not pinned, so that its block can leave it. */
  lemma RecycleSim(m: Machine, s: State, i: nat, b: nat)
    requires Sim(m, s) && DoRecycle(m, i, b).Some?
    ensures Sim(DoRecycle(m, i, b).value, s)
  {
    var n := DoRecycle(m, i, b).value;
    assert BufSim(m.buf[i], m.use[i], m.who[i], i in m.unlogged, s);
    assert forall k :: 0 <= k < |m.buf| && m.buf[k].key.dev == DEV ==> m.buf[k].key.blockno != b;
    forall j: nat | j < |n.buf| ensures BufSim(n.buf[j], n.use[j], n.who[j], j in n.unlogged, s) {
      if j != i { assert BufSim(m.buf[j], m.use[j], m.who[j], j in m.unlogged, s); }
    }
    KeysHeld(m, s, n.buf);
  }

  /** What a read from disk gives is what the protocol says the block holds. */
  lemma FreshRead(L: Layout, first: Disk, m: Machine, s: State, i: nat)
    requires Inv(L, first, s) && Sim(m, s) && i < |m.buf| && m.buf[i].key.dev == DEV && m.who[i] == None
    requires m.buf[i].key.blockno < |s.disk|
    ensures var x := m.buf[i].key.blockno;
            && x !in s.held && x !in s.unlogged
            && View(s, x) == if m.buf[i].valid then m.buf[i].data else m.disk[x]
  {
    NotHeld(m, s, i);
    assert BufSim(m.buf[i], m.use[i], m.who[i], i in m.unlogged, s);
  }

  lemma TakeSim(L: Layout, first: Disk, m: Machine, s: State, i: nat, p: nat)
    requires Inv(L, first, s) && Sim(m, s) && DoTake(L, m, i, p).Some?
    ensures p == |m.ops| ==> Sim(DoTake(L, m, i, p).value, s)
    ensures p < |m.ops| ==>
              var o := DoBread(L, s, p, m.buf[i].key.blockno);
              o.Next? && Sim(DoTake(L, m, i, p).value, o.s)
  {
    var n, x := DoTake(L, m, i, p).value, m.buf[i].key.blockno;
    assert BufSim(m.buf[i], m.use[i], m.who[i], i in m.unlogged, s);
    FreshRead(L, first, m, s, i);
    var s' := if p < |m.ops| then DoBread(L, s, p, x).s else s;
    OneSim(m, s, s', i, n.buf[i], n.use[i], n.who[i], m.unlogged);
  }

  lemma ChangeSim(L: Layout, first: Disk, m: Machine, s: State, i: nat, p: nat, v: Block)
    requires Inv(L, first, s) && Sim(m, s) && DoChange(m, i, p, v).Some?
    ensures var o := DoModify(s, p, m.buf[i].key.blockno, v); o.Next? && Sim(DoChange(m, i, p, v).value, o.s)
  {
    var n, x := DoChange(m, i, p, v).value, m.buf[i].key.blockno;
    assert BufSim(m.buf[i], m.use[i], m.who[i], i in m.unlogged, s);
    var s' := DoModify(s, p, x, v).s;
    OneSim(m, s, s', i, n.buf[i], n.use[i], m.who[i], n.unlogged);
    assert m.who[i := m.who[i]] == m.who;
  }

  lemma LogSim(L: Layout, first: Disk, m: Machine, s: State, i: nat, p: nat)
    requires Inv(L, first, s) && Sim(m, s) && DoLog(L, m, i, p).Some?
    ensures var o := DoLogWrite(L, s, p, m.buf[i].key.blockno); o.Next? && Sim(DoLog(L, m, i, p).value, o.s)
  {
    var n, x := DoLog(L, m, i, p).value, m.buf[i].key.blockno;
    LogEnabled(L, first, m, s, i, p);
    var s' := DoLogWrite(L, s, p, x).s;
    forall y | y != x ensures SameAt(s, s', y) { LogOthers(L, s, p, x, y); }
    LogBuf(L, m, s, i, p);
    OneSim(m, s, s', i, n.buf[i], n.use[i], m.who[i], n.unlogged);
    assert m.who[i := m.who[i]] == m.who && m.buf[i := m.buf[i]] == m.buf && m.use[i := m.use[i]] == m.use;
  }

  /** While an operation is under way the pinned blocks are those in the log. */
  lemma LogEnabled(L: Layout, first: Disk, m: Machine, s: State, i: nat, p: nat)
    requires Inv(L, first, s) && Sim(m, s) && DoLog(L, m, i, p).Some?
    ensures var x := m.buf[i].key.blockno;
            && x in s.held && s.held[x] == p && (x in s.lh <==> x in s.pins) && DoLogWrite(L, s, p, x).Next?
  {
    assert BufSim(m.buf[i], m.use[i], m.who[i], i in m.unlogged, s);
    NumActiveMember(s.ops, p);
    LogPinned(L, first, s, m.buf[i].key.blockno);
  }

  lemma LogPinned(L: Layout, first: Disk, s: State, x: int)
    requires Inv(L, first, s) && s.phase.Normal?
    ensures x in s.lh <==> x in s.pins
  {
    if x in s.lh {
      var k :| 0 <= k < |s.lh| && s.lh[k] == x;
    }
  }

  lemma LogOthers(L: Layout, s: State, p: nat, x: int, y: int)
    requires |s.store| == L.nblocks && DoLogWrite(L, s, p, x).Next? && y != x
    ensures SameAt(s, DoLogWrite(L, s, p, x).s, y)
  {
  }

  lemma LogBuf(L: Layout, m: Machine, s: State, i: nat, p: nat)
    requires Sim(m, s) && DoLog(L, m, i, p).Some? && |s.store| == L.nblocks
    requires var x := m.buf[i].key.blockno;
             && x in s.held && s.held[x] == p && (x in s.lh <==> x in s.pins) && DoLogWrite(L, s, p, x).Next?
    ensures var n, s' := DoLog(L, m, i, p).value, DoLogWrite(L, s, p, m.buf[i].key.blockno).s;
            Sized(n) && |n.buf| == |m.buf| && BufSim(n.buf[i], n.use[i], m.who[i], i in n.unlogged, s')
  {
    assert BufSim(m.buf[i], m.use[i], m.who[i], i in m.unlogged, s);
  }

  lemma GiveSim(L: Layout, first: Disk, m: Machine, s: State, i: nat, p: nat)
    requires Inv(L, first, s) && Sim(m, s) && DoGive(m, i, p).Some?
    ensures p >= |m.ops| ==> Sim(DoGive(m, i, p).value, s)
    ensures p < |m.ops| ==> var o := DoBrelse(s, p, m.buf[i].key.blockno); o.Next? && Sim(DoGive(m, i, p).value, o.s)
  {
    var n, x := DoGive(m, i, p).value, m.buf[i].key.blockno;
    assert BufSim(m.buf[i], m.use[i], m.who[i], i in m.unlogged, s);
    var s' := if p < |m.ops| then DoBrelse(s, p, x).s else s;
    OneSim(m, s, s', i, n.buf[i], n.use[i], None, m.unlogged);
  }

  // ---------------------------------------------------------------- steps of the log

  lemma BeginSim(m: Machine, s: State, p: nat)
    requires Sim(m, s) && DoBegin(m, p).Some?
    ensures DoBeginOp(s, p).Next? && Sim(DoBegin(m, p).value, DoBeginOp(s, p).s)
  {
    AllSim(m, s, DoBeginOp(s, p).s);
  }

  lemma UnloggedHeld(m: Machine, s: State, p: nat)
    requires Sim(m, s) && exists b :: b in s.unlogged && Holds(s, p, b)
    ensures exists i :: 0 <= i < |m.who| && i in m.unlogged && m.who[i] == Some(p)
  {
    var b :| b in s.unlogged && Holds(s, p, b);
    var i: nat :| i < |m.buf| && Holder(m.buf[i], m.who[i], b, s.held[b]);
    assert BufSim(m.buf[i], m.use[i], m.who[i], i in m.unlogged, s);
    assert i in m.unlogged && m.who[i] == Some(p);
  }

  lemma EndSim(m: Machine, s: State, p: nat)
    requires Sim(m, s) && DoEnd(m, p).Some?
    ensures DoEndOp(s, p).Next? && Sim(DoEnd(m, p).value, DoEndOp(s, p).s)
  {
    if exists b :: b in s.unlogged && Holds(s, p, b) { UnloggedHeld(m, s, p); }
    AllSim(m, s, DoEndOp(s, p).s);
  }

  /** bwrite() through a buffer that the log has locked. */
  lemma WrittenSim(m: Machine, s: State, i: nat, x: int, v: Block)
    requires Sim(m, s) && Has(m, i, |m.ops|, x) && 0 <= x < |m.disk|
    ensures x !in s.held
    ensures var n, s' := Written(m, i, x, v), Bwrite(s, x, v);
            && B.OneEach(n.buf) && BufsSim(n.buf, n.use, n.who, n.unlogged, s') && HeldSim(n.buf, n.who, s')
            && n.disk == s'.disk
  {
    assert BufSim(m.buf[i], m.use[i], m.who[i], i in m.unlogged, s);
    var n, s' := Written(m, i, x, v), Bwrite(s, x, v);
    OneSim(m, s, s', i, n.buf[i], n.use[i], m.who[i], m.unlogged);
    assert m.who[i := m.who[i]] == m.who;
  }

  lemma CopyOutSim(L: Layout, m: Machine, s: State, i: nat, j: nat)
    requires Shape(L, s) && Sim(m, s) && Ready(L, m) && DoCopyOut(L, m, i, j).Some?
    ensures DoCommit(L, s).Next? && Sim(DoCopyOut(L, m, i, j).value, DoCommit(L, s).s)
  {
    var t := m.phase.t;
    assert BufSim(m.buf[j], m.use[j], m.who[j], j in m.unlogged, s);
    WrittenSim(m, s, i, L.start + 1 + t, m.buf[j].data);
    var n, s' := Written(m, i, L.start + 1 + t, m.buf[j].data), Bwrite(s, L.start + 1 + t, m.buf[j].data);
    AllSim(n, s', DoCommit(L, s).s);
  }

  lemma WriteHeadSim(L: Layout, m: Machine, s: State, i: nat)
    requires Shape(L, s) && Sim(m, s) && Ready(L, m) && DoWriteHead(L, m, i).Some?
    ensures DoCommit(L, s).Next? && Sim(DoWriteHead(L, m, i).value, DoCommit(L, s).s)
  {
    assert BufSim(m.buf[i], m.use[i], m.who[i], i in m.unlogged, s);
    var v := WithHeader(m.buf[i].data, m.lh);
    WrittenSim(m, s, i, L.start, v);
    AllSim(Written(m, i, L.start, v), Bwrite(s, L.start, v), DoCommit(L, s).s);
  }

  lemma CopyHomeSim(L: Layout, m: Machine, s: State, i: nat, j: nat)
    requires Shape(L, s) && Sim(m, s) && Ready(L, m) && DoCopyHome(L, m, i, j).Some?
    ensures var o := if m.phase.recovering then DoRecovery(L, s) else DoCommit(L, s);
            o.Next? && Sim(DoCopyHome(L, m, i, j).value, o.s)
  {
    var v, x := m.buf[j].data, m.lh[m.phase.t];
    assert BufSim(m.buf[j], m.use[j], m.who[j], j in m.unlogged, s);
    WrittenSim(m, s, i, x, v);
    var n, s1 := Written(m, i, x, v), Bwrite(s, x, v);
    if m.phase.recovering {
      AllSim(n, s1, DoInstall(L, s));
    } else {
      UnpinSim(n, s1, i, x, s1.(pins := s.pins - {x}), DoCopyHome(L, m, i, j).value);
      AllSim(DoCopyHome(L, m, i, j).value, s1.(pins := s.pins - {x}), DoInstall(L, s));
    }
  }

  /** bunpin() */
  lemma UnpinSim(m: Machine, s: State, i: nat, x: int, s': State, n: Machine)
    requires Sized(m) && B.OneEach(m.buf) && BufsSim(m.buf, m.use, m.who, m.unlogged, s) && HeldSim(m.buf, m.who, s)
    requires Has(m, i, |s.ops|, x) && m.use[i].pins > 0
    requires s'.buf == s.buf && s'.held == s.held && s'.unlogged == s.unlogged && s'.pins == s.pins - {x}
    requires s'.disk == s.disk && s'.ops == s.ops && n.who == m.who && n.unlogged == m.unlogged
    requires n.buf == m.buf[i := m.buf[i].(refcnt := m.buf[i].refcnt - 1)]
    requires n.use == m.use[i := m.use[i].(pins := m.use[i].pins - 1)]
    ensures Sized(n) && B.OneEach(n.buf) && BufsSim(n.buf, n.use, n.who, n.unlogged, s') && HeldSim(n.buf, n.who, s')
  {
    assert BufSim(m.buf[i], m.use[i], m.who[i], i in m.unlogged, s);
    OneSim(m, s, s', i, n.buf[i], n.use[i], m.who[i], m.unlogged);
    assert m.who[i := m.who[i]] == m.who;
  }

  lemma ClearHeadSim(L: Layout, m: Machine, s: State, i: nat)
    requires Shape(L, s) && Sim(m, s) && Ready(L, m) && DoClearHead(L, m, i).Some?
    ensures var o := if m.phase.recovering then DoRecovery(L, s) else DoCommit(L, s);
            o.Next? && Sim(DoClearHead(L, m, i).value, o.s)
  {
    assert BufSim(m.buf[i], m.use[i], m.who[i], i in m.unlogged, s);
    var v := WithHeader(m.buf[i].data, []);
    WrittenSim(m, s, i, L.start, v);
    AllSim(Written(m, i, L.start, v), Bwrite(s, L.start, v), DoInstall(L, s));
  }

  lemma ReadHeadSim(L: Layout, m: Machine, s: State, i: nat)
    requires Shape(L, s) && Sim(m, s) && Ready(L, m) && DoReadHead(L, m, i).Some?
    ensures DoRecovery(L, s).Next? && Sim(DoReadHead(L, m, i).value, DoRecovery(L, s).s)
  {
    assert BufSim(m.buf[i], m.use[i], m.who[i], i in m.unlogged, s);
    AllSim(m, s, DoRecovery(L, s).s);
  }

  lemma EmptySim(n: nat, s: State)
    requires s.held == map[] && s.pins == {} && s.unlogged == {}
    ensures B.OneEach(Empty(n)) && HeldSim(Empty(n), seq(n, i => None), s)
    ensures BufsSim(Empty(n), seq(n, i => B.Use(0, 0, false, 0)), seq(n, i => None), {}, s)
  {
    var buf, use, who := Empty(n), seq(n, i => B.Use(0, 0, false, 0)), seq(n, i => None);
    forall j: nat | j < n ensures BufSim(buf[j], use[j], who[j], j in {}, s) {}
  }

  // ---------------------------------------------------------------- runs

  lemma OneStep(L: Layout, s: State, x: LogProtocol.Step)
    requires Shape(L, s)
    ensures Exec(L, s, [x]) == Do(L, s, x)
  {
    assert [x][1..] == [];
  }

  /** Step a of the machine is what Abs says in the protocol. */
  ghost predicate Simulated(L: Layout, m: Machine, s: State, a: Act)
    requires Ready(L, m) && Step(L, m, a).Some?
  {
    Exec(L, s, Abs(m, a)).Next? && Sim(Step(L, m, a).value, Exec(L, s, Abs(m, a)).s)
  }

  lemma ChangeStep(L: Layout, first: Disk, m: Machine, s: State, i: nat, p: nat, v: Block)
    requires Inv(L, first, s) && Sim(m, s) && Ready(L, m) && Step(L, m, Change(i, p, v)).Some?
    ensures Simulated(L, m, s, Change(i, p, v))
  {
    ChangeSim(L, first, m, s, i, p, v);
    OneStep(L, s, Modify(p, m.buf[i].key.blockno, v));
  }

  lemma LogStep(L: Layout, first: Disk, m: Machine, s: State, i: nat, p: nat)
    requires Inv(L, first, s) && Sim(m, s) && Ready(L, m) && Step(L, m, Log(i, p)).Some?
    ensures Simulated(L, m, s, Log(i, p))
  {
    LogSim(L, first, m, s, i, p);
    OneStep(L, s, LogWrite(p, m.buf[i].key.blockno));
  }

  lemma CopyOutStep(L: Layout, m: Machine, s: State, i: nat, j: nat)
    requires Shape(L, s) && Sim(m, s) && Ready(L, m) && Step(L, m, CopyOut(i, j)).Some?
    ensures Simulated(L, m, s, CopyOut(i, j))
  {
    CopyOutSim(L, m, s, i, j);
    OneStep(L, s, Commit);
  }

  lemma WriteHeadStep(L: Layout, m: Machine, s: State, i: nat)
    requires Shape(L, s) && Sim(m, s) && Ready(L, m) && Step(L, m, WriteHead(i)).Some?
    ensures Simulated(L, m, s, WriteHead(i))
  {
    WriteHeadSim(L, m, s, i);
    OneStep(L, s, Commit);
  }

  lemma CopyHomeStep(L: Layout, m: Machine, s: State, i: nat, j: nat)
    requires Shape(L, s) && Sim(m, s) && Ready(L, m) && Step(L, m, CopyHome(i, j)).Some?
    ensures Simulated(L, m, s, CopyHome(i, j))
  {
    CopyHomeSim(L, m, s, i, j);
    OneStep(L, s, if m.phase.recovering then Recovery else Commit);
  }

  lemma ClearHeadStep(L: Layout, m: Machine, s: State, i: nat)
    requires Shape(L, s) && Sim(m, s) && Ready(L, m) && Step(L, m, ClearHead(i)).Some?
    ensures Simulated(L, m, s, ClearHead(i))
  {
    ClearHeadSim(L, m, s, i);
    OneStep(L, s, if m.phase.recovering then Recovery else Commit);
  }

  lemma ReadHeadStep(L: Layout, m: Machine, s: State, i: nat)
    requires Shape(L, s) && Sim(m, s) && Ready(L, m) && Step(L, m, ReadHead(i)).Some?
    ensures Simulated(L, m, s, ReadHead(i))
  {
    ReadHeadSim(L, m, s, i);
    OneStep(L, s, Recovery);
  }

  lemma TakeStep(L: Layout, first: Disk, m: Machine, s: State, i: nat, p: nat)
    requires Inv(L, first, s) && Sim(m, s) && Ready(L, m) && Step(L, m, Take(i, p)).Some?
    ensures Simulated(L, m, s, Take(i, p))
  {
    TakeSim(L, first, m, s, i, p);
    OneStep(L, s, Bread(p, m.buf[i].key.blockno));
  }

  lemma GiveStep(L: Layout, first: Disk, m: Machine, s: State, i: nat, p: nat)
    requires Inv(L, first, s) && Sim(m, s) && Ready(L, m) && Step(L, m, Give(i, p)).Some?
    ensures Simulated(L, m, s, Give(i, p))
  {
    GiveSim(L, first, m, s, i, p);
    OneStep(L, s, Brelse(p, m.buf[i].key.blockno));
  }

  lemma BufferStepSim(L: Layout, first: Disk, m: Machine, s: State, a: Act)
    requires Inv(L, first, s) && Sim(m, s) && Ready(L, m) && Step(L, m, a).Some?
    requires a.Hit? || a.Recycle? || a.Take? || a.Change? || a.Log? || a.Give? || a.Unref?
    ensures Simulated(L, m, s, a)
  {
    match a
    case Hit(i, b) => HitSim(m, s, i, b);
    case Recycle(i, b) => RecycleSim(m, s, i, b);
    case Take(i, p) => TakeStep(L, first, m, s, i, p);
    case Change(i, p, v) => ChangeStep(L, first, m, s, i, p, v);
    case Log(i, p) => LogStep(L, first, m, s, i, p);
    case Give(i, p) => GiveStep(L, first, m, s, i, p);
    case Unref(i, stamp) => UnrefSim(m, s, i, stamp);
  }

  lemma WriteStepSim(L: Layout, first: Disk, m: Machine, s: State, a: Act)
    requires Inv(L, first, s) && Sim(m, s) && Ready(L, m) && Step(L, m, a).Some?
    requires a.CopyOut? || a.WriteHead? || a.CopyHome? || a.ClearHead? || a.ReadHead?
    ensures Simulated(L, m, s, a)
  {
    match a
    case CopyOut(i, j) => CopyOutStep(L, m, s, i, j);
    case WriteHead(i) => WriteHeadStep(L, m, s, i);
    case CopyHome(i, j) => CopyHomeStep(L, m, s, i, j);
    case ClearHead(i) => ClearHeadStep(L, m, s, i);
    case ReadHead(i) => ReadHeadStep(L, m, s, i);
  }

  lemma OtherStepSim(L: Layout, first: Disk, m: Machine, s: State, a: Act)
    requires Inv(L, first, s) && Sim(m, s) && Ready(L, m) && Step(L, m, a).Some?
    requires a.Begin? || a.End? || a.Finished? || a.Fail?
    ensures Simulated(L, m, s, a)
  {
    OneStep(L, s, Abs(m, a)[0]);
    match a
    case Begin(p) => BeginSim(m, s, p);
    case End(p) => EndSim(m, s, p);
    case Finished => AllSim(m, s, DoCommit(L, s).s);
    case Fail => EmptySim(|m.buf|, DoCrash(s));
  }

  /** Every step on buffers is the protocol step that Abs names, or none. */
  lemma StepSim(L: Layout, first: Disk, m: Machine, s: State, a: Act)
    requires Inv(L, first, s) && Sim(m, s) && Ready(L, m) && Step(L, m, a).Some?
    ensures Exec(L, s, Abs(m, a)).Next? && Sim(Step(L, m, a).value, Exec(L, s, Abs(m, a)).s)
  {
    if a.CopyOut? || a.WriteHead? || a.CopyHome? || a.ClearHead? || a.ReadHead? {
      WriteStepSim(L, first, m, s, a);
    } else if a.Begin? || a.End? || a.Finished? || a.Fail? {
      OtherStepSim(L, first, m, s, a);
    } else {
      BufferStepSim(L, first, m, s, a);
    }
  }

  function Run(L: Layout, m: Machine, acts: seq<Act>): Option<Machine>
    decreases |acts|
  {
    if acts == [] then Some(m)
    else if !Ready(L, m) then None
    else match Step(L, m, acts[0])
      case None => None
      case Some(n) => Run(L, n, acts[1..])
  }

  /** The protocol run that a run on buffers amounts to. */
  function AbsRun(L: Layout, m: Machine, acts: seq<Act>): seq<LogProtocol.Step>
    decreases |acts|
  {
    if acts == [] || !Ready(L, m) then []
    else match Step(L, m, acts[0])
      case None => []
      case Some(n) => Abs(m, acts[0]) + AbsRun(L, n, acts[1..])
  }

  lemma {:induction false} ExecCat(L: Layout, s: State, a: seq<LogProtocol.Step>, b: seq<LogProtocol.Step>)
    requires Exec(L, s, a).Next?
    ensures Exec(L, s, a + b) == Exec(L, Exec(L, s, a).s, b)
    decreases |a|
  {
    if a == [] {
      assert a + b == b;
    } else {
      assert (a + b)[1..] == a[1..] + b;
      ExecCat(L, Do(L, s, a[0]).s, a[1..], b);
    }
  }

  lemma {:induction false} RunSim(L: Layout, first: Disk, m: Machine, s: State, acts: seq<Act>)
    requires Inv(L, first, s) && Sim(m, s) && Run(L, m, acts).Some?
    ensures Exec(L, s, AbsRun(L, m, acts)).Next?
    ensures Inv(L, first, Exec(L, s, AbsRun(L, m, acts)).s)
    ensures Sim(Run(L, m, acts).value, Exec(L, s, AbsRun(L, m, acts)).s)
    decreases |acts|
  {
    if acts != [] {
      StepSim(L, first, m, s, acts[0]);
      ExecInv(L, first, s, Abs(m, acts[0]));
      var n, s' := Step(L, m, acts[0]).value, Exec(L, s, Abs(m, acts[0])).s;
      RunSim(L, first, n, s', acts[1..]);
      ExecCat(L, s, Abs(m, acts[0]), AbsRun(L, n, acts[1..]));
    }
  }

  /** REFINEMENT.  Every run on buffers is a run of the protocol, in which the disk, the log and the
      operations are the same and every buffer shows what the protocol says its block holds. */
  lemma Refines(L: Layout, d: Disk, nproc: nat, nbuf: nat, acts: seq<Act>)
    requires WellFormed(L, d) && Run(L, Start(d, nproc, nbuf), acts).Some?
    ensures var o := Exec(L, Boot(L, d, nproc), AbsRun(L, Start(d, nproc, nbuf), acts));
            o.Next? && Inv(L, Recover(L, d), o.s) && Sim(Run(L, Start(d, nproc, nbuf), acts).value, o.s)
  {
    BootInv(L, d, nproc);
    EmptySim(nbuf, Boot(L, d, nproc));
    RunSim(L, Recover(L, d), Start(d, nproc, nbuf), Boot(L, d, nproc), acts);
  }

  /** ONE BLOCK STORE.  Whatever buffers have been recycled, whoever has locked a buffer and not changed
      it since sees the value of the last log_write() to its block. */
  lemma ReadsThrough(L: Layout, d: Disk, nproc: nat, nbuf: nat, acts: seq<Act>, i: nat, p: nat, b: int)
    requires WellFormed(L, d) && Run(L, Start(d, nproc, nbuf), acts).Some?
    ensures var m := Run(L, Start(d, nproc, nbuf), acts).value;
            var o := Exec(L, Boot(L, d, nproc), AbsRun(L, Start(d, nproc, nbuf), acts));
            o.Next? && (Has(m, i, p, b) && L.Home(b) && Live(m.phase) && i !in m.unlogged ==>
                          m.buf[i].data == ApplyEvents(ApplyGroups(Recover(L, d), o.s.groups), o.s.current)[b])
  {
    Refines(L, d, nproc, nbuf, acts);
    var m, s := Run(L, Start(d, nproc, nbuf), acts).value,
                Exec(L, Boot(L, d, nproc), AbsRun(L, Start(d, nproc, nbuf), acts)).s;
    if Has(m, i, p, b) && L.Home(b) && Live(m.phase) && i !in m.unlogged {
      assert BufSim(m.buf[i], m.use[i], m.who[i], i in m.unlogged, s);
      StoreIsVisible(L, Recover(L, d), s, b);
    }
  }

  /** CRASH ATOMICITY through the cache: what recovery makes of the disk is the effect of the committed
      groups, whole operations only. */
  lemma CrashesAtomic(L: Layout, d: Disk, nproc: nat, nbuf: nat, acts: seq<Act>)
    requires WellFormed(L, d) && Run(L, Start(d, nproc, nbuf), acts).Some?
    ensures var m := Run(L, Start(d, nproc, nbuf), acts).value;
            var o := Exec(L, Boot(L, d, nproc), AbsRun(L, Start(d, nproc, nbuf), acts));
            && o.Next? && WellFormed(L, m.disk)
            && SameHome(L, Recover(L, m.disk), ApplyGroups(Recover(L, d), o.s.groups))
            && forall g :: 0 <= g < |o.s.groups| ==> Complete(o.s.groups[g])
  {
    Refines(L, d, nproc, nbuf, acts);
    CrashAtomicity(L, d, nproc, AbsRun(L, Start(d, nproc, nbuf), acts));
  }
}
