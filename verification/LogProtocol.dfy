/** The buffer cache, the redo log and the disk as one interleaving step system.
    Every disk write is a step of its own, so a crash can fall between any two of them,
    also inside recovery.  `durable` and `store` are history: the home blocks as the
    committed groups leave them, and as every logged write so far leaves them. */
module LogProtocol {
  import opened LogFormat

  datatype Event = Began(op: nat) | Wrote(op: nat, b: int, v: Block) | Ended(op: nat)
  type Group = seq<Event>

  /** A process is outside any operation, or inside one that has logged `touched`. */
  datatype Op = Idle | Active(touched: set<int>)

  /** Which disk write comes next, if one is pending. */
  datatype Phase =
    | Normal
    | WriteLog(t: nat)                    // commit(): cache to log, then the header
    | Install(t: nat, recovering: bool)   // log to home, then the cleared header
    | Finish                              // commit() has returned; `committing` is still set
    | BootRead                            // after a crash: header not read yet

  datatype State = State(
    disk: Disk, buf: map<int, Block>, held: map<int, nat>, unlogged: set<int>, pins: set<int>,
    lh: seq<int>, outstanding: int, committing: bool, phase: Phase, ops: seq<Op>,
    durable: Disk, store: Disk, groups: seq<Group>, current: Group)

  datatype Step =
    | BeginOp(p: nat) | EndOp(p: nat)
    | Bread(p: nat, b: int) | Modify(p: nat, b: int, v: Block) | LogWrite(p: nat, b: int) | Brelse(p: nat, b: int)
    | Evict(b: int)
    | Commit | Recovery | Crash

  datatype Outcome = Next(s: State) | Blocked | Panic(why: string)

  // ---------------------------------------------------------------- steps

  /** What bread(b) returns: the cached copy if there is one, else the disk block. */
  function View(s: State, b: int): Block
    requires 0 <= b < |s.disk|
  {
    if b in s.buf then s.buf[b] else s.disk[b]
  }

  predicate Live(ph: Phase) {
    !ph.BootRead? && !(ph.Install? && ph.recovering)
  }

  predicate InOp(ops: seq<Op>, p: nat) {
    p < |ops| && ops[p].Active?
  }

  predicate Holds(s: State, p: nat, b: int) {
    b in s.held && s.held[b] == p
  }

  function DoBeginOp(s: State, p: nat): Outcome {
    if !Live(s.phase) || p >= |s.ops| || s.ops[p].Active? then Blocked
    else if s.committing then Blocked
    else if |s.lh| + (s.outstanding + 1) * MAXOPBLOCKS > LOGSIZE then Blocked
    else Next(s.(outstanding := s.outstanding + 1,
                 ops := s.ops[p := Active({})], current := s.current + [Began(p)]))
  }

  /** end_op() up to the release of log.lock; the last one out starts the commit. */
  function DoEndOp(s: State, p: nat): Outcome {
    if !Live(s.phase) || !InOp(s.ops, p) || (exists b :: b in s.unlogged && Holds(s, p, b)) then Blocked
    else
      var s' := s.(outstanding := s.outstanding - 1, ops := s.ops[p := Idle], current := s.current + [Ended(p)]);
      if s.committing then Panic("log.committing")
      else if s'.outstanding != 0 then Next(s')
      else Next(s'.(committing := true, phase := if |s.lh| > 0 then WriteLog(0) else Finish))
  }

  function DoBread(L: Layout, s: State, p: nat, b: int): Outcome
    requires |s.disk| == L.nblocks
  {
    if !Live(s.phase) || !L.Home(b) || b in s.held then Blocked
    else Next(s.(buf := s.buf[b := View(s, b)], held := s.held[b := p]))
  }

  function DoModify(s: State, p: nat, b: int, v: Block): Outcome {
    if !Live(s.phase) || !InOp(s.ops, p) || !Holds(s, p, b) then Blocked
    else Next(s.(buf := s.buf[b := v], unlogged := s.unlogged + {b}))
  }

  function DoLogWrite(L: Layout, s: State, p: nat, b: int): Outcome
    requires |s.store| == L.nblocks
  {
    if !Live(s.phase) || !InOp(s.ops, p) || !Holds(s, p, b) || !L.Home(b) || b !in s.buf then Blocked
    else if |s.lh| >= LOGSIZE || |s.lh| >= L.size - 1 then Panic("too big a transaction")
    else if s.outstanding < 1 then Panic("log_write outside of trans")
    else Next(s.(lh := if b in s.lh then s.lh else s.lh + [b], pins := s.pins + {b}, unlogged := s.unlogged - {b},
                 ops := s.ops[p := Active(s.ops[p].touched + {b})],
                 store := s.store[b := s.buf[b]], current := s.current + [Wrote(p, b, s.buf[b])]))
  }

  /** The client rule: a modified buffer is logged before it is released. */
  function DoBrelse(s: State, p: nat, b: int): Outcome {
    if !Holds(s, p, b) || b in s.unlogged then Blocked
    else Next(s.(held := s.held - {b}))
  }

  function DoEvict(s: State, b: int): Outcome {
    if b in s.held || b in s.pins then Blocked
    else Next(s.(buf := s.buf - {b}))
  }

  /** Write block `b` with content `v` through its buffer. */
  function Bwrite(s: State, b: int, v: Block): State
    requires 0 <= b < |s.disk|
  {
    s.(disk := s.disk[b := v], buf := s.buf[b := v])
  }

  /** One round of install_trans, or the clearing header write that follows the last one. */
  function DoInstall(L: Layout, s: State): State
    requires L.Valid() && |s.disk| == L.nblocks && LoggableList(L, s.lh) && s.phase.Install?
  {
    var t := s.phase.t;
    if t < |s.lh| then
      Bwrite(s, s.lh[t], View(s, L.start + 1 + t)).
        (phase := Install(t + 1, s.phase.recovering),
         pins := if s.phase.recovering then s.pins else s.pins - {s.lh[t]})
    else
      Bwrite(s, L.start, WithHeader(View(s, L.start), [])).
        (phase := if s.phase.recovering then Normal else Finish, lh := [])
  }

  /** One disk write of commit(), or the final clearing of `committing`. */
  function DoCommit(L: Layout, s: State): Outcome
    requires L.Valid() && |s.disk| == L.nblocks && LoggableList(L, s.lh)
  {
    match s.phase
    case WriteLog(t) =>
      if t < |s.lh| then
        if s.lh[t] in s.held then Blocked
        else Next(Bwrite(s, L.start + 1 + t, View(s, s.lh[t])).(phase := WriteLog(t + 1)))
      else Next(Bwrite(s, L.start, WithHeader(View(s, L.start), s.lh)).
                (phase := Install(0, false), durable := s.store, groups := s.groups + [s.current], current := []))
    case Install(t, recovering) =>
      if recovering || (t < |s.lh| && s.lh[t] in s.held) then Blocked else Next(DoInstall(L, s))
    case Finish => Next(s.(phase := Normal, committing := false))
    case _ => Blocked
  }

  /** One disk access of recover_from_log(). */
  function DoRecovery(L: Layout, s: State): Outcome
    requires L.Valid() && |s.disk| == L.nblocks && LoggableList(L, s.lh)
  {
    match s.phase
    case BootRead =>
      Next(s.(lh := Header(View(s, L.start)), phase := Install(0, true),
              buf := s.buf[L.start := View(s, L.start)]))
    case Install(t, recovering) => if recovering then Next(DoInstall(L, s)) else Blocked
    case _ => Blocked
  }

  /** Power failure: only the disk survives. */
  function DoCrash(s: State): State {
    s.(buf := map[], held := map[], unlogged := {}, pins := {}, lh := [], outstanding := 0, committing := false,
       phase := BootRead, ops := seq(|s.ops|, i => Idle), store := s.durable, current := [])
  }

  function Do(L: Layout, s: State, a: Step): Outcome
    requires Shape(L, s)
  {
    match a
    case BeginOp(p) => DoBeginOp(s, p)
    case EndOp(p) => DoEndOp(s, p)
    case Bread(p, b) => DoBread(L, s, p, b)
    case Modify(p, b, v) => DoModify(s, p, b, v)
    case LogWrite(p, b) => DoLogWrite(L, s, p, b)
    case Brelse(p, b) => DoBrelse(s, p, b)
    case Evict(b) => DoEvict(s, b)
    case Commit => DoCommit(L, s)
    case Recovery => DoRecovery(L, s)
    case Crash => Next(DoCrash(s))
  }

  /** The machine as it is switched on, with `nproc` processes and an arbitrary well-formed disk. */
  function Boot(L: Layout, d: Disk, nproc: nat): State
    requires WellFormed(L, d)
  {
    State(d, map[], map[], {}, {}, [], 0, false, BootRead, seq(nproc, i => Idle),
          Recover(L, d), Recover(L, d), [], [])
  }

  // ---------------------------------------------------------------- the atomic block store

  function ApplyEvent(d: Disk, e: Event): (r: Disk)
    ensures |r| == |d|
  {
    if e.Wrote? && 0 <= e.b < |d| then d[e.b := e.v] else d
  }

  function ApplyEvents(d: Disk, g: Group): (r: Disk)
    ensures |r| == |d|
  {
    if g == [] then d else ApplyEvent(ApplyEvents(d, g[..|g| - 1]), g[|g| - 1])
  }

  function ApplyGroups(d: Disk, gs: seq<Group>): (r: Disk)
    ensures |r| == |d|
  {
    if gs == [] then d else ApplyEvents(ApplyGroups(d, gs[..|gs| - 1]), gs[|gs| - 1])
  }

  function OpenAfter(o: set<nat>, e: Event): set<nat> {
    match e
    case Began(p) => o + {p}
    case Wrote(p, b, v) => o
    case Ended(p) => o - {p}
  }

  /** The operations begun and not ended in a sequence of events. */
  function Open(g: Group): set<nat> {
    if g == [] then {} else OpenAfter(Open(g[..|g| - 1]), g[|g| - 1])
  }

  /** Begins and ends alternate for each process and every write lies between the two. */
  predicate Bracketed(g: Group) {
    g == [] ||
    (&& Bracketed(g[..|g| - 1])
     && (g[|g| - 1].op in Open(g[..|g| - 1]) <==> !g[|g| - 1].Began?))
  }

  /** A group made of whole operations only. */
  predicate Complete(g: Group) {
    Bracketed(g) && Open(g) == {}
  }

  lemma ApplyEventsSnoc(d: Disk, g: Group, e: Event)
    ensures ApplyEvents(d, g + [e]) == ApplyEvent(ApplyEvents(d, g), e)
  {
    assert (g + [e])[..|g|] == g;
  }

  lemma OpenSnoc(g: Group, e: Event)
    ensures Open(g + [e]) == OpenAfter(Open(g), e)
    ensures Bracketed(g + [e]) <==> Bracketed(g) && (e.op in Open(g) <==> !e.Began?)
  {
    assert (g + [e])[..|g|] == g;
  }

  // ---------------------------------------------------------------- the invariant

  predicate Shape(L: Layout, s: State) {
    && L.Valid()
    && |s.disk| == |s.durable| == |s.store| == L.nblocks
    && LoggableList(L, s.lh)
  }

  function NumActive(ops: seq<Op>): nat {
    if ops == [] then 0 else NumActive(ops[1..]) + (if ops[0].Active? then 1 else 0)
  }

  /** Counters, the commit flag and the operations agree with each other. */
  predicate Counts(outstanding: int, committing: bool, ph: Phase, ops: seq<Op>) {
    && outstanding == NumActive(ops)
    && (committing <==> ph.WriteLog? || (ph.Install? && !ph.recovering) || ph.Finish?)
    && (committing || !Live(ph) ==> outstanding == 0)
  }

  /** Buffer locks: only home blocks are locked by clients, and only operations change them. */
  predicate LocksOk(L: Layout, held: map<int, nat>, unlogged: set<int>, buf: map<int, Block>, ops: seq<Op>, ph: Phase) {
    && (forall b :: b in unlogged ==> b in held && InOp(ops, held[b]))
    && (forall b :: b in held ==> L.Home(b) && b in buf)
    && (!Live(ph) ==> held == map[])
  }

  /** Buffers that nobody pins or is changing hold what the disk holds. */
  predicate CacheAgrees(buf: map<int, Block>, pins: set<int>, unlogged: set<int>, disk: Disk, store: Disk) {
    && (forall b :: b in buf ==> 0 <= b < |disk|)
    && (forall b :: b in buf && b !in pins && b !in unlogged ==> buf[b] == disk[b])
    && (forall b :: b in pins ==> 0 <= b < |store| && b in buf && (b !in unlogged ==> buf[b] == store[b]))
  }

  /** Exactly the logged blocks that are not installed yet are pinned. */
  predicate PinsOk(pins: set<int>, lh: seq<int>, ph: Phase) {
    && (forall b :: b in pins ==> b in lh)
    && (forall i :: 0 <= i < |lh| ==> (lh[i] in pins <==> Live(ph) && (ph.Install? ==> ph.t <= i)))
  }

  /** What the next disk write relies on: how `store` and `durable` differ ... */
  predicate StoreOk(ph: Phase, lh: seq<int>, store: Disk, durable: Disk, current: Group) {
    && |store| == |durable|
    && (ph.Normal? || ph.WriteLog? ==> forall b :: 0 <= b < |store| && b !in lh ==> store[b] == durable[b])
    && (ph.Install? || ph.Finish? || ph.BootRead? ==> store == durable)
    && (ph.Install? || ph.BootRead? ==> current == [])
    && (ph.Finish? ==> lh == [])
  }

  /** ... and how far the log blocks and the home blocks on disk have come. */
  predicate ProgressOk(L: Layout, ph: Phase, lh: seq<int>, disk: Disk, store: Disk)
    requires L.Valid() && |disk| == |store| == L.nblocks && LoggableList(L, lh)
  {
    && (!ph.BootRead? ==> Header(disk[L.start]) == if ph.Install? then lh else [])
    && (ph.WriteLog? ==> ph.t <= |lh| && forall i :: 0 <= i < ph.t ==> disk[L.start + 1 + i] == store[lh[i]])
    && (ph.Install? ==> ph.t <= |lh| && forall i :: 0 <= i < ph.t ==> disk[lh[i]] == store[lh[i]])
  }

  /** The history fields are what the committed groups and the open one amount to. */
  ghost predicate HistoryOk(first: Disk, durable: Disk, store: Disk, groups: seq<Group>, current: Group, ops: seq<Op>) {
    && durable == ApplyGroups(first, groups)
    && store == ApplyEvents(durable, current)
    && (forall i :: 0 <= i < |groups| ==> Complete(groups[i]))
    && Bracketed(current)
    && (forall p: nat :: p in Open(current) <==> InOp(ops, p))
  }

  ghost predicate Inv(L: Layout, first: Disk, s: State) {
    && Shape(L, s)
    && Recoverable(L, s.disk, s.durable)
    && Counts(s.outstanding, s.committing, s.phase, s.ops)
    && LocksOk(L, s.held, s.unlogged, s.buf, s.ops, s.phase)
    && CacheAgrees(s.buf, s.pins, s.unlogged, s.disk, s.store)
    && PinsOk(s.pins, s.lh, s.phase) && Distinct(s.lh)
    && StoreOk(s.phase, s.lh, s.store, s.durable, s.current)
    && ProgressOk(L, s.phase, s.lh, s.disk, s.store)
    && HistoryOk(first, s.durable, s.store, s.groups, s.current, s.ops)
  }
}
