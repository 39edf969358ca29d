/** Log space: begin_op's reservation is sound for operations that keep to their budget,
    and the exact cases in which the size guard of log_write fires all the same. */
module LogSpace {
  import opened LogFormat
  import opened LogProtocol
  import opened LogProofs
  import opened LogTheorems

  /** Log slots the active operations may still fill. */
  function Unspent(ops: seq<Op>): int {
    if ops == [] then 0
    else Unspent(ops[1..]) + (if ops[0].Active? then MAXOPBLOCKS - |ops[0].touched| else 0)
  }

  /** Slots used plus slots promised fit in the log; an operation's own blocks are logged. */
  predicate Reserved(lh: seq<int>, ops: seq<Op>) {
    && |lh| + Unspent(ops) <= LOGSIZE
    && (forall p :: 0 <= p < |ops| && ops[p].Active? ==> |ops[p].touched| <= MAXOPBLOCKS)
    && (forall p, b :: 0 <= p < |ops| && ops[p].Active? && b in ops[p].touched ==> b in lh)
  }

  /** The client's side of the bargain: at most MAXOPBLOCKS distinct blocks per operation. */
  predicate InBudget(s: State, a: Step) {
    a.LogWrite? && InOp(s.ops, a.p) ==> |s.ops[a.p].touched + {a.b}| <= MAXOPBLOCKS
  }

  predicate AllInBudget(L: Layout, s: State, steps: seq<Step>)
    decreases |steps|
  {
    steps != [] && Shape(L, s) ==>
      InBudget(s, steps[0]) && (Do(L, s, steps[0]).Next? ==> AllInBudget(L, Do(L, s, steps[0]).s, steps[1..]))
  }

  lemma {:induction false} UnspentUpdate(ops: seq<Op>, p: nat, o: Op)
    requires p < |ops|
    ensures Unspent(ops[p := o]) == Unspent(ops) - Unspent([ops[p]]) + Unspent([o])
  {
    assert forall x: Op :: Unspent([x][1..]) == 0;
    if p > 0 {
      UnspentUpdate(ops[1..], p - 1, o);
      assert ops[p := o][1..] == ops[1..][p - 1 := o];
    } else {
      assert ops[p := o][1..] == ops[1..];
    }
  }

  lemma {:induction false} UnspentBounds(ops: seq<Op>)
    requires forall p :: 0 <= p < |ops| && ops[p].Active? ==> |ops[p].touched| <= MAXOPBLOCKS
    ensures 0 <= Unspent(ops) <= MAXOPBLOCKS * NumActive(ops)
  {
    if ops != [] { UnspentBounds(ops[1..]); }
  }

  lemma IdleReserved(lh: seq<int>, ops: seq<Op>)
    requires NumActive(ops) == 0 && |lh| <= LOGSIZE
    ensures Reserved(lh, ops)
  {
    forall p | 0 <= p < |ops| ensures ops[p].Idle? {
      if ops[p].Active? { NumActiveMember(ops, p); }
    }
    UnspentBounds(ops);
  }

  lemma BeginOpReserved(L: Layout, first: Disk, s: State, p: nat)
    requires Inv(L, first, s) && Reserved(s.lh, s.ops) && DoBeginOp(s, p).Next?
    ensures Reserved(s.lh, DoBeginOp(s, p).s.ops)
  {
    UnspentBounds(s.ops);
    UnspentUpdate(s.ops, p, Active({}));
  }

  lemma EndOpReserved(lh: seq<int>, ops: seq<Op>, p: nat)
    requires Reserved(lh, ops) && p < |ops| && ops[p].Active?
    ensures Reserved(lh, ops[p := Idle])
  {
    UnspentUpdate(ops, p, Idle);
  }

  lemma LogWriteReserved(lh: seq<int>, ops: seq<Op>, p: nat, b: int)
    requires Reserved(lh, ops) && InOp(ops, p) && |ops[p].touched + {b}| <= MAXOPBLOCKS
    ensures Reserved(if b in lh then lh else lh + [b], ops[p := Active(ops[p].touched + {b})])
  {
    UnspentUpdate(ops, p, Active(ops[p].touched + {b}));
    if b in ops[p].touched { assert ops[p].touched + {b} == ops[p].touched; }
  }

  lemma StepReserved(L: Layout, first: Disk, s: State, a: Step)
    requires Inv(L, first, s) && Reserved(s.lh, s.ops) && InBudget(s, a) && Do(L, s, a).Next?
    ensures Reserved(Do(L, s, a).s.lh, Do(L, s, a).s.ops)
  {
    match a
    case BeginOp(p) => BeginOpReserved(L, first, s, p);
    case EndOp(p) => EndOpReserved(s.lh, s.ops, p);
    case LogWrite(p, b) => LogWriteReserved(s.lh, s.ops, p, b);
    case Commit => if s.committing { IdleReserved([], s.ops); }
    case Recovery =>
      StepInv(L, first, s, a);
      IdleReserved(Do(L, s, a).s.lh, s.ops);
    case Crash =>
      NumActiveIdle(|s.ops|);
      IdleReserved([], DoCrash(s).ops);
    case _ =>
  }

  /** Log space is never over-promised in any run whose operations keep to their budget. */
  lemma {:induction false} LogSpaceReserved(L: Layout, first: Disk, s: State, steps: seq<Step>)
    requires Inv(L, first, s) && Reserved(s.lh, s.ops) && AllInBudget(L, s, steps)
    ensures Exec(L, s, steps).Next? ==> Reserved(Exec(L, s, steps).s.lh, Exec(L, s, steps).s.ops)
    decreases |steps|
  {
    if steps != [] && Do(L, s, steps[0]).Next? {
      StepInv(L, first, s, steps[0]);
      StepReserved(L, first, s, steps[0]);
      LogSpaceReserved(L, first, Do(L, s, steps[0]).s, steps[1..]);
    }
  }

  /** Exactly when an in-budget log_write still meets the guard of log.c line 220: the log
      region on disk is full, or the block is already in a log that holds LOGSIZE blocks
      (the guard is tested before absorption). */
  lemma GuardFires(L: Layout, first: Disk, s: State, p: nat, b: int)
    requires Inv(L, first, s) && Reserved(s.lh, s.ops) && InBudget(s, LogWrite(p, b))
    requires Live(s.phase) && InOp(s.ops, p) && Holds(s, p, b)
    ensures DoLogWrite(L, s, p, b).Panic? <==> |s.lh| >= L.size - 1 || (b in s.lh && |s.lh| == LOGSIZE)
  {
    NumActiveMember(s.ops, p);
    LogWriteReserved(s.lh, s.ops, p, b);
    UnspentBounds(s.ops[p := Active(s.ops[p].touched + {b})]);
  }

  lemma BootReserved(L: Layout, d: Disk, nproc: nat)
    requires WellFormed(L, d)
    ensures Reserved(Boot(L, d, nproc).lh, Boot(L, d, nproc).ops)
  {
    NumActiveIdle(nproc);
    IdleReserved(Boot(L, d, nproc).lh, Boot(L, d, nproc).ops);
  }

  /** RESERVATION IN EVERY RUN.  From the first boot on, through crashes and recoveries, as long as
      operations keep to their budget: log space is never promised twice, and a log_write that is
      in its budget, too, panics exactly in the two cases of GuardFires. */
  lemma SpaceInRuns(L: Layout, d: Disk, nproc: nat, steps: seq<Step>, p: nat, b: int)
    requires WellFormed(L, d) && AllInBudget(L, Boot(L, d, nproc), steps) && Exec(L, Boot(L, d, nproc), steps).Next?
    ensures var s := Exec(L, Boot(L, d, nproc), steps).s;
            && Shape(L, s) && Reserved(s.lh, s.ops)
            && (InBudget(s, LogWrite(p, b)) && Live(s.phase) && InOp(s.ops, p) && Holds(s, p, b) ==>
                  (DoLogWrite(L, s, p, b).Panic? <==> |s.lh| >= L.size - 1 || (b in s.lh && |s.lh| == LOGSIZE)))
  {
    var first, boot := Recover(L, d), Boot(L, d, nproc);
    BootInv(L, d, nproc);
    BootReserved(L, d, nproc);
    ExecInv(L, first, boot, steps);
    LogSpaceReserved(L, first, boot, steps);
    var s := Exec(L, boot, steps).s;
    if InBudget(s, LogWrite(p, b)) && Live(s.phase) && InOp(s.ops, p) && Holds(s, p, b) {
      GuardFires(L, first, s, p, b);
    }
  }

  // A run that meets the guard although every operation keeps to its budget.

  function FillSteps(base: nat, k: nat): seq<Step> {
    if k == 0 then [Recovery, Recovery, BeginOp(0), BeginOp(1), BeginOp(2)]
    else FillSteps(base, k - 1) + [Bread((k - 1) / 10, base + k - 1), LogWrite((k - 1) / 10, base + k - 1),
                                   Brelse((k - 1) / 10, base + k - 1)]
  }

  lemma {:induction false} AllInBudgetSnoc(L: Layout, s: State, steps: seq<Step>, a: Step)
    requires AllInBudget(L, s, steps)
    requires Exec(L, s, steps).Next? ==> Shape(L, Exec(L, s, steps).s) ==> InBudget(Exec(L, s, steps).s, a)
    ensures AllInBudget(L, s, steps + [a])
    decreases |steps|
  {
    if steps != [] {
      assert (steps + [a])[1..] == steps[1..] + [a];
      if Shape(L, s) && Do(L, s, steps[0]).Next? {
        AllInBudgetSnoc(L, Do(L, s, steps[0]).s, steps[1..], a);
      }
    }
  }

  /** Three operations are active and the first `k` of their thirty blocks are logged. */
  predicate Filled(s: State, base: nat, k: nat) {
    && s.phase.Normal? && !s.committing && s.outstanding == 3
    && s.held == map[] && s.unlogged == {}
    && |s.lh| == k && (forall b :: b in s.lh ==> base <= b < base + k)
    && |s.ops| >= 3
    && (forall q :: 0 <= q < 3 ==>
          && s.ops[q].Active?
          && |s.ops[q].touched| == (if k <= 10 * q then 0 else if k <= 10 * q + 10 then k - 10 * q else 10)
          && forall b :: b in s.ops[q].touched ==> b < base + k)
  }

  /** The steps lead from power-on to `s`, in budget all the way. */
  predicate RunsTo(L: Layout, d: Disk, nproc: nat, steps: seq<Step>, s: State)
    requires WellFormed(L, d)
  {
    Exec(L, Boot(L, d, nproc), steps) == Next(s) && Shape(L, s) && AllInBudget(L, Boot(L, d, nproc), steps)
  }

  lemma Extend(L: Layout, d: Disk, nproc: nat, steps: seq<Step>, s: State, a: Step, s': State)
    requires WellFormed(L, d) && RunsTo(L, d, nproc, steps, s)
    requires InBudget(s, a) && Do(L, s, a) == Next(s') && Shape(L, s')
    ensures RunsTo(L, d, nproc, steps + [a], s')
  {
    ExecSnoc(L, Boot(L, d, nproc), steps, a);
    AllInBudgetSnoc(L, Boot(L, d, nproc), steps, a);
  }

  /** An idle, recovered machine with an empty log. */
  predicate Fresh(s: State, ops: seq<Op>, n: int) {
    && s.phase.Normal? && !s.committing && s.outstanding == n && s.ops == ops
    && s.held == map[] && s.unlogged == {} && s.lh == []
  }

  lemma FillBoot(L: Layout, d: Disk, nproc: nat) returns (s: State)
    requires WellFormed(L, d) && Header(d[L.start]) == []
    ensures RunsTo(L, d, nproc, [Recovery, Recovery], s)
    ensures Fresh(s, seq(nproc, i => Idle), 0)
  {
    var s0 := Boot(L, d, nproc);
    var s1 := DoRecovery(L, s0).s;
    Extend(L, d, nproc, [], s0, Recovery, s1);
    assert [] + [Recovery] == [Recovery];
    s := DoInstall(L, s1);
    Extend(L, d, nproc, [Recovery], s1, Recovery, s);
    assert [Recovery] + [Recovery] == [Recovery, Recovery];
  }

  lemma FillBegin(L: Layout, d: Disk, nproc: nat, steps: seq<Step>, s: State, p: nat) returns (s': State)
    requires WellFormed(L, d) && RunsTo(L, d, nproc, steps, s) && p < 3 <= |s.ops|
    requires Fresh(s, s.ops, p) && s.ops[p].Idle?
    ensures RunsTo(L, d, nproc, steps + [BeginOp(p)], s')
    ensures Fresh(s', s.ops[p := Active({})], p + 1)
  {
    s' := DoBeginOp(s, p).s;
    Extend(L, d, nproc, steps, s, BeginOp(p), s');
  }

  lemma FillStart(L: Layout, d: Disk, nproc: nat, base: nat) returns (s: State)
    requires WellFormed(L, d) && Header(d[L.start]) == [] && nproc >= 3
    ensures RunsTo(L, d, nproc, FillSteps(base, 0), s) && Filled(s, base, 0)
  {
    var rr := [Recovery, Recovery];
    s := FillBoot(L, d, nproc);
    s := FillBegin(L, d, nproc, rr, s, 0);
    s := FillBegin(L, d, nproc, rr + [BeginOp(0)], s, 1);
    s := FillBegin(L, d, nproc, rr + [BeginOp(0)] + [BeginOp(1)], s, 2);
    assert rr + [BeginOp(0)] + [BeginOp(1)] + [BeginOp(2)] == FillSteps(base, 0);
  }

  lemma FillWrite(L: Layout, s: State, base: nat, k: nat, s1: State) returns (s2: State)
    requires Shape(L, s) && Filled(s, base, k) && k < 29 && L.size == LOGSIZE
    requires L.start + L.size <= base && base + 30 <= L.nblocks
    requires DoBread(L, s, k / 10, base + k) == Next(s1)
    ensures InBudget(s1, LogWrite(k / 10, base + k))
    ensures DoLogWrite(L, s1, k / 10, base + k) == Next(s2)
    ensures Shape(L, s2) && Holds(s2, k / 10, base + k)
    ensures Filled(s2.(held := map[]), base, k + 1) && s2.held.Keys == {base + k}
  {
    var p, b := k / 10, base + k;
    assert b !in s.ops[p].touched;
    assert |s.ops[p].touched + {b}| == |s.ops[p].touched| + 1;
    assert b !in s.lh;
    s2 := DoLogWrite(L, s1, p, b).s;
  }

  lemma FillOne(L: Layout, s: State, base: nat, k: nat) returns (s1: State, s2: State, s3: State)
    requires Shape(L, s) && Filled(s, base, k) && k < 29 && L.size == LOGSIZE
    requires L.start + L.size <= base && base + 30 <= L.nblocks
    ensures Shape(L, s1) && Shape(L, s2) && Shape(L, s3)
    ensures DoBread(L, s, k / 10, base + k) == Next(s1)
    ensures DoLogWrite(L, s1, k / 10, base + k) == Next(s2) && InBudget(s1, LogWrite(k / 10, base + k))
    ensures DoBrelse(s2, k / 10, base + k) == Next(s3)
    ensures Filled(s3, base, k + 1)
  {
    s1 := DoBread(L, s, k / 10, base + k).s;
    s2 := FillWrite(L, s, base, k, s1);
    s3 := DoBrelse(s2, k / 10, base + k).s;
    assert s3 == s2.(held := map[]);
  }

  lemma {:induction false} FillAll(L: Layout, d: Disk, nproc: nat, base: nat, k: nat) returns (s: State)
    requires WellFormed(L, d) && Header(d[L.start]) == [] && nproc >= 3 && L.size == LOGSIZE && k <= 29
    requires L.start + L.size <= base && base + 30 <= L.nblocks
    ensures RunsTo(L, d, nproc, FillSteps(base, k), s) && Filled(s, base, k)
  {
    if k == 0 {
      s := FillStart(L, d, nproc, base);
    } else {
      var s0 := FillAll(L, d, nproc, base, k - 1);
      var p, b := (k - 1) / 10, base + k - 1;
      var s1, s2, s3 := FillOne(L, s0, base, k - 1);
      FillMore(L, d, nproc, FillSteps(base, k - 1), s0, p, b, s1, s2, s3);
      s := s3;
    }
  }

  lemma FillMore(L: Layout, d: Disk, nproc: nat, steps: seq<Step>, s0: State, p: nat, b: int, s1: State, s2: State,
                 s3: State)
    requires WellFormed(L, d) && RunsTo(L, d, nproc, steps, s0) && Shape(L, s0) && Shape(L, s1) && Shape(L, s2)
    requires Do(L, s0, Bread(p, b)) == Next(s1) && Do(L, s1, LogWrite(p, b)) == Next(s2) &&
             Do(L, s2, Brelse(p, b)) == Next(s3)
    requires InBudget(s1, LogWrite(p, b))
    ensures RunsTo(L, d, nproc, steps + [Bread(p, b), LogWrite(p, b), Brelse(p, b)], s3)
  {
    Extend(L, d, nproc, steps, s0, Bread(p, b), s1);
    Extend(L, d, nproc, steps + [Bread(p, b)], s1, LogWrite(p, b), s2);
    Extend(L, d, nproc, steps + [Bread(p, b)] + [LogWrite(p, b)], s2, Brelse(p, b), s3);
    assert steps + [Bread(p, b)] + [LogWrite(p, b)] + [Brelse(p, b)]
        == steps + [Bread(p, b), LogWrite(p, b), Brelse(p, b)];
  }

  /** On every disk laid out by mkfs (nlog == LOGSIZE) three operations of ten distinct blocks each,
      which begin_op lets run together, end in the "too big a transaction" panic. */
  lemma GuardWitness(L: Layout, d: Disk, nproc: nat, base: nat)
    requires WellFormed(L, d) && Header(d[L.start]) == [] && nproc >= 3 && L.size == LOGSIZE
    requires L.start + L.size <= base && base + 30 <= L.nblocks
    ensures var steps := FillSteps(base, 29) + [Bread(2, base + 29)] + [LogWrite(2, base + 29)];
            && Exec(L, Boot(L, d, nproc), steps) == Panic("too big a transaction")
            && AllInBudget(L, Boot(L, d, nproc), steps)
  {
    var s := FillAll(L, d, nproc, base, 29);
    var steps := FillSteps(base, 29);
    var s1 := DoBread(L, s, 2, base + 29).s;
    Extend(L, d, nproc, steps, s, Bread(2, base + 29), s1);
    ExecSnoc(L, Boot(L, d, nproc), steps + [Bread(2, base + 29)], LogWrite(2, base + 29));
    AllInBudgetSnoc(L, Boot(L, d, nproc), steps + [Bread(2, base + 29)], LogWrite(2, base + 29));
  }
}
