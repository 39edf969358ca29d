/** What every interleaving of pipe operations guarantees. */
module PipeTheorems {
  import opened Prelude
  import opened PipeModel

  // ---------------------------------------------------------------- the ring

  /** The ring holds the bytes put in and not yet taken out, in order; the counters are the numbers
      of bytes modulo 2^32. */
  ghost predicate RingOk(data: seq<Byte>, nread: nat, nwrite: nat, ins: seq<Byte>, rem: seq<Byte>) {
    && |data| == PIPESIZE && |rem| <= |ins| <= |rem| + PIPESIZE
    && nwrite == |ins| % U32 && nread == |rem| % U32
    && (forall k :: 0 <= k < |rem| ==> rem[k] == ins[k])
    && (forall k: nat {:trigger ins[k]} :: |rem| <= k < |ins| ==> data[k % PIPESIZE] == ins[k])
  }

  lemma Wrap(n: nat)
    ensures n % U32 % PIPESIZE == n % PIPESIZE
    ensures (n % U32 + 1) % U32 == (n + 1) % U32
  {
    var q, r := n / U32, n % U32;
    assert n == q * U32 + r && U32 == 8388608 * PIPESIZE;
    assert n == (q * 8388608 + r / PIPESIZE) * PIPESIZE + r % PIPESIZE;
  }

  /** The tests of pipewrite() and piperead() mean what they say, also after the counters wrap. */
  lemma Tests(s: State)
    requires RingOk(s.data, s.nread, s.nwrite, s.ins, s.rem)
    ensures Full(s) <==> |s.ins| == |s.rem| + PIPESIZE
    ensures Empty(s) <==> |s.ins| == |s.rem|
  {
    Apart(|s.rem|, |s.ins|);
    Apart2(|s.rem|, |s.ins|);
  }

  lemma Apart(m: nat, n: nat)
    requires m <= n <= m + PIPESIZE
    ensures m % U32 == n % U32 <==> m == n
  {
    if m % U32 == n % U32 {
      assert m == m / U32 * U32 + m % U32 && n == n / U32 * U32 + n % U32;
      assert n - m == (n / U32 - m / U32) * U32;
    }
  }

  lemma Apart2(m: nat, n: nat)
    requires m <= n <= m + PIPESIZE
    ensures n % U32 == (m % U32 + PIPESIZE) % U32 <==> n == m + PIPESIZE
  {
    assert (m % U32 + PIPESIZE) % U32 == (m + PIPESIZE) % U32;
    if n % U32 == (m + PIPESIZE) % U32 {
      var k := m + PIPESIZE;
      assert n == n / U32 * U32 + n % U32 && k == k / U32 * U32 + k % U32;
      assert k - n == (k / U32 - n / U32) * U32;
    }
  }

  lemma OtherSlot(k: nat, n: nat)
    requires k < n < k + PIPESIZE
    ensures k % PIPESIZE != n % PIPESIZE
  {
  }

  lemma PutOk(s: State, b: Byte)
    requires RingOk(s.data, s.nread, s.nwrite, s.ins, s.rem) && !Full(s)
    ensures var n := Put(s, b); RingOk(n.data, n.nread, n.nwrite, n.ins, n.rem)
  {
    var n := Put(s, b);
    Tests(s);
    Wrap(|s.ins|);
    forall k: nat | |n.rem| <= k < |n.ins| ensures n.data[k % PIPESIZE] == n.ins[k] {
      if k < |s.ins| {
        OtherSlot(k, |s.ins|);
        assert s.data[k % PIPESIZE] == s.ins[k];
      }
    }
  }

  lemma TakeOk(s: State)
    requires RingOk(s.data, s.nread, s.nwrite, s.ins, s.rem) && !Empty(s)
    ensures var n := Take(s); RingOk(n.data, n.nread, n.nwrite, n.ins, n.rem)
  {
    Tests(s);
    Wrap(|s.rem|);
    assert s.data[|s.rem| % PIPESIZE] == s.ins[|s.rem|];
  }

  // ---------------------------------------------------------------- sleepers

  predicate Holding(p: Pc) { p.Writing? || p.Testing? || p.Copying? }

  /** Writers sleep only on a full ring with a reader, or while a reader is emptying it; readers
      sleep only on an empty ring with a writer, or while a writer is filling it, or after one has
      left early. */
  predicate ThreadOk(t: nat, p: Pc, lock: Option<nat>, pc: seq<Pc>, full: bool, empty: bool, readopen: bool,
                     writeopen: bool, late: set<nat>) {
    && (Holding(p) <==> lock == Some(t))
    && (p.WriteSleep? ==> (full && readopen) || (lock.Some? && lock.value < |pc| && pc[lock.value].Copying?))
    && (p.ReadSleep? ==>
          (empty && writeopen) || (lock.Some? && lock.value < |pc| && pc[lock.value].Writing? &&
                                   pc[lock.value].unsaid) || t in late)
    && (p.Writing? && p.unsaid ==> readopen && !empty)
    && (t in late ==> p.ReadSleep? && !empty) && (p.ReadSleep? ==> writeopen)
  }

  ghost predicate ThreadsOk(lock: Option<nat>, pc: seq<Pc>, full: bool, empty: bool, readopen: bool, writeopen: bool,
                            late: set<nat>) {
    && (lock.Some? ==> lock.value < |pc|)
    && forall t: nat {:trigger ThreadOk(t, pc[t], lock, pc, full, empty, readopen, writeopen, late)} :: t < |pc| ==>
         ThreadOk(t, pc[t], lock, pc, full, empty, readopen, writeopen, late)
  }

  ghost predicate Sleepers(s: State) {
    ThreadsOk(s.lock, s.pc, Full(s), Empty(s), s.readopen, s.writeopen, s.late)
  }

  ghost predicate Inv(s: State) {
    RingOk(s.data, s.nread, s.nwrite, s.ins, s.rem) && Sleepers(s)
  }

  lemma BootInv(n: nat)
    ensures Inv(Boot(n))
  {
    var s := Boot(n);
    forall t: nat | t < n
      ensures ThreadOk(t, s.pc[t], s.lock, s.pc, Full(s), Empty(s), s.readopen, s.writeopen, s.late) {}
  }

  lemma WriteTurnInv(s: State, t: nat, killed: bool, copied: bool)
    requires Inv(s) && DoWriteTurn(s, t, killed, copied).Some?
    ensures Inv(DoWriteTurn(s, t, killed, copied).value)
  {
    var n := DoWriteTurn(s, t, killed, copied).value;
    var p := s.pc[t];
    Tests(s);
    assert ThreadOk(t, s.pc[t], s.lock, s.pc, Full(s), Empty(s), s.readopen, s.writeopen, s.late);
    if p.i < |p.buf| && s.readopen && !killed && !Full(s) && copied { PutOk(s, p.buf[p.i]); }
    Tests(n);
    forall u: nat | u < |n.pc|
      ensures ThreadOk(u, n.pc[u], n.lock, n.pc, Full(n), Empty(n), n.readopen, n.writeopen, n.late) {
      assert ThreadOk(u, s.pc[u], s.lock, s.pc, Full(s), Empty(s), s.readopen, s.writeopen, s.late);
    }
  }

  lemma ReadTestInv(s: State, t: nat, killed: bool)
    requires Inv(s) && DoReadTest(s, t, killed).Some?
    ensures Inv(DoReadTest(s, t, killed).value)
  {
    var n := DoReadTest(s, t, killed).value;
    assert ThreadOk(t, s.pc[t], s.lock, s.pc, Full(s), Empty(s), s.readopen, s.writeopen, s.late);
    forall u: nat | u < |n.pc|
      ensures ThreadOk(u, n.pc[u], n.lock, n.pc, Full(n), Empty(n), n.readopen, n.writeopen, n.late) {
      assert ThreadOk(u, s.pc[u], s.lock, s.pc, Full(s), Empty(s), s.readopen, s.writeopen, s.late);
    }
  }

  lemma ReadTurnInv(s: State, t: nat, copied: bool)
    requires Inv(s) && DoReadTurn(s, t, copied).Some?
    ensures Inv(DoReadTurn(s, t, copied).value)
  {
    var n := DoReadTurn(s, t, copied).value;
    Tests(s);
    if s.pc[t].i < s.pc[t].n && !Empty(s) { TakeOk(s); }
    Tests(n);
    assert ThreadOk(t, s.pc[t], s.lock, s.pc, Full(s), Empty(s), s.readopen, s.writeopen, s.late);
    forall u: nat | u < |n.pc|
      ensures ThreadOk(u, n.pc[u], n.lock, n.pc, Full(n), Empty(n), n.readopen, n.writeopen, n.late) {
      assert ThreadOk(u, s.pc[u], s.lock, s.pc, Full(s), Empty(s), s.readopen, s.writeopen, s.late);
    }
  }

  lemma LockInv(s: State, a: Step)
    requires Inv(s) && (a.StartWrite? || a.StartRead? || a.Resume?) && Do(s, a).Some?
    ensures Inv(Do(s, a).value)
  {
    var n := Do(s, a).value;
    forall u: nat | u < |n.pc|
      ensures ThreadOk(u, n.pc[u], n.lock, n.pc, Full(n), Empty(n), n.readopen, n.writeopen, n.late) {
      assert ThreadOk(u, s.pc[u], s.lock, s.pc, Full(s), Empty(s), s.readopen, s.writeopen, s.late);
    }
  }

  lemma OtherInv(s: State, a: Step)
    requires Inv(s) && (a.KillWakes? || a.Close?) && Do(s, a).Some?
    ensures Inv(Do(s, a).value)
  {
    var n := Do(s, a).value;
    forall u: nat | u < |n.pc|
      ensures ThreadOk(u, n.pc[u], n.lock, n.pc, Full(n), Empty(n), n.readopen, n.writeopen, n.late) {
      assert ThreadOk(u, s.pc[u], s.lock, s.pc, Full(s), Empty(s), s.readopen, s.writeopen, s.late);
    }
  }

  lemma StepInv(s: State, a: Step)
    requires Inv(s) && Do(s, a).Some?
    ensures Inv(Do(s, a).value)
  {
    match a
    case WriteTurn(t, killed, copied) => WriteTurnInv(s, t, killed, copied);
    case ReadTest(t, killed) => ReadTestInv(s, t, killed);
    case ReadTurn(t, copied) => ReadTurnInv(s, t, copied);
    case KillWakes(_) => OtherInv(s, a);
    case Close(_) => OtherInv(s, a);
    case _ => LockInv(s, a);
  }

  // ---------------------------------------------------------------- runs

  ghost function Exec(s: State, steps: seq<Step>): Option<State>
    decreases |steps|
  {
    if steps == [] then Some(s)
    else if !Sized(s) then None
    else match Do(s, steps[0])
      case None => None
      case Some(s') => Exec(s', steps[1..])
  }

  lemma {:induction false} ExecInv(s: State, steps: seq<Step>)
    requires Inv(s)
    ensures Exec(s, steps).Some? ==> Inv(Exec(s, steps).value)
    decreases |steps|
  {
    if steps != [] && Do(s, steps[0]).Some? {
      StepInv(s, steps[0]);
      ExecInv(Do(s, steps[0]).value, steps[1..]);
    }
  }

  /** State s is reached by a run with n processes. */
  ghost predicate Reached(n: nat, steps: seq<Step>, s: State) {
    Exec(Boot(n), steps) == Some(s)
  }

  /** FIFO.  The bytes taken out are a prefix of the bytes put in, and the ring holds the rest, at
      most PIPESIZE of them, however often the 32-bit counters have wrapped. */
  lemma Prefix(n: nat, steps: seq<Step>, s: State)
    requires Reached(n, steps, s)
    ensures s.rem <= s.ins && |s.ins| - |s.rem| <= PIPESIZE
    ensures Sized(s) && forall k: nat {:trigger s.ins[k]} :: |s.rem| <= k < |s.ins| ==> s.data[k % PIPESIZE] == s.ins[k]
  {
    BootInv(n);
    ExecInv(Boot(n), steps);
  }

  /** A writer is asleep, with the lock free, only on a full ring whose read end is open. */
  lemma SleepingWriter(n: nat, steps: seq<Step>, s: State, t: nat)
    requires Reached(n, steps, s) && s.lock == None && t < |s.pc| && s.pc[t].WriteSleep?
    ensures |s.ins| - |s.rem| == PIPESIZE && s.readopen
  {
    BootInv(n);
    ExecInv(Boot(n), steps);
    Tests(s);
    assert ThreadOk(t, s.pc[t], s.lock, s.pc, Full(s), Empty(s), s.readopen, s.writeopen, s.late);
  }

  /** No writer is killed between two turns of its loop. */
  predicate NoKilledWriter(steps: seq<Step>) {
    forall i :: 0 <= i < |steps| && steps[i].WriteTurn? ==> !steps[i].killed
  }

  lemma {:induction false} NeverLate(s: State, steps: seq<Step>)
    requires Inv(s) && s.late == {} && NoKilledWriter(steps)
    ensures Exec(s, steps).Some? ==> Exec(s, steps).value.late == {}
    decreases |steps|
  {
    if steps != [] && Do(s, steps[0]).Some? {
      StepInv(s, steps[0]);
      if steps[0].WriteTurn? {
        var t := steps[0].t;
        assert ThreadOk(t, s.pc[t], s.lock, s.pc, Full(s), Empty(s), s.readopen, s.writeopen, s.late);
      }
      NeverLate(Do(s, steps[0]).value, steps[1..]);
    }
  }

  /** If no writer is killed inside pipewrite(), a reader is asleep, with the lock free, only on an
      empty ring whose write end is open. */
  lemma SleepingReader(n: nat, steps: seq<Step>, s: State, t: nat)
    requires Reached(n, steps, s) && s.lock == None && t < |s.pc| && s.pc[t].ReadSleep? && NoKilledWriter(steps)
    ensures s.ins == s.rem && s.writeopen
  {
    BootInv(n);
    ExecInv(Boot(n), steps);
    NeverLate(Boot(n), steps);
    Tests(s);
    assert ThreadOk(t, s.pc[t], s.lock, s.pc, Full(s), Empty(s), s.readopen, s.writeopen, s.late);
  }

  /** In any run, with the lock free, a reader is asleep on a ring with bytes in it, or without a
      writer, exactly if it has been asleep since a writer left between putting a byte in and
      announcing it. */
  lemma StrandedReader(n: nat, steps: seq<Step>, s: State, t: nat)
    requires Reached(n, steps, s) && s.lock == None && t < |s.pc| && s.pc[t].ReadSleep?
    ensures t in s.late <==> !(s.ins == s.rem && s.writeopen)
  {
    BootInv(n);
    ExecInv(Boot(n), steps);
    Tests(s);
    assert ThreadOk(t, s.pc[t], s.lock, s.pc, Full(s), Empty(s), s.readopen, s.writeopen, s.late);
  }

  /** A reader sleeps although there are bytes for it, or nobody who could send any. */
  predicate Stranded(s: State, r: nat)
    requires r < |s.pc|
  {
    s.lock == None && s.pc[r].ReadSleep? && !(s.ins == s.rem && s.writeopen)
  }

  /** Step a is a writer that finds itself killed in the middle of its buffer, after a byte that it
      has not announced yet. */
  predicate LeavesEarly(s: State, a: Step) {
    && a.WriteTurn? && a.killed && a.t < |s.pc| && s.pc[a.t].Writing?
    && s.pc[a.t].unsaid && s.pc[a.t].i < |s.pc[a.t].buf|
  }

  /** Exactly that step strands a reader that is not stranded already: it strands all that are asleep
      then, and no other step strands any. */
  lemma StrandsExactly(s: State, a: Step, r: nat)
    requires Inv(s) && r !in s.late && Do(s, a).Some? && r < |s.pc|
    ensures |Do(s, a).value.pc| == |s.pc|
    ensures Stranded(Do(s, a).value, r) <==> LeavesEarly(s, a) && s.pc[r].ReadSleep?
  {
    var n := Do(s, a).value;
    StepInv(s, a);
    Tests(n);
    assert ThreadOk(r, n.pc[r], n.lock, n.pc, Full(n), Empty(n), n.readopen, n.writeopen, n.late);
    LateExactly(s, a, r);
  }

  lemma LateExactly(s: State, a: Step, r: nat)
    requires Inv(s) && r !in s.late && Do(s, a).Some? && r < |s.pc|
    ensures |Do(s, a).value.pc| == |s.pc|
    ensures r in Do(s, a).value.late <==> LeavesEarly(s, a) && s.pc[r].ReadSleep?
    ensures LeavesEarly(s, a) ==> Do(s, a).value.lock == None
  {
    if a.WriteTurn? {
      assert ThreadOk(a.t, s.pc[a.t], s.lock, s.pc, Full(s), Empty(s), s.readopen, s.writeopen, s.late);
    }
  }

  /** Without that condition it is false: process 0 sleeps in piperead() while the ring holds the
      byte that process 1 put in before it was killed. */
  lemma StrandedReaderWitness(s: State)
    requires s == Boot(2).(pc := [ReadSleep(1), Idle], data := Boot(2).data[0 := 7], nwrite := 1, ins := [7],
                           late := {0})
    ensures Reached(2, [StartRead(0, 1), ReadTest(0, false), StartWrite(1, [7, 8]), WriteTurn(1, false, true),
                        WriteTurn(1, true, true)], s)
    ensures s.lock == None && s.pc[0].ReadSleep? && s.ins != s.rem
  {
    var b := Boot(2);
    assert b.pc == [Idle, Idle];
    var s1 := b.(pc := [Testing(1), Idle], lock := Some(0));
    var s2 := b.(pc := [ReadSleep(1), Idle]);
    var s3 := b.(pc := [ReadSleep(1), Writing([7, 8], 0, false)], lock := Some(1));
    var s4 := s3.(data := b.data[0 := 7], nwrite := 1, ins := [7], pc := [ReadSleep(1), Writing([7, 8], 1, true)]);
    assert Do(b, StartRead(0, 1)) == Some(s1) by { assert b.pc[0 := Testing(1)] == s1.pc; }
    assert Do(s1, ReadTest(0, false)) == Some(s2) by { assert s1.pc[0 := ReadSleep(1)] == s2.pc; }
    assert Do(s2, StartWrite(1, [7, 8])) == Some(s3) by { assert s2.pc[1 := Writing([7, 8], 0, false)] == s3.pc; }
    FirstByte(s3, s4);
    assert Sleeping(s4.pc) == {0} && {} + {0} == {0};
    assert Do(s4, WriteTurn(1, true, true)) == Some(s) by { assert s4.pc[1 := Idle] == s.pc; }
    FiveSteps(b, s1, s2, s3, s4, s, StartRead(0, 1), ReadTest(0, false), StartWrite(1, [7, 8]),
              WriteTurn(1, false, true), WriteTurn(1, true, true));
  }

  lemma FirstByte(s3: State, s4: State)
    requires s3 == Boot(2).(pc := [ReadSleep(1), Writing([7, 8], 0, false)], lock := Some(1))
    requires s4 == s3.(data := s3.data[0 := 7], nwrite := 1, ins := [7], pc := [ReadSleep(1), Writing([7, 8], 1, true)])
    ensures Do(s3, WriteTurn(1, false, true)) == Some(s4)
  {
    assert s3.pc[1 := Writing([7, 8], 1, true)] == s4.pc;
    assert [] + [7] == [7];
  }

  lemma FiveSteps(s0: State, s1: State, s2: State, s3: State, s4: State, s5: State, a: Step, b: Step, c: Step, d: Step,
                  e: Step)
    requires Sized(s0) && Sized(s1) && Sized(s2) && Sized(s3) && Sized(s4)
    requires Do(s0, a) == Some(s1) && Do(s1, b) == Some(s2) && Do(s2, c) == Some(s3) && Do(s3, d) == Some(s4) &&
             Do(s4, e) == Some(s5)
    ensures Exec(s0, [a, b, c, d, e]) == Some(s5)
  {
    FirstStep(s4, s5, e, [], s5);
    FirstStep(s3, s4, d, [e], s5);
    FirstStep(s2, s3, c, [d, e], s5);
    FirstStep(s1, s2, b, [c, d, e], s5);
    FirstStep(s0, s1, a, [b, c, d, e], s5);
    assert [e] + [] == [e] && [d] + [e] == [d, e] && [c] + [d, e] == [c, d, e];
    assert [b] + [c, d, e] == [b, c, d, e] && [a] + [b, c, d, e] == [a, b, c, d, e];
  }

  lemma FirstStep(s: State, s1: State, a: Step, rest: seq<Step>, n: State)
    requires Sized(s) && Do(s, a) == Some(s1) && Exec(s1, rest) == Some(n)
    ensures Exec(s, [a] + rest) == Some(n)
  {
    assert ([a] + rest)[1..] == rest;
  }
}
