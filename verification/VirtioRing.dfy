/** kernel/virtio_disk.c and the device behind it as an interleaving step system.  Driver code
    holding vdisk_lock runs in the steps between which the device can observe memory; the device
    takes requests in ring order and may complete them in any order, each with a status of its own.
    The 16-bit ring indices wrap.  sleep() and wakeup() are those of kernel/proc.c.  `heads` is what
    the device has taken from the ring; `reqs`, `stage`, `dones`, `seen` and `use` are history. */
module VirtioRing {
  import opened Prelude

  const NUM: nat := 8
  const U16: nat := 0x1_0000

  /** What the address in a descriptor points to. */
  datatype Addr = Null | Header(op: nat) | Data(buf: nat) | Status(info: nat)

  /** flags: VRING_DESC_F_WRITE and VRING_DESC_F_NEXT. */
  datatype Desc = Desc(addr: Addr, write: bool, more: bool, next: nat)
  datatype Op = Op(write: bool, sector: nat)
  datatype Info = Info(b: Option<nat>, status: nat)

  /** A caller of virtio_disk_rw(), with a buffer of its own. */
  datatype Pc =
    | Idle
    | NeedDesc(op: Op)                       // in the alloc3_desc() loop
    | Formatted(op: Op, h: nat)              // chain filled in, lock held
    | Ringed(op: Op, h: nat)                 // avail ring entry written, lock held
    | Wait(op: Op, h: nat, id: nat)          // posted, in the b->disk loop

  datatype Who = Caller(t: nat) | Handler

  datatype Req = Req(t: nat, h: nat, op: Op)

  /** How far a request has come; q is its place among the completions. */
  datatype Stage = Posted | Taken | Done(q: nat) | Seen(q: nat) | Gone(q: nat)

  /** A completion: which request, the transfer the device carried out for it, and its status. */
  datatype Fin = Fin(id: nat, op: Op, buf: nat, status: nat)

  /** Who uses a descriptor, and as which part of the chain. */
  datatype Use = Unused | Part(t: nat, pos: nat)

  datatype State = State(
    free: seq<bool>, desc: seq<Desc>, ops: seq<Op>, info: seq<Info>,
    avail: seq<nat>, availIdx: nat, devIdx: nat,
    used: seq<nat>, usedIdx: nat, usedSeen: nat,
    busy: seq<bool>, pc: seq<Pc>, asleep: seq<bool>, lock: Option<Who>,
    reqs: seq<Req>, stage: seq<Stage>, heads: seq<nat>, dones: seq<Fin>, seen: nat, use: seq<Use>)

  datatype Step =
    | Begin(t: nat, op: Op) | Alloc(t: nat) | PutRing(t: nat) | Bump(t: nat) | Finish(t: nat)
    | IntrEnter | IntrNext | IntrExit
    | Take | Complete(id: nat, status: nat)
    | Kill(t: nat)

  datatype Outcome = Next(s: State) | Blocked | Panic

  // ---------------------------------------------------------------- descriptors

  /** alloc_desc(): the first free descriptor from i on. */
  function FirstFree(free: seq<bool>, i: nat): (r: Option<nat>)
    requires i <= |free|
    ensures r.Some? ==> i <= r.value < |free| && free[r.value] && forall j :: i <= j < r.value ==> !free[j]
    ensures r.None? ==> forall j :: i <= j < |free| ==> !free[j]
    decreases |free| - i
  {
    if i == |free| then None else if free[i] then Some(i) else FirstFree(free, i + 1)
  }

  /** alloc3_desc(): three descriptors, or none at all. */
  function Alloc3(free: seq<bool>): (r: Option<(nat, nat, nat)>)
    ensures r.Some? ==>
              r.value.0 < r.value.1 < r.value.2 < |free| && free[r.value.0] && free[r.value.1] && free[r.value.2]
  {
    match FirstFree(free, 0)
    case None => None
    case Some(i) =>
      match FirstFree(free[i := false], 0)
      case None => None
      case Some(j) =>
        match FirstFree(free[i := false][j := false], 0)
        case None => None
        case Some(k) => Some((i, j, k))
  }

  /** alloc3_desc() fails only when fewer than three descriptors are free. */
  lemma Alloc3Fails(free: seq<bool>, i: nat, j: nat, k: nat)
    requires i < j < k < |free| && free[i] && free[j] && free[k]
    ensures Alloc3(free).Some?
  {
    assert FirstFree(free, 0).Some?;
    var a := FirstFree(free, 0).value;
    var f := free[a := false];
    assert a <= i && f[j];
    assert FirstFree(f, 0).Some?;
    var b := FirstFree(f, 0).value;
    assert b <= j && f[b := false][k];
  }

  function Zero(): Desc { Desc(Null, false, false, 0) }

  function Busy(free: seq<bool>): nat {
    if free == [] then 0 else (if free[0] then 0 else 1) + Busy(free[1..])
  }

  lemma {:induction false} BusyFree(free: seq<bool>, i: nat)
    requires i < |free| && !free[i]
    ensures Busy(free[i := true]) == Busy(free) - 1
  {
    if i > 0 {
      BusyFree(free[1..], i - 1);
      assert free[i := true][1..] == free[1..][i - 1 := true];
    } else {
      assert free[i := true][1..] == free[1..];
    }
  }

  /** free_chain(): None stands for the panics of free_desc().  Freeing a descriptor that is
      already free panics, so even a cyclic chain is not followed for ever. */
  function FreeChain(free: seq<bool>, desc: seq<Desc>, i: nat): Option<(seq<bool>, seq<Desc>)>
    requires |free| == |desc|
    decreases Busy(free)
  {
    if i >= |free| || free[i] then None
    else
      BusyFree(free, i);
      if desc[i].more then FreeChain(free[i := true], desc[i := Zero()], desc[i].next)
      else Some((free[i := true], desc[i := Zero()]))
  }

  // ---------------------------------------------------------------- steps

  predicate Sized(s: State) {
    && |s.free| == |s.desc| == |s.ops| == |s.info| == |s.avail| == |s.used| == |s.use| == NUM
    && |s.busy| == |s.asleep| == |s.pc| && |s.stage| == |s.reqs|
  }

  function DoBegin(s: State, t: nat, op: Op): Outcome
    requires Sized(s)
  {
    if t < |s.pc| && s.pc[t].Idle? then Next(s.(pc := s.pc[t := NeedDesc(op)])) else Blocked
  }

  /** The descriptors of a request, as the driver fills them in. */
  function Format(desc: seq<Desc>, op: Op, t: nat, i: nat, j: nat, k: nat): (r: seq<Desc>)
    requires |desc| == NUM && i < NUM && j < NUM && k < NUM
    ensures |r| == NUM
  {
    var header := desc[i := Desc(Header(i), false, true, j)];
    header[j := Desc(Data(t), !op.write, true, k)][k := Desc(Status(i), true, false, 0)]
  }

  /** alloc3_desc() and the formatting of the chain; without three free descriptors the caller
      sleeps on free[0] and tries again when it is woken. */
  function DoAlloc(s: State, t: nat): Outcome
    requires Sized(s)
  {
    if !(t < |s.pc| && s.pc[t].NeedDesc? && !s.asleep[t] && s.lock == None) then Blocked
    else match Alloc3(s.free)
      case None => Next(s.(asleep := s.asleep[t := true]))
      case Some((i, j, k)) =>
        Next(s.(free := s.free[i := false][j := false][k := false],
                desc := Format(s.desc, s.pc[t].op, t, i, j, k), ops := s.ops[i := s.pc[t].op],
                info := s.info[i := Info(Some(t), 0xff)], busy := s.busy[t := true],
                pc := s.pc[t := Formatted(s.pc[t].op, i)], lock := Some(Caller(t)),
                use := s.use[i := Part(t, 0)][j := Part(t, 1)][k := Part(t, 2)]))
  }

  function DoPutRing(s: State, t: nat): Outcome
    requires Sized(s)
  {
    if !(t < |s.pc| && s.pc[t].Formatted?) then Blocked
    else Next(s.(avail := s.avail[s.availIdx % NUM := s.pc[t].h], pc := s.pc[t := Ringed(s.pc[t].op, s.pc[t].h)]))
  }

  /** avail->idx += 1, the notification, and sleep() in the b->disk loop. */
  function DoBump(s: State, t: nat): Outcome
    requires Sized(s)
  {
    if !(t < |s.pc| && s.pc[t].Ringed?) then Blocked
    else Next(s.(availIdx := (s.availIdx + 1) % U16, lock := None,
                 pc := s.pc[t := Wait(s.pc[t].op, s.pc[t].h, |s.reqs|)], asleep := s.asleep[t := true],
                 reqs := s.reqs + [Req(t, s.pc[t].h, s.pc[t].op)], stage := s.stage + [Posted]))
  }

  function FreedUse(use: seq<Use>, t: nat): (r: seq<Use>)
    ensures |r| == |use|
    ensures forall d :: 0 <= d < |use| ==> r[d] == if use[d].Part? && use[d].t == t then Unused else use[d]
  {
    seq(|use|, d requires 0 <= d < |use| => if use[d].Part? && use[d].t == t then Unused else use[d])
  }

  /** wakeup(&disk.free[0]) */
  function WakeDesc(asleep: seq<bool>, pc: seq<Pc>): (r: seq<bool>)
    requires |asleep| == |pc|
    ensures |r| == |pc| && forall t :: 0 <= t < |pc| ==> r[t] == (asleep[t] && !pc[t].NeedDesc?)
  {
    seq(|pc|, t requires 0 <= t < |pc| => asleep[t] && !pc[t].NeedDesc?)
  }

  /** Awake in the b->disk loop: sleep on, or, with b->disk 0, free the chain and return. */
  function DoFinish(s: State, t: nat): Outcome
    requires Sized(s)
  {
    if !(t < |s.pc| && s.pc[t].Wait? && s.lock == None && !s.asleep[t]) then Blocked
    else if s.busy[t] then Next(s.(asleep := s.asleep[t := true]))
    else if s.pc[t].h >= NUM || s.pc[t].id >= |s.stage| || !s.stage[s.pc[t].id].Seen? then Panic
    else match FreeChain(s.free, s.desc, s.pc[t].h)
      case None => Panic
      case Some((free, desc)) =>
        Next(s.(free := free, desc := desc, info := s.info[s.pc[t].h := s.info[s.pc[t].h].(b := None)],
                pc := s.pc[t := Idle], asleep := WakeDesc(s.asleep, s.pc),
                stage := s.stage[s.pc[t].id := Gone(s.stage[s.pc[t].id].q)], use := FreedUse(s.use, t)))
  }

  function DoIntrEnter(s: State): Outcome {
    if s.lock == None then Next(s.(lock := Some(Handler))) else Blocked
  }

  /** One turn of the loop of virtio_disk_intr(). */
  function DoIntrNext(s: State): Outcome
    requires Sized(s)
  {
    if !(s.lock == Some(Handler) && s.usedSeen != s.usedIdx) then Blocked
    else
      var h := s.used[s.usedSeen % NUM];
      if h >= NUM || s.info[h].status != 0 then Panic
      else if s.info[h].b == None || s.info[h].b.value >= |s.busy| || s.seen >= |s.dones| then Panic
      else if s.dones[s.seen].id >= |s.stage| then Panic
      else Next(s.(busy := s.busy[s.info[h].b.value := false], asleep := s.asleep[s.info[h].b.value := false],
                   usedSeen := (s.usedSeen + 1) % U16,
                   seen := s.seen + 1, stage := s.stage[s.dones[s.seen].id := Seen(s.seen)]))
  }

  function DoIntrExit(s: State): Outcome {
    if s.lock == Some(Handler) && s.usedSeen == s.usedIdx then Next(s.(lock := None)) else Blocked
  }

  /** The device takes the next ring entry. */
  function DoTake(s: State): Outcome
    requires Sized(s)
  {
    if s.devIdx == s.availIdx then Blocked
    else if |s.heads| >= |s.reqs| then Panic
    else Next(s.(devIdx := (s.devIdx + 1) % U16, heads := s.heads + [s.avail[s.devIdx % NUM]],
                 stage := s.stage[|s.heads| := Taken]))
  }

  /** The device follows the chain of a request it has taken, carries out the transfer the
      descriptors describe, writes the status and adds a used ring entry. */
  function DoComplete(s: State, id: nat, status: nat): Outcome
    requires Sized(s)
  {
    if !(id < |s.reqs| && id < |s.heads| && s.stage[id] == Taken) then Blocked
    else
      var h := s.heads[id];
      if h >= NUM || s.desc[h].next >= NUM || s.desc[s.desc[h].next].next >= NUM then Panic
      else
        var d0 := s.desc[h];
        var d1 := s.desc[d0.next];
        var d2 := s.desc[d1.next];
        if !(d0.addr.Header? && d0.addr.op < NUM && d1.addr.Data? && d2.addr.Status? && d2.addr.info < NUM) then Panic
        else if !(d0.more && d1.more && !d2.more && d2.write && d1.write != s.ops[d0.addr.op].write) then Panic
        else Next(s.(info := s.info[d2.addr.info := s.info[d2.addr.info].(status := status)],
                     used := s.used[s.usedIdx % NUM := h], usedIdx := (s.usedIdx + 1) % U16,
                     dones := s.dones + [Fin(id, s.ops[d0.addr.op], d1.addr.buf, status)],
                     stage := s.stage[id := Done(|s.dones|)]))
  }

  /** kill() makes a sleeping caller runnable. */
  function DoKill(s: State, t: nat): Outcome
    requires Sized(s)
  {
    if t < |s.pc| then Next(s.(asleep := s.asleep[t := false])) else Blocked
  }

  function Do(s: State, a: Step): Outcome
    requires Sized(s)
  {
    match a
    case Begin(t, op) => DoBegin(s, t, op)
    case Alloc(t) => DoAlloc(s, t)
    case PutRing(t) => DoPutRing(s, t)
    case Bump(t) => DoBump(s, t)
    case Finish(t) => DoFinish(s, t)
    case IntrEnter => DoIntrEnter(s)
    case IntrNext => DoIntrNext(s)
    case IntrExit => DoIntrExit(s)
    case Take => DoTake(s)
    case Complete(id, status) => DoComplete(s, id, status)
    case Kill(t) => DoKill(s, t)
  }

  /** After virtio_disk_init(). */
  function Boot(n: nat): State {
    State(seq(NUM, i => true), seq(NUM, i => Zero()), seq(NUM, i => Op(false, 0)), seq(NUM, i => Info(None, 0)),
          seq(NUM, i => 0), 0, 0, seq(NUM, i => 0), 0, 0,
          seq(n, i => false), seq(n, i => Idle), seq(n, i => false), None, [], [], [], [], 0, seq(NUM, i => Unused))
  }
}
