/** kernel/pipe.c as an interleaving step system.  While a process holds pi->lock every turn of its
    loop is a step of its own, so that it can be killed at any of them; sleep() and wakeup() are
    those of kernel/proc.c.  `ins` and `rem` are all bytes ever put into and taken out of the ring,
    `late` are the readers that were asleep when a writer left without the wakeup that follows its
    last byte; it is emptied by the next wakeup, or when the ring is. */
module PipeModel {
  import opened Prelude

  const PIPESIZE: nat := 512
  const U32: nat := 0x1_0000_0000

  datatype Pc =
    | Idle
    | Writing(buf: seq<Byte>, i: nat, unsaid: bool)   // holds the lock; bytes put in since the last wakeup?
    | WriteSleep(buf: seq<Byte>, i: nat)
    | WriteWoken(buf: seq<Byte>, i: nat)
    | Testing(n: nat)                                 // piperead(): holds the lock, at the empty test
    | ReadSleep(n: nat)
    | ReadWoken(n: nat)
    | Copying(n: nat, i: nat)                         // holds the lock, in the copy loop

  datatype State = State(
    data: seq<Byte>, nread: nat, nwrite: nat, readopen: bool, writeopen: bool,
    lock: Option<nat>, pc: seq<Pc>,
    ins: seq<Byte>, rem: seq<Byte>, late: set<nat>)

  datatype Step =
    | StartWrite(t: nat, buf: seq<Byte>) | WriteTurn(t: nat, killed: bool, copied: bool)
    | StartRead(t: nat, n: nat) | ReadTest(t: nat, killed: bool) | ReadTurn(t: nat, copied: bool)
    | Resume(t: nat) | KillWakes(t: nat) | Close(writable: bool)

  predicate Sized(s: State) { |s.data| == PIPESIZE }

  predicate Full(s: State) { s.nwrite == (s.nread + PIPESIZE) % U32 }
  predicate Empty(s: State) { s.nread == s.nwrite }

  function WakeReader(p: Pc): Pc { if p.ReadSleep? then ReadWoken(p.n) else p }
  function WakeWriter(p: Pc): Pc { if p.WriteSleep? then WriteWoken(p.buf, p.i) else p }

  /** The readers asleep in piperead(). */
  function Sleeping(pc: seq<Pc>): set<nat> { set t: nat | t < |pc| && pc[t].ReadSleep? }

  /** wakeup(&pi->nread) */
  function WakeReaders(pc: seq<Pc>): (r: seq<Pc>)
    ensures |r| == |pc| && forall t :: 0 <= t < |pc| ==> r[t] == WakeReader(pc[t])
  {
    if pc == [] then [] else WakeReaders(pc[..|pc| - 1]) + [WakeReader(pc[|pc| - 1])]
  }

  /** wakeup(&pi->nwrite) */
  function WakeWriters(pc: seq<Pc>): (r: seq<Pc>)
    ensures |r| == |pc| && forall t :: 0 <= t < |pc| ==> r[t] == WakeWriter(pc[t])
  {
    if pc == [] then [] else WakeWriters(pc[..|pc| - 1]) + [WakeWriter(pc[|pc| - 1])]
  }

  function Put(s: State, b: Byte): State
    requires Sized(s)
  {
    s.(data := s.data[s.nwrite % PIPESIZE := b], nwrite := (s.nwrite + 1) % U32, ins := s.ins + [b])
  }

  function Take(s: State): State
    requires Sized(s)
  {
    s.(nread := (s.nread + 1) % U32, rem := s.rem + [s.data[s.nread % PIPESIZE]],
       late := if (s.nread + 1) % U32 == s.nwrite then {} else s.late)
  }

  /** wakeup(&pi->nread); release; the process goes to `to`. */
  function Announce(s: State, t: nat, to: Pc): State
    requires t < |s.pc|
  {
    s.(pc := WakeReaders(s.pc)[t := to], lock := None, late := {})
  }

  function DoStartWrite(s: State, t: nat, buf: seq<Byte>): Option<State> {
    if t < |s.pc| && s.pc[t].Idle? && s.lock == None
    then Some(s.(pc := s.pc[t := Writing(buf, 0, false)], lock := Some(t)))
    else None
  }

  /** One turn of the loop of pipewrite(), or what follows the loop. */
  function DoWriteTurn(s: State, t: nat, killed: bool, copied: bool): Option<State>
    requires Sized(s)
  {
    if !(t < |s.pc| && s.pc[t].Writing?) then None
    else
      var p := s.pc[t];
      if p.i >= |p.buf| then Some(Announce(s, t, Idle))
      else if !s.readopen || killed then Some(s.(pc := s.pc[t := Idle], lock := None,
                                                 late := if p.unsaid then s.late + Sleeping(s.pc) else s.late))
      else if Full(s) then Some(Announce(s, t, WriteSleep(p.buf, p.i)))
      else if !copied then Some(Announce(s, t, Idle))
      else Some(Put(s, p.buf[p.i]).(pc := s.pc[t := Writing(p.buf, p.i + 1, true)]))
  }

  function DoStartRead(s: State, t: nat, n: nat): Option<State> {
    if t < |s.pc| && s.pc[t].Idle? && s.lock == None then Some(s.(pc := s.pc[t := Testing(n)], lock := Some(t)))
    else None
  }

  /** The loop of piperead() that waits for bytes. */
  function DoReadTest(s: State, t: nat, killed: bool): Option<State> {
    if !(t < |s.pc| && s.pc[t].Testing?) then None
    else if Empty(s) && s.writeopen then
      if killed then Some(s.(pc := s.pc[t := Idle], lock := None))
      else Some(s.(pc := s.pc[t := ReadSleep(s.pc[t].n)], lock := None))
    else Some(s.(pc := s.pc[t := Copying(s.pc[t].n, 0)]))
  }

  /** One turn of the copy loop of piperead(), or what follows it. */
  function DoReadTurn(s: State, t: nat, copied: bool): Option<State>
    requires Sized(s)
  {
    if !(t < |s.pc| && s.pc[t].Copying?) then None
    else
      var p := s.pc[t];
      if p.i >= p.n || Empty(s) then Some(s.(pc := WakeWriters(s.pc)[t := Idle], lock := None))
      else if !copied then Some(Take(s).(pc := WakeWriters(s.pc)[t := Idle], lock := None))
      else Some(Take(s).(pc := s.pc[t := Copying(p.n, p.i + 1)]))
  }

  /** A woken process takes the lock again inside sleep(). */
  function DoResume(s: State, t: nat): Option<State> {
    if !(t < |s.pc| && s.lock == None) then None
    else if s.pc[t].WriteWoken? then Some(s.(pc := s.pc[t := Writing(s.pc[t].buf, s.pc[t].i, false)], lock := Some(t)))
    else if s.pc[t].ReadWoken? then Some(s.(pc := s.pc[t := Testing(s.pc[t].n)], lock := Some(t)))
    else None
  }

  /** kill() makes a sleeping process runnable. */
  function DoKillWakes(s: State, t: nat): Option<State> {
    if t < |s.pc| then Some(s.(pc := s.pc[t := WakeReader(WakeWriter(s.pc[t]))], late := s.late - {t})) else None
  }

  function DoClose(s: State, writable: bool): Option<State> {
    if s.lock != None then None
    else if writable then Some(s.(writeopen := false, pc := WakeReaders(s.pc), late := {}))
    else Some(s.(readopen := false, pc := WakeWriters(s.pc)))
  }

  function Do(s: State, a: Step): Option<State>
    requires Sized(s)
  {
    match a
    case StartWrite(t, buf) => DoStartWrite(s, t, buf)
    case WriteTurn(t, killed, copied) => DoWriteTurn(s, t, killed, copied)
    case StartRead(t, n) => DoStartRead(s, t, n)
    case ReadTest(t, killed) => DoReadTest(s, t, killed)
    case ReadTurn(t, copied) => DoReadTurn(s, t, copied)
    case Resume(t) => DoResume(s, t)
    case KillWakes(t) => DoKillWakes(s, t)
    case Close(writable) => DoClose(s, writable)
  }

  /** After pipealloc(). */
  function Boot(n: nat): State {
    State(seq(PIPESIZE, i => 0), 0, 0, true, true, None, seq(n, i => Idle), [], [], {})
  }
}
