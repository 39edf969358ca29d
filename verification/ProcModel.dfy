/** kernel/proc.c and kernel/spinlock.c as an interleaving step system.  A step is one lock
    operation or one access to a process under its lock; any CPU may take the next step.
    A process is its index in proc[]; index INIT is the first process.  A CPU with interrupts on
    can be taken over by an interrupt handler at any point, and a thread that holds no lock can be
    made to yield. */
module ProcModel {
  import opened Prelude

  const INIT: nat := 0

  datatype PState = UNUSED | USED | SLEEPING | RUNNABLE | RUNNING | ZOMBIE
  datatype Chan = NoChan | OfProc(p: nat) | Addr(a: nat)
  datatype Lock = PLock(p: nat) | WaitLock | Lk(n: nat)

  /** Who called sleep(): wait(), or some other kernel code. */
  datatype Caller = FromKernel | FromWait

  /** Where a thread continues when swtch() brings it back. */
  datatype Resume = InSleep(chan: Chan, lk: Lock, k: Caller) | InYield(back: Pc) | InForkret | Never

  /** The control point of a process's kernel thread. */
  datatype Pc =
    | NoThread                                       // slot without a thread
    | Kernel(held: set<nat>)                         // other code, holding these locks
    | Sleep1(chan: Chan, lk: Lock, k: Caller)        // sleep(): lk and p->lock held
    | Sleep2(chan: Chan, lk: Lock, k: Caller)        // sleep(): lk released
    | Yield1(back: Pc)                               // yield(): p->lock held, taken at `back`
    | Ready(r: Resume)                               // state set, about to swtch in sched()
    | Switched(r: Resume, ie: bool)                  // inside swtch(), intena saved
    | Resumed(r: Resume, ie: bool)                   // intena restored, p->lock held
    | Reacquire(lk: Lock, k: Caller)                 // sleep(): about to acquire(lk) again
    | Wake(chan: Chan, g: nat, i: nat)               // wakeup(chan) under lock g, at slot i
    | Exit1(i: nat)                                  // exit(): reparent() at slot i
    | ExitWake(i: nat, j: nat)                       // reparent(): wakeup(initproc) at slot j
    | Exit2(j: nat)                                  // exit(): wakeup(p->parent) at slot j
    | Exit3                                          // about to acquire p->lock
    | Exit4                                          // about to become ZOMBIE
    | Exit5                                          // ZOMBIE, about to release wait_lock
    | Wait1(i: nat, kids: bool)                      // wait(): scan at slot i
    | Wait2(i: nat)                                  // wait(): holds the lock of child i
    | Wait3                                          // wait(): reaped, about to release wait_lock
    | Fork1(np: nat)                                 // fork(): holds np->lock, np is USED
    | Fork2(np: nat)                                 // about to acquire wait_lock
    | Fork3(np: nat)                                 // about to set np->parent
    | Fork4(np: nat)                                 // parent set, about to release wait_lock
    | Fork5(np: nat)                                 // about to acquire np->lock
    | Fork6(np: nat)                                 // about to make np RUNNABLE
    | Fork7(np: nat)                                 // about to release np->lock

  /** What a CPU is executing: its scheduler, or the thread of a process. */
  datatype Mode =
    | Scan                                           // scheduler(), no lock held
    | Chosen(p: nat)                                 // holds p->lock, about to swtch to p
    | InProc(p: nat)
    | Back(p: nat)                                   // swtch() has returned
    | Drop(p: nat)                                   // c->proc cleared, about to release

  /** An interrupt handler on top of what the CPU was executing. */
  datatype Trap =
    | NoTrap
    | Entered                                        // in kerneltrap(), no lock held
    | Locked(g: nat)                                 // the driver holds lock g
    | Waking(chan: Chan, g: nat, i: nat)             // wakeup(chan) under lock g, at slot i

  /** `offs` counts the push_off()s without their pop_off() yet, apart from those of held locks. */
  datatype Cpu = Cpu(mode: Mode, cur: Option<nat>, noff: nat, intena: bool, intr: bool, trap: Trap, offs: nat)

  datatype Tab = Tab(
    st: seq<PState>, chan: seq<Chan>, parent: seq<Option<nat>>, pid: seq<nat>, xst: seq<int>,
    killed: seq<bool>, nextpid: nat,
    maker: seq<Option<nat>>,          // which fork() is filling the slot
    reaped: map<nat, int>)            // pid and status of every successful wait()

  datatype State = State(tab: Tab, pc: seq<Pc>, locks: map<Lock, nat>, cpus: seq<Cpu>, on: seq<Option<nat>>)

  // ---------------------------------------------------------------- spinlocks

  function PushOff(k: Cpu): Cpu {
    k.(intr := false, intena := if k.noff == 0 then k.intr else k.intena, noff := k.noff + 1)
  }

  function PopOff(k: Cpu): Cpu
    requires k.noff >= 1
  {
    k.(noff := k.noff - 1, intr := if k.noff == 1 && k.intena then true else k.intr)
  }

  datatype LockOp = NoOp | Acquire(l: Lock) | Release(l: Lock)

  /** The locks a thread holds at a control point. */
  function Held(p: nat, pc: Pc): set<Lock> {
    match pc
    case NoThread => {}
    case Kernel(h) => set n | n in h :: Lk(n)
    case Sleep1(ch, lk, k) => {lk, PLock(p)}
    case Sleep2(ch, lk, k) => {PLock(p)}
    case Yield1(b) => {PLock(p)}
    case Ready(r) => {PLock(p)}
    case Switched(r, ie) => {PLock(p)}
    case Resumed(r, ie) => {PLock(p)}
    case Reacquire(lk, k) => {}
    case Wake(ch, g, i) => {Lk(g)}
    case Exit1(i) => {WaitLock}
    case ExitWake(i, j) => {WaitLock}
    case Exit2(j) => {WaitLock}
    case Exit3 => {WaitLock}
    case Exit4 => {WaitLock, PLock(p)}
    case Exit5 => {WaitLock, PLock(p)}
    case Wait1(i, kids) => {WaitLock}
    case Wait2(i) => {WaitLock, PLock(i)}
    case Wait3 => {WaitLock}
    case Fork1(np) => {PLock(np)}
    case Fork2(np) => {}
    case Fork3(np) => {WaitLock}
    case Fork4(np) => {WaitLock}
    case Fork5(np) => {}
    case Fork6(np) => {PLock(np)}
    case Fork7(np) => {PLock(np)}
  }

  function HeldIn(m: Mode, pc: seq<Pc>): set<Lock> {
    match m
    case Scan => {}
    case InProc(p) => if p < |pc| then Held(p, pc[p]) else {}
    case _ => {PLock(m.p)}
  }

  /** The locks a CPU holds: those of a handler, or else of what it was executing. */
  function HeldBy(k: Cpu, pc: seq<Pc>): set<Lock> {
    if k.trap.Locked? || k.trap.Waking? then {Lk(k.trap.g)} else HeldIn(k.mode, pc)
  }

  /** Control points without locks, where a timer interrupt can make the thread yield. */
  predicate Preemptible(pc: Pc) {
    pc == Kernel({}) || pc.Reacquire? || pc.Fork2? || pc.Fork5?
  }

  /** The control point a thread is at, or will be at when it is back from yield(). */
  function Base(pc: Pc): Pc {
    if pc.Yield1? then pc.back
    else if (pc.Ready? || pc.Switched? || pc.Resumed?) && pc.r.InYield? then pc.r.back
    else pc
  }

  // ---------------------------------------------------------------- steps of a thread

  datatype Act =
    | AcquireLk(g: nat) | ReleaseLk(g: nat)
    | SleepCall(a: nat, g: nat) | SleepRelease | SleepSet | SleepReacquire
    | YieldCall | YieldSet | AfterSched
    | WakeCall(a: nat, g: nat) | WakeNext | Kill(q: nat)
    | ExitCall | ExitNext | ExitWakeInit | ExitWakeParent | ExitLock | ExitZombie(status: int) | ExitRelease
    | WaitCall | WaitScan | WaitCheck(copied: bool) | WaitSleep | WaitReturn
    | ForkCall(np: nat) | ForkFail | ForkRelease | ForkWait | ForkParent | ForkUnwait | ForkLock | ForkSet | ForkDone

  /** What a thread step does: one lock operation, new control points, a new process table. */
  datatype Eff = Eff(op: LockOp, pc: seq<Pc>, tab: Tab)

  /** Slot i visited by wakeup(chan): under its lock, SLEEPING on chan becomes RUNNABLE. */
  function Woken(t: Tab, i: nat, chan: Chan): Tab
    requires i < |t.st| == |t.chan|
  {
    if t.st[i] == SLEEPING && t.chan[i] == chan then t.(st := t.st[i := RUNNABLE]) else t
  }

  /** wakeup() passes over slot i: the caller's own slot, or one whose lock is free. */
  predicate CanVisit(s: State, p: nat, i: nat) {
    i < |s.tab.st| && (i == p || PLock(i) !in s.locks)
  }

  function Visit(s: State, p: nat, i: nat, chan: Chan): Tab
    requires i < |s.tab.st| == |s.tab.chan|
  {
    if i == p then s.tab else Woken(s.tab, i, chan)
  }

  predicate TabSized(t: Tab, n: nat) {
    && |t.st| == n && |t.chan| == n && |t.parent| == n && |t.pid| == n && |t.xst| == n
    && |t.killed| == n && |t.maker| == n
  }

  predicate Sized(s: State) {
    INIT < |s.pc| == |s.on| && TabSized(s.tab, |s.pc|)
  }

  /** The channel p->parent, as exit() passes it to wakeup(). */
  function ParentChan(parent: Option<nat>): Chan {
    if parent.Some? then OfProc(parent.value) else NoChan
  }

  /** freeproc(): the slot is UNUSED again. */
  function Freeproc(t: Tab, q: nat): Tab
    requires q < |t.st| == |t.chan| == |t.parent| == |t.pid| == |t.xst| == |t.killed| == |t.maker|
  {
    t.(st := t.st[q := UNUSED], chan := t.chan[q := NoChan], parent := t.parent[q := None],
       pid := t.pid[q := 0], xst := t.xst[q := 0], killed := t.killed[q := false], maker := t.maker[q := None])
  }

  function SleepStep(s: State, p: nat, a: Act): Option<Eff>
    requires Sized(s) && p < |s.pc|
  {
    match (a, s.pc[p])
    case (SleepCall(x, g), Kernel(h)) =>
      if h == {g} then Some(Eff(Acquire(PLock(p)), s.pc[p := Sleep1(Addr(x), Lk(g), FromKernel)], s.tab)) else None
    case (SleepRelease, Sleep1(ch, lk, k)) => Some(Eff(Release(lk), s.pc[p := Sleep2(ch, lk, k)], s.tab))
    case (SleepSet, Sleep2(ch, lk, k)) =>
      Some(Eff(NoOp, s.pc[p := Ready(InSleep(ch, lk, k))],
               s.tab.(chan := s.tab.chan[p := ch], st := s.tab.st[p := SLEEPING])))
    case (SleepReacquire, Reacquire(lk, k)) =>
      Some(Eff(Acquire(lk), s.pc[p := if k.FromWait? then Wait1(0, false) else Kernel(if lk.Lk? then {lk.n} else {})],
               s.tab))
    case (YieldCall, b) => if Preemptible(b) then Some(Eff(Acquire(PLock(p)), s.pc[p := Yield1(b)], s.tab)) else None
    case (YieldSet, Yield1(b)) => Some(Eff(NoOp, s.pc[p := Ready(InYield(b))], s.tab.(st := s.tab.st[p := RUNNABLE])))
    case (AfterSched, Resumed(r, ie)) =>
      if r.InSleep? then Some(Eff(Release(PLock(p)), s.pc[p := Reacquire(r.lk, r.k)],
                                  s.tab.(chan := s.tab.chan[p := NoChan])))
      else if r.Never? then None
      else Some(Eff(Release(PLock(p)), s.pc[p := if r.InYield? then r.back else Kernel({})], s.tab))
    case _ => None
  }

  function WakeStep(s: State, p: nat, a: Act): Option<Eff>
    requires Sized(s) && p < |s.pc|
  {
    match (a, s.pc[p])
    case (AcquireLk(g), Kernel(h)) =>
      if g in h then None
      else Some(Eff(Acquire(Lk(g)), s.pc[p := Kernel(h + {g})], s.tab))
    case (ReleaseLk(g), Kernel(h)) =>
      if g in h then Some(Eff(Release(Lk(g)), s.pc[p := Kernel(h - {g})], s.tab))
      else None
    case (WakeCall(x, g), Kernel(h)) =>
      if h == {g} then Some(Eff(NoOp, s.pc[p := Wake(Addr(x), g, 0)], s.tab))
      else None
    case (WakeNext, Wake(ch, g, i)) =>
      if i >= |s.pc| then Some(Eff(NoOp, s.pc[p := Kernel({g})], s.tab))
      else if CanVisit(s, p, i) then Some(Eff(NoOp, s.pc[p := Wake(ch, g, i + 1)], Visit(s, p, i, ch)))
      else None
    case (Kill(q), Kernel(h)) =>
      if q < |s.pc| && PLock(q) !in s.locks then
        Some(Eff(NoOp, s.pc, s.tab.(killed := s.tab.killed[q := true],
                                    st := if s.tab.st[q] == SLEEPING then s.tab.st[q := RUNNABLE] else s.tab.st)))
      else None
    case _ => None
  }

  function ExitStep(s: State, p: nat, a: Act): Option<Eff>
    requires Sized(s) && p < |s.pc|
  {
    match (a, s.pc[p])
    case (ExitCall, Kernel(h)) =>
      if h == {} && p != INIT then Some(Eff(Acquire(WaitLock), s.pc[p := Exit1(0)], s.tab)) else None
    case (ExitNext, Exit1(i)) =>
      if i >= |s.pc| then Some(Eff(NoOp, s.pc[p := Exit2(0)], s.tab))
      else if s.tab.parent[i] == Some(p) then
        Some(Eff(NoOp, s.pc[p := ExitWake(i, 0)], s.tab.(parent := s.tab.parent[i := Some(INIT)])))
      else Some(Eff(NoOp, s.pc[p := Exit1(i + 1)], s.tab))
    case (ExitWakeInit, ExitWake(i, j)) =>
      if j >= |s.pc| then Some(Eff(NoOp, s.pc[p := Exit1(i + 1)], s.tab))
      else if CanVisit(s, p, j) then Some(Eff(NoOp, s.pc[p := ExitWake(i, j + 1)], Visit(s, p, j, OfProc(INIT))))
      else None
    case (ExitWakeParent, Exit2(j)) =>
      if j >= |s.pc| then Some(Eff(NoOp, s.pc[p := Exit3], s.tab))
      else if CanVisit(s, p, j) then
        Some(Eff(NoOp, s.pc[p := Exit2(j + 1)], Visit(s, p, j, ParentChan(s.tab.parent[p]))))
      else None
    case (ExitLock, Exit3) => Some(Eff(Acquire(PLock(p)), s.pc[p := Exit4], s.tab))
    case (ExitZombie(status), Exit4) =>
      Some(Eff(NoOp, s.pc[p := Exit5], s.tab.(xst := s.tab.xst[p := status], st := s.tab.st[p := ZOMBIE])))
    case (ExitRelease, Exit5) => Some(Eff(Release(WaitLock), s.pc[p := Ready(Never)], s.tab))
    case _ => None
  }

  function WaitStep(s: State, p: nat, a: Act): Option<Eff>
    requires Sized(s) && p < |s.pc|
  {
    match (a, s.pc[p])
    case (WaitCall, Kernel(h)) =>
      if h == {} then Some(Eff(Acquire(WaitLock), s.pc[p := Wait1(0, false)], s.tab))
      else None
    case (WaitScan, Wait1(i, kids)) =>
      if i >= |s.pc| then None
      else if s.tab.parent[i] == Some(p) then Some(Eff(Acquire(PLock(i)), s.pc[p := Wait2(i)], s.tab))
      else Some(Eff(NoOp, s.pc[p := Wait1(i + 1, kids)], s.tab))
    case (WaitCheck(copied), Wait2(i)) =>
      if i >= |s.pc| then None
      else if s.tab.st[i] != ZOMBIE then Some(Eff(Release(PLock(i)), s.pc[p := Wait1(i + 1, true)], s.tab))
      else if !copied then Some(Eff(Release(PLock(i)), s.pc[p := Wait3], s.tab))
      else Some(Eff(Release(PLock(i)), s.pc[p := Wait3][i := NoThread],
                    Freeproc(s.tab, i).(reaped := s.tab.reaped[s.tab.pid[i] := s.tab.xst[i]])))
    case (WaitSleep, Wait1(i, kids)) =>
      if i < |s.pc| then None
      else if !kids || s.tab.killed[p] then Some(Eff(NoOp, s.pc[p := Wait3], s.tab))
      else Some(Eff(Acquire(PLock(p)), s.pc[p := Sleep1(OfProc(p), WaitLock, FromWait)], s.tab))
    case (WaitReturn, Wait3) => Some(Eff(Release(WaitLock), s.pc[p := Kernel({})], s.tab))
    case _ => None
  }

  function ForkStep(s: State, p: nat, a: Act): Option<Eff>
    requires Sized(s) && p < |s.pc|
  {
    match (a, s.pc[p])
    case (ForkCall(np), Kernel(h)) =>
      if h == {} && np < |s.pc| && s.tab.st[np] == UNUSED then
        Some(Eff(Acquire(PLock(np)), s.pc[p := Fork1(np)],
                 s.tab.(st := s.tab.st[np := USED], pid := s.tab.pid[np := s.tab.nextpid],
                        nextpid := s.tab.nextpid + 1, maker := s.tab.maker[np := Some(p)])))
      else None
    case (ForkFail, Fork1(np)) =>
      if np < |s.pc| then Some(Eff(Release(PLock(np)), s.pc[p := Kernel({})], Freeproc(s.tab, np))) else None
    case (ForkRelease, Fork1(np)) => Some(Eff(Release(PLock(np)), s.pc[p := Fork2(np)], s.tab))
    case (ForkWait, Fork2(np)) => Some(Eff(Acquire(WaitLock), s.pc[p := Fork3(np)], s.tab))
    case (ForkParent, Fork3(np)) =>
      if np < |s.pc| then Some(Eff(NoOp, s.pc[p := Fork4(np)], s.tab.(parent := s.tab.parent[np := Some(p)]))) else None
    case (ForkUnwait, Fork4(np)) => Some(Eff(Release(WaitLock), s.pc[p := Fork5(np)], s.tab))
    case (ForkLock, Fork5(np)) => Some(Eff(Acquire(PLock(np)), s.pc[p := Fork6(np)], s.tab))
    case (ForkSet, Fork6(np)) =>
      if np < |s.pc| then
        Some(Eff(NoOp, s.pc[p := Fork7(np)][np := Switched(InForkret, true)],
                 s.tab.(st := s.tab.st[np := RUNNABLE], maker := s.tab.maker[np := None])))
      else None
    case (ForkDone, Fork7(np)) => Some(Eff(Release(PLock(np)), s.pc[p := Kernel({})], s.tab))
    case _ => None
  }

  predicate SleepAct(a: Act) {
    a.SleepCall? || a.SleepRelease? || a.SleepSet? || a.SleepReacquire? || a.YieldCall? || a.YieldSet? || a.AfterSched?
  }

  predicate WakeAct(a: Act) {
    a.AcquireLk? || a.ReleaseLk? || a.WakeCall? || a.WakeNext? || a.Kill?
  }

  predicate ExitAct(a: Act) {
    a.ExitCall? || a.ExitNext? || a.ExitWakeInit? || a.ExitWakeParent? || a.ExitLock? || a.ExitZombie? || a.ExitRelease?
  }

  predicate WaitAct(a: Act) {
    a.WaitCall? || a.WaitScan? || a.WaitCheck? || a.WaitSleep? || a.WaitReturn?
  }

  function ThreadStep(s: State, p: nat, a: Act): Option<Eff>
    requires Sized(s) && p < |s.pc|
  {
    if SleepAct(a) then SleepStep(s, p, a)
    else if WakeAct(a) then WakeStep(s, p, a)
    else if ExitAct(a) then ExitStep(s, p, a)
    else if WaitAct(a) then WaitStep(s, p, a)
    else ForkStep(s, p, a)
  }

  // ---------------------------------------------------------------- steps of a CPU

  datatype Step =
    | Thread(a: Act)
    | SwtchOut | SwtchResume                 // the two halves of sched()
    | Pick(p: nat) | Enter | Clear | Unlock  // scheduler()
    | Intr(on: bool)                         // interrupts toggled outside any lock
    | Push | Pop                             // push_off() and pop_off() without a lock, as in myproc()
    | Interrupt | Return                     // into and out of kerneltrap()
    | TrapLock(g: nat) | TrapWake(x: nat) | TrapNext | TrapUnlock

  function ApplyOp(s: State, c: nat, op: LockOp): Option<State>
    requires c < |s.cpus|
  {
    match op
    case NoOp => Some(s)
    case Acquire(l) =>
      if l in s.locks then None
      else Some(s.(locks := s.locks[l := c], cpus := s.cpus[c := PushOff(s.cpus[c])]))
    case Release(l) =>
      if l !in s.locks || s.locks[l] != c || s.cpus[c].noff < 1 then None
      else Some(s.(locks := s.locks - {l}, cpus := s.cpus[c := PopOff(s.cpus[c])]))
  }

  function DoThread(s: State, c: nat, a: Act): Option<State>
    requires Sized(s) && c < |s.cpus|
  {
    if !s.cpus[c].mode.InProc? || s.cpus[c].mode.p >= |s.pc| then None
    else match ThreadStep(s, s.cpus[c].mode.p, a)
      case None => None
      case Some(e) =>
        match ApplyOp(s, c, e.op)
        case None => None
        case Some(s') => Some(s'.(pc := e.pc, tab := e.tab))
  }

  function DoSched(s: State, c: nat, a: Step): Option<State>
    requires Sized(s) && c < |s.cpus|
  {
    var k := s.cpus[c];
    match (a, k.mode)
    case (SwtchOut, InProc(p)) =>
      if p < |s.pc| && s.pc[p].Ready? && k.noff == 1 && s.tab.st[p] != RUNNING && !k.intr then
        Some(s.(pc := s.pc[p := Switched(s.pc[p].r, k.intena)], cpus := s.cpus[c := k.(mode := Back(p))]))
      else None
    case (SwtchResume, InProc(p)) =>
      if p < |s.pc| && s.pc[p].Switched? then
        var ie := if s.pc[p].r.InForkret? then k.intena else s.pc[p].ie;
        Some(s.(pc := s.pc[p := Resumed(s.pc[p].r, ie)], cpus := s.cpus[c := k.(intena := ie)]))
      else None
    case (Pick(p), Scan) =>
      if p < |s.pc| && PLock(p) !in s.locks && s.tab.st[p] == RUNNABLE then
        Some(s.(locks := s.locks[PLock(p) := c], tab := s.tab.(st := s.tab.st[p := RUNNING]), on := s.on[p := Some(c)],
                cpus := s.cpus[c := PushOff(k).(mode := Chosen(p), cur := Some(p))]))
      else None
    case (Enter, Chosen(p)) => Some(s.(cpus := s.cpus[c := k.(mode := InProc(p))]))
    case (Clear, Back(p)) =>
      if p < |s.pc| then Some(s.(on := s.on[p := None], cpus := s.cpus[c := k.(mode := Drop(p), cur := None)]))
      else None
    case (Unlock, Drop(p)) =>
      if PLock(p) in s.locks && s.locks[PLock(p)] == c && k.noff >= 1 then
        Some(s.(locks := s.locks - {PLock(p)}, cpus := s.cpus[c := PopOff(k).(mode := Scan)]))
      else None
    case (Intr(b), _) => if k.noff == 0 then Some(s.(cpus := s.cpus[c := k.(intr := b)])) else None
    case _ => None
  }

  /** push_off() and pop_off() on their own; nothing else happens on this CPU in between. */
  function DoOffs(s: State, c: nat, a: Step): Option<State>
    requires c < |s.cpus|
  {
    var k := s.cpus[c];
    if a.Push? then Some(s.(cpus := s.cpus[c := PushOff(k).(offs := k.offs + 1)]))
    else if a.Pop? && k.offs > 0 && k.noff > 0 then Some(s.(cpus := s.cpus[c := PopOff(k).(offs := k.offs - 1)]))
    else None
  }

  /** myproc() on CPU c; no slot if it is idle. */
  function Myproc(s: State, c: nat): nat
    requires c < |s.cpus|
  {
    if s.cpus[c].cur.Some? then s.cpus[c].cur.value else |s.pc|
  }

  /** Steps of an interrupt handler: it takes a driver's lock, calls wakeup() and releases the lock. */
  function DoTrap(s: State, c: nat, a: Step): Option<State>
    requires Sized(s) && c < |s.cpus|
  {
    var k := s.cpus[c];
    match (a, k.trap)
    case (Interrupt, NoTrap) =>
      if k.noff == 0 && k.intr then Some(s.(cpus := s.cpus[c := k.(trap := Entered, intr := false)])) else None
    case (TrapLock(g), Entered) =>
      if Lk(g) in s.locks then None
      else Some(s.(locks := s.locks[Lk(g) := c], cpus := s.cpus[c := PushOff(k).(trap := Locked(g))]))
    case (TrapWake(x), Locked(g)) => Some(s.(cpus := s.cpus[c := k.(trap := Waking(Addr(x), g, 0))]))
    case (TrapNext, Waking(ch, g, i)) =>
      if i >= |s.pc| then Some(s.(cpus := s.cpus[c := k.(trap := Locked(g))]))
      else if CanVisit(s, Myproc(s, c), i) then
        Some(s.(cpus := s.cpus[c := k.(trap := Waking(ch, g, i + 1))], tab := Visit(s, Myproc(s, c), i, ch)))
      else None
    case (TrapUnlock, Locked(g)) =>
      if Lk(g) in s.locks && s.locks[Lk(g)] == c && k.noff >= 1 then
        Some(s.(locks := s.locks - {Lk(g)}, cpus := s.cpus[c := PopOff(k).(trap := Entered)]))
      else None
    case (Return, Entered) => Some(s.(cpus := s.cpus[c := k.(trap := NoTrap, intr := true)]))
    case _ => None
  }

  predicate OffStep(a: Step) { a.Push? || a.Pop? }

  predicate TrapStep(a: Step) {
    a.Interrupt? || a.Return? || a.TrapLock? || a.TrapWake? || a.TrapNext? || a.TrapUnlock?
  }

  function Do(s: State, c: nat, a: Step): Option<State>
    requires Sized(s) && c < |s.cpus|
  {
    if OffStep(a) then DoOffs(s, c, a)
    else if s.cpus[c].offs > 0 then None
    else if TrapStep(a) then DoTrap(s, c, a)
    else if s.cpus[c].trap != NoTrap then None
    else if a.Thread? then DoThread(s, c, a.a)
    else DoSched(s, c, a)
  }
}
