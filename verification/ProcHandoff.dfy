/** Locks, CPUs and the hand-over of p->lock through the scheduler. */
module ProcHandoff {
  import opened Prelude
  import opened ProcModel

  // ---------------------------------------------------------------- invariant

  ghost predicate LocksOk(locks: map<Lock, nat>, cpus: seq<Cpu>, pc: seq<Pc>) {
    && (forall l :: l in locks ==> locks[l] < |cpus|)
    && (forall c, l {:trigger l in HeldBy(cpus[c], pc)} :: 0 <= c < |cpus| ==>
          (l in HeldBy(cpus[c], pc) <==> l in locks && locks[l] == c))
  }

  /** A CPU's counters count the locks its current context holds; its mode, c->proc and
      the thread it runs agree. */
  predicate CpuOk(k: Cpu, c: nat, pc: seq<Pc>, on: seq<Option<nat>>) {
    && k.noff == |HeldBy(k, pc)| + k.offs && (k.noff > 0 ==> !k.intr)
    && (k.trap != NoTrap ==> HeldIn(k.mode, pc) == {} && !k.intr && (k.noff > 0 ==> !k.intena))
    && (k.mode.Scan? || k.mode.Drop? ==> k.cur == None)
    && (k.mode.Drop? ==> k.mode.p < |on| && on[k.mode.p] == None)
    && (k.mode.Chosen? || k.mode.InProc? || k.mode.Back? ==>
          k.mode.p < |on| && k.mode.p < |pc| && on[k.mode.p] == Some(c) && k.cur == Some(k.mode.p))
    && (k.mode.Chosen? || k.mode.Back? ==> pc[k.mode.p].Switched?)
    && (k.mode.InProc? ==> !pc[k.mode.p].NoThread?)
    && (k.mode.InProc? && pc[k.mode.p].Resumed? ==> k.intena == pc[k.mode.p].ie)
  }

  ghost predicate CpusOk(cpus: seq<Cpu>, pc: seq<Pc>, on: seq<Option<nat>>) {
    forall c {:trigger CpuOk(cpus[c], c, pc, on)} :: 0 <= c < |cpus| ==> CpuOk(cpus[c], c, pc, on)
  }

  /** Is p on a CPU and not yet switched out? */
  predicate Running(p: nat, on: seq<Option<nat>>, cpus: seq<Cpu>)
    requires p < |on|
  {
    on[p].Some? && on[p].value < |cpus| && !cpus[on[p].value].mode.Back?
  }

  /** The state of a process that is switched out, or about to be. */
  predicate Parked(st: PState, chan: Chan, r: Resume) {
    match r
    case InSleep(ch, lk, k) => st in {SLEEPING, RUNNABLE} && chan == ch
    case Never => st == ZOMBIE
    case _ => st == RUNNABLE
  }

  predicate StateOk(st: PState, chan: Chan, pc: Pc, running: bool) {
    match pc
    case NoThread => st in {UNUSED, USED}
    case Ready(r) => Parked(st, chan, r)
    case Switched(r, ie) => if running then st == RUNNING && !r.Never? else Parked(st, chan, r)
    case Resumed(r, ie) => st == RUNNING && !r.Never?
    case Exit5 => st == ZOMBIE
    case _ => st == RUNNING
  }

  predicate SleepArgsOk(p: nat, chan: Chan, lk: Lock, k: Caller) {
    if k.FromWait? then chan == OfProc(p) && lk == WaitLock else chan.Addr? && lk.Lk?
  }

  /** On the way out: from the start of exit() to the last swtch(). */
  predicate Exiting(pc: Pc) {
    || pc.Exit1? || pc.ExitWake? || pc.Exit2? || pc.Exit3? || pc.Exit4? || pc.Exit5?
    || ((pc.Ready? || pc.Switched?) && pc.r.Never?)
  }

  predicate Forking(pc: Pc) {
    var b := Base(pc);
    b.Fork1? || b.Fork2? || b.Fork3? || b.Fork4? || b.Fork5? || b.Fork6? || b.Fork7?
  }

  /** Arguments stored in a control point make sense, and the first process never exits. */
  predicate PcOk(p: nat, pc: Pc, n: nat) {
    && (pc.Sleep1? || pc.Sleep2? ==> SleepArgsOk(p, pc.chan, pc.lk, pc.k))
    && ((pc.Ready? || pc.Switched? || pc.Resumed?) && pc.r.InSleep? ==> SleepArgsOk(p, pc.r.chan, pc.r.lk, pc.r.k))
    && (pc.Yield1? ==> Preemptible(pc.back))
    && ((pc.Ready? || pc.Switched? || pc.Resumed?) && pc.r.InYield? ==> Preemptible(pc.r.back))
    && (Base(pc).Reacquire? ==> if Base(pc).k.FromWait? then Base(pc).lk == WaitLock else Base(pc).lk.Lk?)
    && (pc.Wake? ==> pc.chan.Addr?)
    && (pc.Wait2? ==> pc.i < n && pc.i != p)
    && (Forking(pc) ==> Base(pc).np < n && Base(pc).np != p)
    && (p == INIT ==> !pc.NoThread? && !Exiting(pc))
  }

  /** One process: where it is, on which CPU, in what state, and whose fork() is filling it. */
  predicate ProcOk(p: nat, tab: Tab, pc: seq<Pc>, cpus: seq<Cpu>, on: seq<Option<nat>>)
    requires p < |pc| == |on| == |tab.st| == |tab.chan| == |tab.parent| == |tab.maker|
  {
    && PcOk(p, pc[p], |pc|)
    && (Forking(pc[p]) && !pc[p].Fork7? ==> tab.maker[Base(pc[p]).np] == Some(p))
    && (tab.st[p] == USED <==> tab.maker[p].Some?)
    && (tab.parent[p].Some? ==> p != INIT && tab.parent[p].value < |pc| && tab.parent[p].value != p)
    && (on[p].Some? ==> on[p].value < |cpus| && cpus[on[p].value].cur == Some(p))
    && (on[p] == None ==> pc[p].NoThread? || pc[p].Switched?)
    && StateOk(tab.st[p], tab.chan[p], pc[p], Running(p, on, cpus))
  }

  ghost predicate ProcsOk(tab: Tab, pc: seq<Pc>, cpus: seq<Cpu>, on: seq<Option<nat>>)
    requires |pc| == |on| == |tab.st| == |tab.chan| == |tab.parent| == |tab.maker|
  {
    forall p: nat {:trigger ProcOk(p, tab, pc, cpus, on)} :: p < |pc| ==> ProcOk(p, tab, pc, cpus, on)
  }

  ghost predicate HandoffInv(s: State) {
    && Sized(s)
    && LocksOk(s.locks, s.cpus, s.pc)
    && CpusOk(s.cpus, s.pc, s.on)
    && ProcsOk(s.tab, s.pc, s.cpus, s.on)
  }

  // ---------------------------------------------------------------- locks under one thread step

  function HeldAfter(h: set<Lock>, op: LockOp): set<Lock> {
    match op
    case NoOp => h
    case Acquire(l) => h + {l}
    case Release(l) => h - {l}
  }

  lemma KernelSets(h: set<nat>, g: nat)
    ensures (set n | n in h + {g} :: Lk(n)) == (set n | n in h :: Lk(n)) + {Lk(g)}
    ensures g in h ==> (set n | n in h - {g} :: Lk(n)) == (set n | n in h :: Lk(n)) - {Lk(g)}
  {
  }

  /** Every thread step names the lock operation that its control points imply. */
  ghost predicate EffHeld(p: nat, pc: seq<Pc>, e: Eff) {
    && p < |pc| == |e.pc| && !e.pc[p].Resumed? && !e.pc[p].NoThread?
    && Held(p, e.pc[p]) == HeldAfter(Held(p, pc[p]), e.op)
    && (e.op.Acquire? ==> e.op.l !in Held(p, pc[p])) && (e.op.Release? ==> e.op.l in Held(p, pc[p]))
  }

  lemma SleepHeld(s: State, p: nat, a: Act)
    requires Sized(s) && p < |s.pc| && !s.pc[p].NoThread? && PcOk(p, s.pc[p], |s.pc|) && SleepStep(s, p, a).Some?
    ensures EffHeld(p, s.pc, SleepStep(s, p, a).value)
  {
  }

  lemma WakeHeld(s: State, p: nat, a: Act)
    requires Sized(s) && p < |s.pc| && !s.pc[p].NoThread? && PcOk(p, s.pc[p], |s.pc|) && WakeStep(s, p, a).Some?
    ensures EffHeld(p, s.pc, WakeStep(s, p, a).value)
  {
    if a.AcquireLk? || a.ReleaseLk? { KernelSets(s.pc[p].held, a.g); }
  }

  lemma ExitHeld(s: State, p: nat, a: Act)
    requires Sized(s) && p < |s.pc| && PcOk(p, s.pc[p], |s.pc|) && ExitStep(s, p, a).Some?
    ensures EffHeld(p, s.pc, ExitStep(s, p, a).value)
  {
  }

  lemma WaitHeld(s: State, p: nat, a: Act)
    requires Sized(s) && p < |s.pc| && PcOk(p, s.pc[p], |s.pc|) && WaitStep(s, p, a).Some?
    ensures EffHeld(p, s.pc, WaitStep(s, p, a).value)
  {
  }

  lemma ForkHeld(s: State, p: nat, a: Act)
    requires Sized(s) && p < |s.pc| && PcOk(p, s.pc[p], |s.pc|) && ForkStep(s, p, a).Some?
    ensures EffHeld(p, s.pc, ForkStep(s, p, a).value)
  {
  }

  lemma StepHeld(s: State, p: nat, a: Act)
    requires Sized(s) && p < |s.pc| && !s.pc[p].NoThread? && PcOk(p, s.pc[p], |s.pc|) && ThreadStep(s, p, a).Some?
    ensures EffHeld(p, s.pc, ThreadStep(s, p, a).value)
  {
    if SleepAct(a) { SleepHeld(s, p, a); }
    else if WakeAct(a) { WakeHeld(s, p, a); }
    else if ExitAct(a) { ExitHeld(s, p, a); }
    else if WaitAct(a) { WaitHeld(s, p, a); }
    else { ForkHeld(s, p, a); }
  }

  predicate EffSized(e: Eff, n: nat) {
    |e.pc| == n && TabSized(e.tab, n)
  }

  /** Threads other than p keep their control points, unless they are on no CPU. */
  ghost predicate OthersKept(p: nat, pc: seq<Pc>, pc': seq<Pc>, on: seq<Option<nat>>) {
    |pc'| == |pc| == |on| && forall q :: 0 <= q < |pc| && q != p ==> pc'[q] == pc[q] || on[q] == None
  }

  lemma OtherCpuHeld(s: State, c: nat, d: nat, p: nat, pc': seq<Pc>)
    requires CpusOk(s.cpus, s.pc, s.on) && c < |s.cpus| && d < |s.cpus| && c != d
    requires s.cpus[c].mode == InProc(p) && OthersKept(p, s.pc, pc', s.on)
    ensures HeldBy(s.cpus[d], pc') == HeldBy(s.cpus[d], s.pc)
    ensures CpuOk(s.cpus[d], d, pc', s.on)
  {
    assert CpuOk(s.cpus[d], d, s.pc, s.on);
    assert CpuOk(s.cpus[c], c, s.pc, s.on);
  }

  /** A thread step keeps the lock table, the counters and the CPUs right. */
  lemma ThreadLocks(s: State, c: nat, p: nat, e: Eff, s': State)
    requires LocksOk(s.locks, s.cpus, s.pc) && CpusOk(s.cpus, s.pc, s.on) && c < |s.cpus|
    requires s.cpus[c].mode == InProc(p) && s.cpus[c].trap == NoTrap && EffHeld(p, s.pc, e) &&
             OthersKept(p, s.pc, e.pc, s.on)
    requires ApplyOp(s, c, e.op).Some? && s' == ApplyOp(s, c, e.op).value.(pc := e.pc, tab := e.tab)
    ensures LocksOk(s'.locks, s'.cpus, s'.pc) && CpusOk(s'.cpus, s'.pc, s'.on)
    ensures forall d :: 0 <= d < |s.cpus| ==> s'.cpus[d].mode == s.cpus[d].mode && s'.cpus[d].cur == s.cpus[d].cur
  {
    assert CpuOk(s.cpus[c], c, s.pc, s.on);
    assert s'.cpus[c].mode == s.cpus[c].mode;
    assert HeldBy(s'.cpus[c], s'.pc) == HeldAfter(HeldBy(s.cpus[c], s.pc), e.op);
    forall d: nat | d < |s'.cpus| && d != c
      ensures CpuOk(s'.cpus[d], d, s'.pc, s'.on) && HeldBy(s'.cpus[d], s'.pc) == HeldBy(s.cpus[d], s.pc) {
      OtherCpuHeld(s, c, d, p, e.pc);
    }
    if e.op.Acquire? { assert e.op.l !in HeldBy(s.cpus[c], s.pc); }
    if e.op.Release? { assert e.op.l in HeldBy(s.cpus[c], s.pc); }
    assert CpuOk(s'.cpus[c], c, s'.pc, s'.on);
    forall d, l | 0 <= d < |s'.cpus| ensures l in HeldBy(s'.cpus[d], s'.pc) <==> l in s'.locks && s'.locks[l] == d {
      assert l in HeldBy(s.cpus[d], s.pc) <==> l in s.locks && s.locks[l] == d;
    }
  }

  // ---------------------------------------------------------------- what a lock tells about a process

  /** THE HAND-OVER RULE.  Whenever p->lock is free, p is RUNNING if and only if it is on a CPU. */
  lemma FreeLock(s: State, p: nat)
    requires HandoffInv(s) && p < |s.pc| && PLock(p) !in s.locks
    ensures s.tab.st[p] == RUNNING <==> s.on[p].Some?
    ensures s.on[p].Some? ==> s.on[p].value < |s.cpus| && s.cpus[s.on[p].value].mode == InProc(p)
    ensures s.on[p] == None ==>
              s.pc[p].NoThread? || (s.pc[p].Switched? && Parked(s.tab.st[p], s.tab.chan[p], s.pc[p].r))
  {
    assert ProcOk(p, s.tab, s.pc, s.cpus, s.on);
    if s.on[p].Some? {
      var c := s.on[p].value;
      assert CpuOk(s.cpus[c], c, s.pc, s.on);
      assert PLock(p) !in HeldBy(s.cpus[c], s.pc);
    }
  }

  /** A process on a CPU is RUNNING, or its lock is held by that CPU on its behalf. */
  lemma OnCpu(s: State, q: nat)
    requires HandoffInv(s) && q < |s.pc| && s.on[q].Some?
    ensures s.on[q].value < |s.cpus| && !s.cpus[s.on[q].value].mode.Scan? && s.cpus[s.on[q].value].mode.p == q
    ensures s.tab.st[q] == RUNNING || (PLock(q) in s.locks && s.locks[PLock(q)] == s.on[q].value)
  {
    assert ProcOk(q, s.tab, s.pc, s.cpus, s.on);
    var d := s.on[q].value;
    assert CpuOk(s.cpus[d], d, s.pc, s.on);
    assert PLock(q) in HeldBy(s.cpus[d], s.pc) <==> PLock(q) in s.locks && s.locks[PLock(q)] == d;
  }

  /** If another thread holds q->lock and q is not RUNNING, q is on no CPU: it has left its kernel stack. */
  lemma HeldElsewhere(s: State, q: nat, c: nat)
    requires HandoffInv(s) && q < |s.pc| && PLock(q) in s.locks && s.locks[PLock(q)] == c && c < |s.cpus|
    requires s.cpus[c].mode.InProc? && s.cpus[c].mode.p != q && s.tab.st[q] != RUNNING
    ensures s.on[q] == None
  {
    if s.on[q].Some? { OnCpu(s, q); }
  }

  /** A thread on a CPU: its process is RUNNING unless it has just set another state under its lock. */
  lemma ThreadState(s: State, c: nat, p: nat)
    requires HandoffInv(s) && c < |s.cpus| && s.cpus[c].mode == InProc(p)
    ensures p < |s.pc| && s.on[p] == Some(c) && ProcOk(p, s.tab, s.pc, s.cpus, s.on) && !s.pc[p].NoThread?
    ensures Running(p, s.on, s.cpus)
    ensures PLock(p) in Held(p, s.pc[p]) <==> PLock(p) in s.locks && s.locks[PLock(p)] == c
  {
    assert CpuOk(s.cpus[c], c, s.pc, s.on);
    assert ProcOk(p, s.tab, s.pc, s.cpus, s.on);
    assert PLock(p) in HeldBy(s.cpus[c], s.pc) <==> PLock(p) in s.locks && s.locks[PLock(p)] == c;
  }

  // ---------------------------------------------------------------- processes under one thread step

  ghost predicate SameModes(cpus: seq<Cpu>, cpus': seq<Cpu>) {
    |cpus'| == |cpus| && forall d :: 0 <= d < |cpus| ==> cpus'[d].mode == cpus[d].mode && cpus'[d].cur == cpus[d].cur
  }

  lemma ProcFrame(q: nat, tab: Tab, pc: seq<Pc>, cpus: seq<Cpu>, on: seq<Option<nat>>, tab': Tab, pc': seq<Pc>,
                  cpus': seq<Cpu>)
    requires q < |pc| == |on| == |tab.st| == |tab.chan| == |tab.parent| == |tab.maker|
    requires |pc'| == |pc| == |tab'.st| == |tab'.chan| == |tab'.parent| == |tab'.maker|
    requires ProcOk(q, tab, pc, cpus, on) && SameModes(cpus, cpus')
    requires tab'.st[q] == tab.st[q] && tab'.chan[q] == tab.chan[q] && tab'.parent[q] == tab.parent[q] &&
             tab'.maker[q] == tab.maker[q]
    requires pc'[q] == pc[q]
    requires Forking(pc[q]) && !pc[q].Fork7? ==> tab'.maker[Base(pc[q]).np] == tab.maker[Base(pc[q]).np]
    ensures ProcOk(q, tab', pc', cpus', on)
  {
  }

  lemma SleepSelf(s: State, p: nat, a: Act, cpus': seq<Cpu>)
    requires Sized(s) && p < |s.pc| && ProcOk(p, s.tab, s.pc, s.cpus, s.on) && Running(p, s.on, s.cpus) &&
             SameModes(s.cpus, cpus')
    requires !s.pc[p].NoThread? && SleepStep(s, p, a).Some? && !a.AfterSched?
    ensures var e := SleepStep(s, p, a).value; ProcOk(p, e.tab, e.pc, cpus', s.on)
  {
  }

  lemma ResumedSelf(s: State, p: nat, a: Act, cpus': seq<Cpu>)
    requires Sized(s) && p < |s.pc| && ProcOk(p, s.tab, s.pc, s.cpus, s.on) && Running(p, s.on, s.cpus) &&
             SameModes(s.cpus, cpus')
    requires SleepStep(s, p, a).Some? && a.AfterSched?
    ensures var e := SleepStep(s, p, a).value; ProcOk(p, e.tab, e.pc, cpus', s.on)
  {
  }

  lemma SleepProcs(s: State, c: nat, p: nat, a: Act, cpus': seq<Cpu>)
    requires HandoffInv(s) && c < |s.cpus| && s.cpus[c].mode == InProc(p) && SameModes(s.cpus, cpus')
    requires p < |s.pc| && SleepStep(s, p, a).Some?
    ensures var e := SleepStep(s, p, a).value;
            EffSized(e, |s.pc|) && ProcsOk(e.tab, e.pc, cpus', s.on) && OthersKept(p, s.pc, e.pc, s.on)
  {
    var e := SleepStep(s, p, a).value;
    ThreadState(s, c, p);
    if a.AfterSched? { ResumedSelf(s, p, a, cpus'); } else { SleepSelf(s, p, a, cpus'); }
    forall q: nat | q < |s.pc| ensures ProcOk(q, e.tab, e.pc, cpus', s.on) {
      assert ProcOk(q, s.tab, s.pc, s.cpus, s.on);
      if q != p { ProcFrame(q, s.tab, s.pc, s.cpus, s.on, e.tab, e.pc, cpus'); }
    }
  }

  lemma WokenProc(s: State, p: nat, i: nat, ch: Chan, q: nat)
    requires HandoffInv(s) && CanVisit(s, p, i) && q < |s.pc|
    ensures ProcOk(q, Visit(s, p, i, ch), s.pc, s.cpus, s.on)
  {
    assert ProcOk(q, s.tab, s.pc, s.cpus, s.on);
    if q == i && i != p { FreeLock(s, i); }
    else { ProcFrame(q, s.tab, s.pc, s.cpus, s.on, Visit(s, p, i, ch), s.pc, s.cpus); }
  }

  /** A step that only moves p's control point and maybe visits slot i for wakeup. */
  lemma VisitProcs(s: State, p: nat, i: nat, ch: Chan, to: Pc, cpus': seq<Cpu>)
    requires HandoffInv(s) && CanVisit(s, p, i) && p < |s.pc| && SameModes(s.cpus, cpus')
    requires s.on[p].Some? && s.tab.st[p] == RUNNING && PcOk(p, to, |s.pc|)
    requires to.Wake? || to.ExitWake? || to.Exit2?
    ensures ProcsOk(Visit(s, p, i, ch), s.pc[p := to], cpus', s.on)
  {
    var tab, pc' := Visit(s, p, i, ch), s.pc[p := to];
    forall q: nat | q < |s.pc| ensures ProcOk(q, tab, pc', cpus', s.on) {
      WokenProc(s, p, i, ch, q);
      if q != p { ProcFrame(q, tab, s.pc, s.cpus, s.on, tab, pc', cpus'); }
    }
  }

  lemma KillProcs(s: State, p: nat, a: Act, cpus': seq<Cpu>)
    requires HandoffInv(s) && p < |s.pc| && SameModes(s.cpus, cpus') && a.Kill? && WakeStep(s, p, a).Some?
    ensures var e := WakeStep(s, p, a).value; ProcsOk(e.tab, e.pc, cpus', s.on)
  {
    var e := WakeStep(s, p, a).value;
    forall q: nat | q < |s.pc| ensures ProcOk(q, e.tab, e.pc, cpus', s.on) {
      assert ProcOk(q, s.tab, s.pc, s.cpus, s.on);
      if q == a.q { FreeLock(s, q); }
      else { ProcFrame(q, s.tab, s.pc, s.cpus, s.on, e.tab, e.pc, cpus'); }
    }
  }

  lemma WakeSelf(s: State, p: nat, a: Act, cpus': seq<Cpu>)
    requires Sized(s) && p < |s.pc| && ProcOk(p, s.tab, s.pc, s.cpus, s.on) && Running(p, s.on, s.cpus) &&
             SameModes(s.cpus, cpus')
    requires !a.Kill? && (a.WakeNext? && s.pc[p].Wake? ==> s.pc[p].i >= |s.pc|)
    requires WakeStep(s, p, a).Some?
    ensures var e := WakeStep(s, p, a).value; ProcOk(p, e.tab, e.pc, cpus', s.on)
  {
  }

  lemma WakeProcs(s: State, c: nat, p: nat, a: Act, cpus': seq<Cpu>)
    requires HandoffInv(s) && c < |s.cpus| && s.cpus[c].mode == InProc(p) && SameModes(s.cpus, cpus')
    requires p < |s.pc| && WakeStep(s, p, a).Some?
    ensures var e := WakeStep(s, p, a).value;
            EffSized(e, |s.pc|) && ProcsOk(e.tab, e.pc, cpus', s.on) && OthersKept(p, s.pc, e.pc, s.on)
  {
    var e := WakeStep(s, p, a).value;
    ThreadState(s, c, p);
    if a.WakeNext? && s.pc[p].i < |s.pc| {
      VisitProcs(s, p, s.pc[p].i, s.pc[p].chan, e.pc[p], cpus');
    } else if a.Kill? {
      KillProcs(s, p, a, cpus');
    } else {
      WakeSelf(s, p, a, cpus');
      TwoSlots(s, p, p, e.tab, e.pc, cpus');
    }
  }

  lemma ReparentProcs(s: State, p: nat, a: Act, cpus': seq<Cpu>)
    requires HandoffInv(s) && p < |s.pc| && SameModes(s.cpus, cpus') && s.on[p].Some?
    requires a.ExitNext? && ExitStep(s, p, a).Some?
    ensures var e := ExitStep(s, p, a).value; ProcsOk(e.tab, e.pc, cpus', s.on)
  {
    var e := ExitStep(s, p, a).value;
    forall q: nat | q < |s.pc| ensures ProcOk(q, e.tab, e.pc, cpus', s.on) {
      assert ProcOk(q, s.tab, s.pc, s.cpus, s.on);
      if q != p && q != s.pc[p].i { ProcFrame(q, s.tab, s.pc, s.cpus, s.on, e.tab, e.pc, cpus'); }
    }
  }

  lemma ExitSelf(s: State, p: nat, a: Act, cpus': seq<Cpu>)
    requires Sized(s) && p < |s.pc| && ProcOk(p, s.tab, s.pc, s.cpus, s.on) && Running(p, s.on, s.cpus) &&
             SameModes(s.cpus, cpus')
    requires !a.ExitNext? &&
             ((a.ExitWakeInit? && s.pc[p].ExitWake?) || (a.ExitWakeParent? && s.pc[p].Exit2?) ==> s.pc[p].j >= |s.pc|)
    requires ExitStep(s, p, a).Some?
    ensures var e := ExitStep(s, p, a).value; ProcOk(p, e.tab, e.pc, cpus', s.on)
  {
  }

  lemma ExitProcs(s: State, c: nat, p: nat, a: Act, cpus': seq<Cpu>)
    requires HandoffInv(s) && c < |s.cpus| && s.cpus[c].mode == InProc(p) && SameModes(s.cpus, cpus')
    requires p < |s.pc| && ExitStep(s, p, a).Some?
    ensures var e := ExitStep(s, p, a).value;
            EffSized(e, |s.pc|) && ProcsOk(e.tab, e.pc, cpus', s.on) && OthersKept(p, s.pc, e.pc, s.on)
  {
    var e := ExitStep(s, p, a).value;
    ThreadState(s, c, p);
    if (a.ExitWakeInit? || a.ExitWakeParent?) && s.pc[p].j < |s.pc| {
      VisitProcs(s, p, s.pc[p].j,
                 if a.ExitWakeInit? then OfProc(INIT) else ParentChan(s.tab.parent[p]), e.pc[p], cpus');
    } else if a.ExitNext? {
      ReparentProcs(s, p, a, cpus');
    } else {
      ExitSelf(s, p, a, cpus');
      TwoSlots(s, p, p, e.tab, e.pc, cpus');
    }
  }

  /** REAPING.  When wait() frees a child, the child is a ZOMBIE that has left its kernel stack. */
  lemma ReapedOffCpu(s: State, c: nat, p: nat)
    requires HandoffInv(s) && c < |s.cpus| && s.cpus[c].mode == InProc(p) && p < |s.pc| && s.pc[p].Wait2?
    ensures s.pc[p].i < |s.pc| && s.pc[p].i != p
    ensures s.tab.st[s.pc[p].i] == ZOMBIE ==>
              s.on[s.pc[p].i] == None && s.pc[s.pc[p].i].Switched? && s.pc[s.pc[p].i].r.Never?
  {
    ThreadState(s, c, p);
    var i := s.pc[p].i;
    assert CpuOk(s.cpus[c], c, s.pc, s.on);
    assert PLock(i) in HeldBy(s.cpus[c], s.pc);
    assert ProcOk(i, s.tab, s.pc, s.cpus, s.on);
    if s.tab.st[i] == ZOMBIE { HeldElsewhere(s, i, c); }
  }

  /** Only the slots p and x change. */
  lemma TwoSlots(s: State, p: nat, x: nat, tab': Tab, pc': seq<Pc>, cpus': seq<Cpu>)
    requires Sized(s) && ProcsOk(s.tab, s.pc, s.cpus, s.on) && SameModes(s.cpus, cpus')
    requires |pc'| == |s.pc| == |tab'.st| == |tab'.chan| == |tab'.parent| == |tab'.maker|
    requires forall q :: 0 <= q < |s.pc| && q != p && q != x ==>
               && tab'.st[q] == s.tab.st[q] && tab'.chan[q] == s.tab.chan[q] && tab'.parent[q] == s.tab.parent[q]
               && tab'.maker[q] == s.tab.maker[q] && pc'[q] == s.pc[q]
    requires p < |s.pc| && tab'.maker[p] == s.tab.maker[p]
    requires x < |s.pc| ==> tab'.maker[x] == s.tab.maker[x] || s.tab.maker[x] == None || s.tab.maker[x] == Some(p)
    requires ProcOk(p, tab', pc', cpus', s.on) && (x < |s.pc| ==> ProcOk(x, tab', pc', cpus', s.on))
    ensures ProcsOk(tab', pc', cpus', s.on)
  {
    forall q: nat | q < |s.pc| ensures ProcOk(q, tab', pc', cpus', s.on) {
      assert ProcOk(q, s.tab, s.pc, s.cpus, s.on);
      if q != p && q != x { ProcFrame(q, s.tab, s.pc, s.cpus, s.on, tab', pc', cpus'); }
    }
  }

  lemma WaitSelf(s: State, p: nat, a: Act, cpus': seq<Cpu>)
    requires Sized(s) && p < |s.pc| && ProcOk(p, s.tab, s.pc, s.cpus, s.on) && Running(p, s.on, s.cpus) &&
             SameModes(s.cpus, cpus')
    requires WaitStep(s, p, a).Some? && !a.WaitCheck?
    ensures var e := WaitStep(s, p, a).value; ProcOk(p, e.tab, e.pc, cpus', s.on)
  {
  }

  lemma CheckSelf(s: State, p: nat, a: Act, cpus': seq<Cpu>)
    requires Sized(s) && p < |s.pc| && ProcOk(p, s.tab, s.pc, s.cpus, s.on) && Running(p, s.on, s.cpus) &&
             SameModes(s.cpus, cpus')
    requires WaitStep(s, p, a).Some? && a.WaitCheck?
    ensures var e := WaitStep(s, p, a).value; ProcOk(p, e.tab, e.pc, cpus', s.on)
  {
  }

  lemma ReapedSlot(s: State, p: nat, a: Act, i: nat, cpus': seq<Cpu>)
    requires Sized(s) && p < |s.pc| && SameModes(s.cpus, cpus') && a.WaitCheck? && WaitStep(s, p, a).Some?
    requires s.pc[p].i == i && i < |s.pc| && i != p && ProcOk(i, s.tab, s.pc, s.cpus, s.on)
    requires s.tab.st[i] == ZOMBIE ==> s.on[i] == None
    ensures var e := WaitStep(s, p, a).value; ProcOk(i, e.tab, e.pc, cpus', s.on)
  {
  }

  lemma CheckProcs(s: State, c: nat, p: nat, a: Act, cpus': seq<Cpu>)
    requires HandoffInv(s) && c < |s.cpus| && s.cpus[c].mode == InProc(p) && SameModes(s.cpus, cpus')
    requires p < |s.pc| && WaitStep(s, p, a).Some? && a.WaitCheck?
    ensures var e := WaitStep(s, p, a).value;
            EffSized(e, |s.pc|) && ProcsOk(e.tab, e.pc, cpus', s.on) && OthersKept(p, s.pc, e.pc, s.on)
  {
    var e := WaitStep(s, p, a).value;
    ThreadState(s, c, p);
    CheckSelf(s, p, a, cpus');
    ReapedOffCpu(s, c, p);
    assert ProcOk(s.pc[p].i, s.tab, s.pc, s.cpus, s.on);
    ReapedSlot(s, p, a, s.pc[p].i, cpus');
    TwoSlots(s, p, s.pc[p].i, e.tab, e.pc, cpus');
  }

  lemma WaitProcs(s: State, c: nat, p: nat, a: Act, cpus': seq<Cpu>)
    requires HandoffInv(s) && c < |s.cpus| && s.cpus[c].mode == InProc(p) && SameModes(s.cpus, cpus')
    requires p < |s.pc| && WaitStep(s, p, a).Some?
    ensures var e := WaitStep(s, p, a).value;
            EffSized(e, |s.pc|) && ProcsOk(e.tab, e.pc, cpus', s.on) && OthersKept(p, s.pc, e.pc, s.on)
  {
    var e := WaitStep(s, p, a).value;
    if a.WaitCheck? {
      CheckProcs(s, c, p, a, cpus');
    } else {
      ThreadState(s, c, p);
      WaitSelf(s, p, a, cpus');
      TwoSlots(s, p, p, e.tab, e.pc, cpus');
    }
  }

  /** A slot without a thread is on no CPU. */
  lemma NoThreadOffCpu(s: State, q: nat)
    requires HandoffInv(s) && q < |s.pc| && s.pc[q].NoThread?
    ensures s.on[q] == None
  {
    assert ProcOk(q, s.tab, s.pc, s.cpus, s.on);
    assert s.on[q].Some? ==> CpuOk(s.cpus[s.on[q].value], s.on[q].value, s.pc, s.on);
  }

  /** fork() works on a slot that only it can touch and that is on no CPU. */
  lemma ForkSlot(s: State, c: nat, p: nat)
    requires HandoffInv(s) && c < |s.cpus| && s.cpus[c].mode == InProc(p) && p < |s.pc| && Forking(s.pc[p]) &&
             !s.pc[p].Fork7?
    ensures var np := Base(s.pc[p]).np;
            && np < |s.pc| && np != p && s.tab.st[np] == USED && s.pc[np].NoThread? && s.on[np] == None
            && s.tab.maker[np] == Some(p)
  {
    ThreadState(s, c, p);
    assert ProcOk(Base(s.pc[p]).np, s.tab, s.pc, s.cpus, s.on);
    NoThreadOffCpu(s, Base(s.pc[p]).np);
  }

  lemma ForkSelf(s: State, p: nat, a: Act, cpus': seq<Cpu>)
    requires Sized(s) && p < |s.pc| && ProcOk(p, s.tab, s.pc, s.cpus, s.on) && Running(p, s.on, s.cpus) &&
             SameModes(s.cpus, cpus')
    requires ForkStep(s, p, a).Some?
    ensures var e := ForkStep(s, p, a).value; ProcOk(p, e.tab, e.pc, cpus', s.on)
  {
  }

  lemma ForkedSlot(s: State, p: nat, a: Act, np: nat, cpus': seq<Cpu>)
    requires Sized(s) && p < |s.pc| && SameModes(s.cpus, cpus') && ForkStep(s, p, a).Some?
    requires np == (if a.ForkCall? then a.np else s.pc[p].np) && np < |s.pc| && np != p
    requires ProcOk(np, s.tab, s.pc, s.cpus, s.on)
    requires !a.ForkDone? ==> s.on[np] == None && s.pc[np].NoThread?
    ensures var e := ForkStep(s, p, a).value; ProcOk(np, e.tab, e.pc, cpus', s.on)
  {
  }

  lemma ForkSized(s: State, p: nat, a: Act, np: nat)
    requires Sized(s) && p < |s.pc| && ForkStep(s, p, a).Some? && np == (if a.ForkCall? then a.np else s.pc[p].np)
    requires np < |s.pc| && (!a.ForkDone? ==> s.on[np] == None)
    ensures var e := ForkStep(s, p, a).value; EffSized(e, |s.pc|) && OthersKept(p, s.pc, e.pc, s.on)
  {
  }

  lemma ForkProcs(s: State, c: nat, p: nat, a: Act, cpus': seq<Cpu>)
    requires HandoffInv(s) && c < |s.cpus| && s.cpus[c].mode == InProc(p) && SameModes(s.cpus, cpus')
    requires p < |s.pc| && ForkStep(s, p, a).Some?
    ensures var e := ForkStep(s, p, a).value;
            EffSized(e, |s.pc|) && ProcsOk(e.tab, e.pc, cpus', s.on) && OthersKept(p, s.pc, e.pc, s.on)
  {
    ThreadState(s, c, p);
    var np := if a.ForkCall? then a.np else s.pc[p].np;
    assert ProcOk(np, s.tab, s.pc, s.cpus, s.on);
    if a.ForkCall? { NoThreadOffCpu(s, np); }
    else if !a.ForkDone? { ForkSlot(s, c, p); }
    ForkSized(s, p, a, np);
    ForkBoth(s, p, a, np, cpus');
  }

  lemma ForkBoth(s: State, p: nat, a: Act, np: nat, cpus': seq<Cpu>)
    requires Sized(s) && ProcsOk(s.tab, s.pc, s.cpus, s.on) && SameModes(s.cpus, cpus') && p < |s.pc|
    requires Running(p, s.on, s.cpus) && ForkStep(s, p, a).Some?
    requires np == (if a.ForkCall? then a.np else s.pc[p].np) && np < |s.pc| && np != p
    requires !a.ForkDone? ==> s.on[np] == None && s.pc[np].NoThread?
    requires EffSized(ForkStep(s, p, a).value, |s.pc|)
    ensures var e := ForkStep(s, p, a).value; ProcsOk(e.tab, e.pc, cpus', s.on)
  {
    var e := ForkStep(s, p, a).value;
    assert ProcOk(p, s.tab, s.pc, s.cpus, s.on);
    assert ProcOk(np, s.tab, s.pc, s.cpus, s.on);
    ForkSelf(s, p, a, cpus');
    ForkedSlot(s, p, a, np, cpus');
    TwoSlots(s, p, np, e.tab, e.pc, cpus');
  }

  lemma ThreadProcs(s: State, c: nat, p: nat, a: Act, cpus': seq<Cpu>)
    requires HandoffInv(s) && c < |s.cpus| && s.cpus[c].mode == InProc(p) && SameModes(s.cpus, cpus')
    requires p < |s.pc| && ThreadStep(s, p, a).Some?
    ensures var e := ThreadStep(s, p, a).value;
            EffSized(e, |s.pc|) && ProcsOk(e.tab, e.pc, cpus', s.on) && OthersKept(p, s.pc, e.pc, s.on)
  {
    if SleepAct(a) { SleepProcs(s, c, p, a, cpus'); }
    else if WakeAct(a) { WakeProcs(s, c, p, a, cpus'); }
    else if ExitAct(a) { ExitProcs(s, c, p, a, cpus'); }
    else if WaitAct(a) { WaitProcs(s, c, p, a, cpus'); }
    else { ForkProcs(s, c, p, a, cpus'); }
  }

  lemma ThreadInv(s: State, c: nat, a: Act)
    requires HandoffInv(s) && c < |s.cpus| && s.cpus[c].trap == NoTrap && DoThread(s, c, a).Some?
    ensures HandoffInv(DoThread(s, c, a).value)
  {
    var p := s.cpus[c].mode.p;
    var e := ThreadStep(s, p, a).value;
    var s' := DoThread(s, c, a).value;
    ThreadState(s, c, p);
    StepHeld(s, p, a);
    ThreadProcs(s, c, p, a, s.cpus);
    ThreadLocks(s, c, p, e, s');
    ThreadProcs(s, c, p, a, s'.cpus);
  }

  // ---------------------------------------------------------------- the scheduler

  /** No handler is running and no push_off() is open. */
  predicate Idle(k: Cpu) { k.trap == NoTrap && k.offs == 0 }

  /** A step by which CPU c changes only itself, control points and hand-over marks of process p. */
  ghost predicate OnlyCpu(s: State, s': State, c: nat, p: nat) {
    && |s'.cpus| == |s.cpus| && |s'.pc| == |s.pc| && |s'.on| == |s.on| && c < |s.cpus|
    && (forall d :: 0 <= d < |s.cpus| && d != c ==> s'.cpus[d] == s.cpus[d])
    && (forall q :: 0 <= q < |s.pc| && q != p ==> s'.pc[q] == s.pc[q])
    && (forall q :: 0 <= q < |s.on| && q != p ==> s'.on[q] == s.on[q])
    && (forall l :: l in s'.locks && l != PLock(p) ==> l in s.locks && s.locks[l] == s'.locks[l])
    && (forall l :: l in s.locks && l != PLock(p) ==> l in s'.locks && s.locks[l] == s'.locks[l])
  }

  /** If CPU c works on p, no other CPU does. */
  lemma OnlyOne(s: State, c: nat, d: nat, p: nat)
    requires LocksOk(s.locks, s.cpus, s.pc) && CpusOk(s.cpus, s.pc, s.on) && c < |s.cpus| && d < |s.cpus| && c != d
    requires PLock(p) in HeldBy(s.cpus[c], s.pc) || PLock(p) !in s.locks
    requires p < |s.on| && (s.on[p] == None || s.on[p] == Some(c))
    ensures s.cpus[d].mode.Scan? || s.cpus[d].mode.p != p
    ensures PLock(p) !in HeldBy(s.cpus[d], s.pc)
  {
    assert CpuOk(s.cpus[d], d, s.pc, s.on);
    assert PLock(p) in HeldBy(s.cpus[c], s.pc) <==> PLock(p) in s.locks && s.locks[PLock(p)] == c;
    assert PLock(p) in HeldBy(s.cpus[d], s.pc) <==> PLock(p) in s.locks && s.locks[PLock(p)] == d;
  }

  lemma SchedLocks(s: State, c: nat, p: nat, s': State)
    requires LocksOk(s.locks, s.cpus, s.pc) && CpusOk(s.cpus, s.pc, s.on) && c < |s.cpus| && OnlyCpu(s, s', c, p)
    requires PLock(p) in HeldBy(s.cpus[c], s.pc) || PLock(p) !in s.locks
    requires p < |s.on| && p < |s.pc| && (s.on[p] == None || s.on[p] == Some(c))
    requires HeldBy(s.cpus[c], s.pc) <= {PLock(p)} && HeldBy(s'.cpus[c], s'.pc) <= {PLock(p)}
    requires PLock(p) in HeldBy(s'.cpus[c], s'.pc) <==> PLock(p) in s'.locks
    requires PLock(p) in s'.locks ==> s'.locks[PLock(p)] == c
    requires CpuOk(s'.cpus[c], c, s'.pc, s'.on)
    ensures LocksOk(s'.locks, s'.cpus, s'.pc) && CpusOk(s'.cpus, s'.pc, s'.on)
  {
    forall d: nat | d < |s'.cpus| && d != c
      ensures CpuOk(s'.cpus[d], d, s'.pc, s'.on) && HeldBy(s'.cpus[d], s'.pc) == HeldBy(s.cpus[d], s.pc) &&
              PLock(p) !in HeldBy(s.cpus[d], s.pc)
    {
      OnlyOne(s, c, d, p);
      assert CpuOk(s.cpus[d], d, s.pc, s.on);
    }
    forall d, l | 0 <= d < |s'.cpus| ensures l in HeldBy(s'.cpus[d], s'.pc) <==> l in s'.locks && s'.locks[l] == d {
      assert l in HeldBy(s.cpus[d], s.pc) <==> l in s.locks && s.locks[l] == d;
    }
  }

  /** Only p changes, and only its marks; everything else about the processes stays. */
  lemma SchedProcs(s: State, c: nat, p: nat, s': State)
    requires HandoffInv(s) && OnlyCpu(s, s', c, p) && Sized(s') && p < |s.pc|
    requires forall d: nat :: d < |s.cpus| && d != c ==> s.cpus[d].mode.Scan? || s.cpus[d].mode.p != p
    requires s'.tab == s.tab.(st := s'.tab.st) &&
             (forall q :: 0 <= q < |s.pc| && q != p ==> s'.tab.st[q] == s.tab.st[q])
    requires s.cpus[c].mode.Scan? || s.cpus[c].mode.p == p
    requires ProcOk(p, s'.tab, s'.pc, s'.cpus, s'.on)
    ensures ProcsOk(s'.tab, s'.pc, s'.cpus, s'.on)
  {
    assert CpuOk(s.cpus[c], c, s.pc, s.on);
    forall q: nat | q < |s.pc| ensures ProcOk(q, s'.tab, s'.pc, s'.cpus, s'.on) {
      assert ProcOk(q, s.tab, s.pc, s.cpus, s.on);
    }
  }

  lemma SchedAll(s: State, c: nat, p: nat, s': State)
    requires HandoffInv(s) && OnlyCpu(s, s', c, p) && Sized(s') && p < |s.pc|
    requires s.cpus[c].mode.Scan? || s.cpus[c].mode.p == p
    requires PLock(p) in HeldBy(s.cpus[c], s.pc) || PLock(p) !in s.locks
    requires s.on[p] == None || s.on[p] == Some(c)
    requires HeldBy(s.cpus[c], s.pc) <= {PLock(p)} && HeldBy(s'.cpus[c], s'.pc) <= {PLock(p)}
    requires PLock(p) in HeldBy(s'.cpus[c], s'.pc) <==> PLock(p) in s'.locks
    requires PLock(p) in s'.locks ==> s'.locks[PLock(p)] == c
    requires CpuOk(s'.cpus[c], c, s'.pc, s'.on) && ProcOk(p, s'.tab, s'.pc, s'.cpus, s'.on)
    requires s'.tab == s.tab.(st := s'.tab.st) &&
             (forall q :: 0 <= q < |s.pc| && q != p ==> s'.tab.st[q] == s.tab.st[q])
    ensures HandoffInv(s')
  {
    SchedLocks(s, c, p, s');
    forall d: nat | d < |s.cpus| && d != c
      ensures s.cpus[d].mode.Scan? || s.cpus[d].mode.p != p { OnlyOne(s, c, d, p); }
    SchedProcs(s, c, p, s');
  }

  lemma SwtchOutInv(s: State, c: nat)
    requires HandoffInv(s) && c < |s.cpus| && Idle(s.cpus[c]) && DoSched(s, c, SwtchOut).Some?
    ensures HandoffInv(DoSched(s, c, SwtchOut).value)
  {
    var p := s.cpus[c].mode.p;
    assert CpuOk(s.cpus[c], c, s.pc, s.on);
    ThreadState(s, c, p);
    assert HeldBy(s.cpus[c], s.pc) == {PLock(p)};
    SchedAll(s, c, p, DoSched(s, c, SwtchOut).value);
  }

  lemma SwtchResumeInv(s: State, c: nat)
    requires HandoffInv(s) && c < |s.cpus| && Idle(s.cpus[c]) && DoSched(s, c, SwtchResume).Some?
    ensures HandoffInv(DoSched(s, c, SwtchResume).value)
  {
    var p := s.cpus[c].mode.p;
    assert CpuOk(s.cpus[c], c, s.pc, s.on);
    ThreadState(s, c, p);
    assert HeldBy(s.cpus[c], s.pc) == {PLock(p)};
    SchedAll(s, c, p, DoSched(s, c, SwtchResume).value);
  }

  lemma PickInv(s: State, c: nat, p: nat)
    requires HandoffInv(s) && c < |s.cpus| && Idle(s.cpus[c]) && DoSched(s, c, Pick(p)).Some?
    ensures HandoffInv(DoSched(s, c, Pick(p)).value)
  {
    assert CpuOk(s.cpus[c], c, s.pc, s.on);
    assert ProcOk(p, s.tab, s.pc, s.cpus, s.on);
    FreeLock(s, p);
    SchedAll(s, c, p, DoSched(s, c, Pick(p)).value);
  }

  lemma EnterInv(s: State, c: nat)
    requires HandoffInv(s) && c < |s.cpus| && Idle(s.cpus[c]) && DoSched(s, c, Enter).Some?
    ensures HandoffInv(DoSched(s, c, Enter).value)
  {
    var p := s.cpus[c].mode.p;
    assert CpuOk(s.cpus[c], c, s.pc, s.on);
    assert ProcOk(p, s.tab, s.pc, s.cpus, s.on);
    assert PLock(p) in HeldBy(s.cpus[c], s.pc);
    SchedAll(s, c, p, DoSched(s, c, Enter).value);
  }

  lemma ClearInv(s: State, c: nat)
    requires HandoffInv(s) && c < |s.cpus| && Idle(s.cpus[c]) && DoSched(s, c, Clear).Some?
    ensures HandoffInv(DoSched(s, c, Clear).value)
  {
    var p := s.cpus[c].mode.p;
    assert CpuOk(s.cpus[c], c, s.pc, s.on);
    assert ProcOk(p, s.tab, s.pc, s.cpus, s.on);
    assert PLock(p) in HeldBy(s.cpus[c], s.pc);
    SchedAll(s, c, p, DoSched(s, c, Clear).value);
  }

  lemma UnlockInv(s: State, c: nat)
    requires HandoffInv(s) && c < |s.cpus| && Idle(s.cpus[c]) && DoSched(s, c, Unlock).Some?
    ensures HandoffInv(DoSched(s, c, Unlock).value)
  {
    var p := s.cpus[c].mode.p;
    assert CpuOk(s.cpus[c], c, s.pc, s.on);
    assert ProcOk(p, s.tab, s.pc, s.cpus, s.on);
    assert PLock(p) in HeldBy(s.cpus[c], s.pc);
    SchedAll(s, c, p, DoSched(s, c, Unlock).value);
  }

  /** CPU c changes its counters, its handler and the locks of that handler, but not what it is
      executing below. */
  lemma CpuOnly(s: State, c: nat, k: Cpu, locks': map<Lock, nat>)
    requires LocksOk(s.locks, s.cpus, s.pc) && CpusOk(s.cpus, s.pc, s.on) && c < |s.cpus|
    requires k.mode == s.cpus[c].mode && k.cur == s.cpus[c].cur && CpuOk(k, c, s.pc, s.on)
    requires forall l :: l in locks' ==> locks'[l] < |s.cpus|
    requires forall l :: l in HeldBy(k, s.pc) <==> l in locks' && locks'[l] == c
    requires forall l :: l in locks' && locks'[l] != c ==> l in s.locks && s.locks[l] == locks'[l]
    requires forall l :: l in s.locks && s.locks[l] != c ==> l in locks' && locks'[l] == s.locks[l]
    ensures LocksOk(locks', s.cpus[c := k], s.pc) && CpusOk(s.cpus[c := k], s.pc, s.on) &&
            SameModes(s.cpus, s.cpus[c := k])
  {
    var cpus' := s.cpus[c := k];
    forall d: nat | d < |cpus'| ensures CpuOk(cpus'[d], d, s.pc, s.on) {
      if d != c { assert CpuOk(s.cpus[d], d, s.pc, s.on); }
    }
    forall d, l | 0 <= d < |cpus'| ensures l in HeldBy(cpus'[d], s.pc) <==> l in locks' && locks'[l] == d {
      if d != c { assert l in HeldBy(s.cpus[d], s.pc) <==> l in s.locks && s.locks[l] == d; }
    }
  }

  lemma CpuOnlyProcs(s: State, cpus': seq<Cpu>)
    requires Sized(s) && ProcsOk(s.tab, s.pc, s.cpus, s.on) && SameModes(s.cpus, cpus')
    ensures ProcsOk(s.tab, s.pc, cpus', s.on)
  {
    forall q: nat | q < |s.pc| ensures ProcOk(q, s.tab, s.pc, cpus', s.on) {
      assert ProcOk(q, s.tab, s.pc, s.cpus, s.on);
      ProcFrame(q, s.tab, s.pc, s.cpus, s.on, s.tab, s.pc, cpus');
    }
  }

  lemma IntrInv(s: State, c: nat, b: bool)
    requires HandoffInv(s) && c < |s.cpus| && Idle(s.cpus[c]) && DoSched(s, c, Intr(b)).Some?
    ensures HandoffInv(DoSched(s, c, Intr(b)).value)
  {
    assert CpuOk(s.cpus[c], c, s.pc, s.on);
    OwnLocks(s, c);
    CpuOnly(s, c, s.cpus[c].(intr := b), s.locks);
    CpuOnlyProcs(s, DoSched(s, c, Intr(b)).value.cpus);
  }

  lemma OwnLocks(s: State, c: nat)
    requires LocksOk(s.locks, s.cpus, s.pc) && c < |s.cpus|
    ensures forall l :: l in HeldBy(s.cpus[c], s.pc) <==> l in s.locks && s.locks[l] == c
  {
    forall l ensures l in HeldBy(s.cpus[c], s.pc) <==> l in s.locks && s.locks[l] == c {
      assert l in HeldBy(s.cpus[c], s.pc) <==> l in s.locks && s.locks[l] == c;
    }
  }

  lemma OffsInv(s: State, c: nat, a: Step)
    requires HandoffInv(s) && c < |s.cpus| && DoOffs(s, c, a).Some?
    ensures HandoffInv(DoOffs(s, c, a).value)
  {
    assert CpuOk(s.cpus[c], c, s.pc, s.on);
    OwnLocks(s, c);
    var s' := DoOffs(s, c, a).value;
    CpuOnly(s, c, s'.cpus[c], s.locks);
    CpuOnlyProcs(s, s'.cpus);
  }

  // ---------------------------------------------------------------- interrupt handlers

  lemma TrapLocks(s: State, c: nat, a: Step)
    requires HandoffInv(s) && c < |s.cpus| && s.cpus[c].offs == 0 && DoTrap(s, c, a).Some?
    ensures var s' := DoTrap(s, c, a).value;
            LocksOk(s'.locks, s'.cpus, s'.pc) && CpusOk(s'.cpus, s'.pc, s'.on) && SameModes(s.cpus, s'.cpus)
  {
    assert CpuOk(s.cpus[c], c, s.pc, s.on);
    OwnLocks(s, c);
    var s' := DoTrap(s, c, a).value;
    CpuOnly(s, c, s'.cpus[c], s'.locks);
  }

  /** The visited slot is SLEEPING with its lock free, or untouched. */
  lemma TrapProcs(s: State, c: nat, a: Step)
    requires HandoffInv(s) && c < |s.cpus| && DoTrap(s, c, a).Some? && SameModes(s.cpus, DoTrap(s, c, a).value.cpus)
    ensures var s' := DoTrap(s, c, a).value; Sized(s') && ProcsOk(s'.tab, s'.pc, s'.cpus, s'.on)
  {
    var s' := DoTrap(s, c, a).value;
    forall q: nat | q < |s.pc| ensures ProcOk(q, s'.tab, s.pc, s'.cpus, s.on) {
      assert ProcOk(q, s.tab, s.pc, s.cpus, s.on);
      if a.TrapNext? && s.cpus[c].trap.i < |s.pc| {
        WokenProc(s, Myproc(s, c), s.cpus[c].trap.i, s.cpus[c].trap.chan, q);
      }
      ProcFrame(q, s'.tab, s.pc, s.cpus, s.on, s'.tab, s.pc, s'.cpus);
    }
  }

  lemma TrapInv(s: State, c: nat, a: Step)
    requires HandoffInv(s) && c < |s.cpus| && s.cpus[c].offs == 0 && DoTrap(s, c, a).Some?
    ensures HandoffInv(DoTrap(s, c, a).value)
  {
    TrapLocks(s, c, a);
    TrapProcs(s, c, a);
  }

  lemma StepHandoff(s: State, c: nat, a: Step)
    requires HandoffInv(s) && c < |s.cpus| && Do(s, c, a).Some?
    ensures HandoffInv(Do(s, c, a).value)
  {
    match a
    case Thread(t) => ThreadInv(s, c, t);
    case SwtchOut => SwtchOutInv(s, c);
    case SwtchResume => SwtchResumeInv(s, c);
    case Pick(p) => PickInv(s, c, p);
    case Enter => EnterInv(s, c);
    case Clear => ClearInv(s, c);
    case Unlock => UnlockInv(s, c);
    case Intr(b) => IntrInv(s, c, b);
    case Push => OffsInv(s, c, a);
    case Pop => OffsInv(s, c, a);
    case _ => TrapInv(s, c, a);
  }

  /** No thread step meets a panic of spinlock.c: a lock is never acquired by the CPU that holds
      it, and only released by the CPU that does. */
  lemma NoLockPanic(s: State, c: nat, p: nat, a: Act)
    requires HandoffInv(s) && c < |s.cpus| && s.cpus[c].mode == InProc(p) && p < |s.pc| && ThreadStep(s, p, a).Some?
    requires Idle(s.cpus[c])
    ensures var op := ThreadStep(s, p, a).value.op;
            && (op.Acquire? ==> !(op.l in s.locks && s.locks[op.l] == c))
            && (op.Release? ==> op.l in s.locks && s.locks[op.l] == c && s.cpus[c].noff >= 1)
  {
    ThreadState(s, c, p);
    StepHeld(s, p, a);
    var op := ThreadStep(s, p, a).value.op;
    assert CpuOk(s.cpus[c], c, s.pc, s.on);
    if op != NoOp { assert op.l in HeldBy(s.cpus[c], s.pc) <==> op.l in s.locks && s.locks[op.l] == c; }
  }

  /** wakeup() and kill() in a thread never take a process lock that their own CPU holds. */
  lemma NoVisitPanic(s: State, c: nat, p: nat, i: nat)
    requires HandoffInv(s) && c < |s.cpus| && s.cpus[c].mode == InProc(p) && s.cpus[c].trap == NoTrap && p < |s.pc|
    requires s.pc[p].Wake? || s.pc[p].ExitWake? || s.pc[p].Exit2? || s.pc[p].Kernel?
    ensures PLock(i) in s.locks ==> s.locks[PLock(i)] != c
  {
    assert PLock(i) in HeldBy(s.cpus[c], s.pc) <==> PLock(i) in s.locks && s.locks[PLock(i)] == c;
  }

  /** Handlers and open push_off()s meet no panic either: kerneltrap() runs with interrupts off, its
      acquire() finds no lock held by this CPU, its release() its own lock, wakeup() no process
      lock, and pop_off() finds interrupts off and something to undo. */
  lemma NoTrapPanic(s: State, c: nat, l: Lock)
    requires HandoffInv(s) && c < |s.cpus|
    ensures var k := s.cpus[c];
            && (k.offs > 0 ==> k.noff >= 1 && !k.intr)
            && (k.trap != NoTrap ==> !k.intr)
            && (k.trap == Entered && l in s.locks ==> s.locks[l] != c)
            && (k.trap.Locked? || k.trap.Waking? ==>
                  && Lk(k.trap.g) in s.locks && s.locks[Lk(k.trap.g)] == c && k.noff >= 1
                  && (l.PLock? && l in s.locks ==> s.locks[l] != c))
  {
    var k := s.cpus[c];
    assert CpuOk(k, c, s.pc, s.on);
    OwnLocks(s, c);
    if k.trap.Locked? || k.trap.Waking? { assert Lk(k.trap.g) in HeldBy(k, s.pc); }
  }

  /** No call of sched() meets one of its four panics. */
  lemma NoSchedPanic(s: State, c: nat, p: nat)
    requires HandoffInv(s) && c < |s.cpus| && s.cpus[c].mode == InProc(p) && p < |s.pc| && s.pc[p].Ready?
    requires Idle(s.cpus[c])
    ensures PLock(p) in s.locks && s.locks[PLock(p)] == c
    ensures s.cpus[c].noff == 1 && s.tab.st[p] != RUNNING && !s.cpus[c].intr
    ensures DoSched(s, c, SwtchOut).Some?
  {
    ThreadState(s, c, p);
    assert CpuOk(s.cpus[c], c, s.pc, s.on);
  }
}
