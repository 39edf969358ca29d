/** Sleep and wakeup, and the family relations of fork(), exit() and wait(). */
module ProcFamily {
  import opened Prelude
  import opened ProcModel
  import opened ProcHandoff

  /** Process q has given up lk in sleep(ch, lk) and has not been woken since. */
  predicate Asleep(q: nat, ch: Chan, lk: Lock, st: PState, pc: Pc) {
    || (pc.Sleep2? && pc.chan == ch && pc.lk == lk)
    || ((pc.Ready? || pc.Switched?) && pc.r.InSleep? && pc.r.chan == ch && pc.r.lk == lk && st == SLEEPING)
  }

  /** Two threads never hold the same lock. */
  lemma OneHolder(s: State, p: nat, q: nat, l: Lock)
    requires HandoffInv(s) && p < |s.pc| && q < |s.pc| && s.on[p].Some? && s.on[q].Some?
    requires l in Held(p, s.pc[p]) && l in Held(q, s.pc[q])
    requires !s.pc[p].Switched? && !s.pc[q].Switched?
    ensures p == q
  {
    OnCpu(s, p);
    OnCpu(s, q);
    var c, d := s.on[p].value, s.on[q].value;
    assert CpuOk(s.cpus[c], c, s.pc, s.on) && CpuOk(s.cpus[d], d, s.pc, s.on);
    assert l in HeldBy(s.cpus[c], s.pc) <==> l in s.locks && s.locks[l] == c;
    assert l in HeldBy(s.cpus[d], s.pc) <==> l in s.locks && s.locks[l] == d;
  }

  /** The only thread step that puts a process to sleep on (ch, lk) is its own release of lk. */
  ghost predicate SleepsOnlyByRelease(s: State, p: nat, a: Act, e: Eff, q: nat)
    requires Sized(s) && p < |s.pc| && q < |s.pc|
  {
    EffSized(e, |s.pc|) &&
    forall ch, lk :: Asleep(q, ch, lk, e.tab.st[q], e.pc[q]) ==>
      Asleep(q, ch, lk, s.tab.st[q], s.pc[q]) ||
      (a.SleepRelease? && q == p && s.pc[p].Sleep1? && s.pc[p].chan == ch && s.pc[p].lk == lk)
  }

  lemma SleepAsleep(s: State, p: nat, a: Act, q: nat)
    requires Sized(s) && p < |s.pc| && q < |s.pc| && PcOk(p, s.pc[p], |s.pc|) && SleepStep(s, p, a).Some?
    ensures SleepsOnlyByRelease(s, p, a, SleepStep(s, p, a).value, q)
  {
  }

  lemma WakeAsleep(s: State, p: nat, a: Act, q: nat)
    requires Sized(s) && p < |s.pc| && q < |s.pc| && WakeStep(s, p, a).Some?
    ensures SleepsOnlyByRelease(s, p, a, WakeStep(s, p, a).value, q)
  {
  }

  lemma ExitAsleep(s: State, p: nat, a: Act, q: nat)
    requires Sized(s) && p < |s.pc| && q < |s.pc| && ExitStep(s, p, a).Some?
    ensures SleepsOnlyByRelease(s, p, a, ExitStep(s, p, a).value, q)
  {
  }

  lemma WaitAsleep(s: State, p: nat, a: Act, q: nat)
    requires Sized(s) && p < |s.pc| && q < |s.pc| && WaitStep(s, p, a).Some?
    ensures SleepsOnlyByRelease(s, p, a, WaitStep(s, p, a).value, q)
  {
  }

  lemma ForkAsleep(s: State, p: nat, a: Act, q: nat)
    requires Sized(s) && p < |s.pc| && q < |s.pc| && ForkStep(s, p, a).Some?
    ensures SleepsOnlyByRelease(s, p, a, ForkStep(s, p, a).value, q)
  {
  }

  lemma StepAsleep(s: State, p: nat, a: Act, q: nat)
    requires Sized(s) && p < |s.pc| && q < |s.pc| && PcOk(p, s.pc[p], |s.pc|) && ThreadStep(s, p, a).Some?
    ensures SleepsOnlyByRelease(s, p, a, ThreadStep(s, p, a).value, q)
  {
    if SleepAct(a) { SleepAsleep(s, p, a, q); }
    else if WakeAct(a) { WakeAsleep(s, p, a, q); }
    else if ExitAct(a) { ExitAsleep(s, p, a, q); }
    else if WaitAct(a) { WaitAsleep(s, p, a, q); }
    else { ForkAsleep(s, p, a, q); }
  }

  lemma SchedAsleep(s: State, c: nat, a: Step, q: nat, ch: Chan, lk: Lock)
    requires Sized(s) && c < |s.cpus| && DoSched(s, c, a).Some? && q < |s.pc|
    requires Sized(DoSched(s, c, a).value) && |DoSched(s, c, a).value.pc| == |s.pc|
    requires Asleep(q, ch, lk, DoSched(s, c, a).value.tab.st[q], DoSched(s, c, a).value.pc[q])
    ensures Asleep(q, ch, lk, s.tab.st[q], s.pc[q])
  {
  }

  // ---------------------------------------------------------------- no lost wakeup

  /** A thread in the middle of wakeup(ch) under lock g has left no sleeper on (ch, g) behind it. */
  predicate WakeOk(w: nat, st: seq<PState>, pc: seq<Pc>)
    requires w < |pc| == |st|
  {
    pc[w].Wake? ==> forall q :: 0 <= q < |pc| && q < pc[w].i && q != w ==>
      !Asleep(q, pc[w].chan, Lk(pc[w].g), st[q], pc[q])
  }

  ghost predicate WakeInv(st: seq<PState>, pc: seq<Pc>)
    requires |pc| == |st|
  {
    forall w: nat {:trigger WakeOk(w, st, pc)} :: w < |pc| ==> WakeOk(w, st, pc)
  }

  /** A slot that wakeup() visits is not asleep on its channel afterwards. */
  lemma VisitedAwake(s: State, p: nat, i: nat, ch: Chan, lk: Lock)
    requires HandoffInv(s) && CanVisit(s, p, i) && i != p
    ensures !Asleep(i, ch, lk, Visit(s, p, i, ch).st[i], s.pc[i])
  {
    FreeLock(s, i);
    if s.on[i].Some? {
      var c := s.on[i].value;
      assert CpuOk(s.cpus[c], c, s.pc, s.on);
      assert PLock(i) !in HeldBy(s.cpus[c], s.pc);
    }
  }

  lemma OtherWaker(s: State, c: nat, p: nat, a: Act, w: nat)
    requires HandoffInv(s) && c < |s.cpus| && s.cpus[c].mode == InProc(p) && p < |s.pc| && ThreadStep(s, p, a).Some?
    requires w < |s.pc| && w != p && s.pc[w].Wake? && WakeOk(w, s.tab.st, s.pc) &&
             EffSized(ThreadStep(s, p, a).value, |s.pc|)
    requires ThreadStep(s, p, a).value.pc[w] == s.pc[w]
    ensures WakeOk(w, ThreadStep(s, p, a).value.tab.st, ThreadStep(s, p, a).value.pc)
  {
    var e := ThreadStep(s, p, a).value;
    ThreadState(s, c, p);
    assert ProcOk(w, s.tab, s.pc, s.cpus, s.on);
    forall q: nat | q < |s.pc| && q < s.pc[w].i && q != w
      ensures !Asleep(q, s.pc[w].chan, Lk(s.pc[w].g), e.tab.st[q], e.pc[q]) {
      StepAsleep(s, p, a, q);
      if s.pc[p].Sleep1? && s.pc[p].lk == Lk(s.pc[w].g) { OneHolder(s, p, w, Lk(s.pc[w].g)); }
    }
  }

  lemma ScannedAwake(s: State, p: nat)
    requires HandoffInv(s) && p < |s.pc| && s.pc[p].Wake? && WakeOk(p, s.tab.st, s.pc)
    requires s.pc[p].i < |s.pc| && CanVisit(s, p, s.pc[p].i)
    ensures var v := Visit(s, p, s.pc[p].i, s.pc[p].chan);
            forall q: nat :: q < |s.pc| && q < s.pc[p].i + 1 && q != p ==>
              !Asleep(q, s.pc[p].chan, Lk(s.pc[p].g), v.st[q], s.pc[q])
  {
    var i, ch, g := s.pc[p].i, s.pc[p].chan, s.pc[p].g;
    if i != p { VisitedAwake(s, p, i, ch, Lk(g)); }
    var v := Visit(s, p, i, ch);
    forall q: nat | q < i && q != p ensures !Asleep(q, ch, Lk(g), v.st[q], s.pc[q]) {}
  }

  /** Only WakeNext moves a scan along; any other step of p leaves it outside wakeup() or at slot 0. */
  lemma ScanStep(s: State, p: nat, a: Act)
    requires Sized(s) && p < |s.pc| && WakeStep(s, p, a).Some?
    ensures var e := WakeStep(s, p, a).value;
            |e.pc| == |s.pc| && (e.pc[p].Wake? && e.pc[p].i > 0 ==>
              && s.pc[p].Wake? && s.pc[p].i < |s.pc| && CanVisit(s, p, s.pc[p].i)
              && e.pc == s.pc[p := Wake(s.pc[p].chan, s.pc[p].g, s.pc[p].i + 1)]
              && e.tab == Visit(s, p, s.pc[p].i, s.pc[p].chan))
  {
  }

  lemma OutsideScan(s: State, p: nat, a: Act)
    requires Sized(s) && p < |s.pc| && PcOk(p, s.pc[p], |s.pc|) && ThreadStep(s, p, a).Some? && !WakeAct(a)
    ensures var e := ThreadStep(s, p, a).value; |e.pc| == |s.pc| && !e.pc[p].Wake?
  {
    if SleepAct(a) { OutsideSleep(s, p, a); }
    else if ExitAct(a) { OutsideExit(s, p, a); }
  }

  lemma OutsideSleep(s: State, p: nat, a: Act)
    requires Sized(s) && p < |s.pc| && PcOk(p, s.pc[p], |s.pc|) && SleepStep(s, p, a).Some?
    ensures var e := SleepStep(s, p, a).value; |e.pc| == |s.pc| && !e.pc[p].Wake?
  {
  }

  lemma OutsideExit(s: State, p: nat, a: Act)
    requires Sized(s) && p < |s.pc| && ExitStep(s, p, a).Some?
    ensures var e := ExitStep(s, p, a).value; |e.pc| == |s.pc| && !e.pc[p].Wake?
  {
  }

  lemma OwnWaker(s: State, p: nat, a: Act)
    requires HandoffInv(s) && p < |s.pc| && ThreadStep(s, p, a).Some?
    requires WakeOk(p, s.tab.st, s.pc) && EffSized(ThreadStep(s, p, a).value, |s.pc|)
    ensures WakeOk(p, ThreadStep(s, p, a).value.tab.st, ThreadStep(s, p, a).value.pc)
  {
    var e := ThreadStep(s, p, a).value;
    assert ProcOk(p, s.tab, s.pc, s.cpus, s.on);
    if WakeAct(a) {
      ScanStep(s, p, a);
      if e.pc[p].Wake? && e.pc[p].i > 0 { ScannedAwake(s, p); }
    } else {
      OutsideScan(s, p, a);
    }
  }

  lemma ThreadWake(s: State, c: nat, p: nat, a: Act)
    requires HandoffInv(s) && WakeInv(s.tab.st, s.pc) && c < |s.cpus| && s.cpus[c].mode == InProc(p) && p < |s.pc| &&
             ThreadStep(s, p, a).Some?
    ensures var e := ThreadStep(s, p, a).value; EffSized(e, |s.pc|) && WakeInv(e.tab.st, e.pc)
  {
    var e := ThreadStep(s, p, a).value;
    ThreadProcs(s, c, p, a, s.cpus);
    forall w: nat | w < |s.pc| ensures WakeOk(w, e.tab.st, e.pc) {
      assert WakeOk(w, s.tab.st, s.pc);
      assert ProcOk(w, e.tab, e.pc, s.cpus, s.on);
      if w == p { OwnWaker(s, p, a); }
      else if e.pc[w].Wake? { OtherWaker(s, c, p, a, w); }
    }
  }

  /** A step that is not a thread's puts nobody to sleep. */
  lemma OtherAsleep(s: State, c: nat, a: Step, q: nat, ch: Chan, lk: Lock)
    requires Sized(s) && c < |s.cpus| && !a.Thread? && Do(s, c, a).Some? && q < |s.pc|
    requires Sized(Do(s, c, a).value) && |Do(s, c, a).value.pc| == |s.pc|
    requires Asleep(q, ch, lk, Do(s, c, a).value.tab.st[q], Do(s, c, a).value.pc[q])
    ensures Asleep(q, ch, lk, s.tab.st[q], s.pc[q])
  {
    if !OffStep(a) && !TrapStep(a) { SchedAsleep(s, c, a, q, ch, lk); }
  }

  lemma OtherStepWake(s: State, c: nat, a: Step, w: nat)
    requires Sized(s) && c < |s.cpus| && !a.Thread? && Do(s, c, a).Some? && w < |s.pc| && WakeOk(w, s.tab.st, s.pc)
    requires Sized(Do(s, c, a).value) && |Do(s, c, a).value.pc| == |s.pc|
    ensures WakeOk(w, Do(s, c, a).value.tab.st, Do(s, c, a).value.pc)
  {
    var s' := Do(s, c, a).value;
    if s'.pc[w].Wake? {
      forall q: nat | q < |s.pc| && q < s.pc[w].i && q != w
        ensures !Asleep(q, s.pc[w].chan, Lk(s.pc[w].g), s'.tab.st[q], s'.pc[q])
      {
        if Asleep(q, s.pc[w].chan, Lk(s.pc[w].g), s'.tab.st[q], s'.pc[q]) {
          OtherAsleep(s, c, a, q, s.pc[w].chan, Lk(s.pc[w].g));
        }
      }
    }
  }

  lemma StepWake(s: State, c: nat, a: Step)
    requires HandoffInv(s) && WakeInv(s.tab.st, s.pc) && c < |s.cpus| && Do(s, c, a).Some?
    ensures var s' := Do(s, c, a).value; Sized(s') && WakeInv(s'.tab.st, s'.pc)
  {
    var s' := Do(s, c, a).value;
    StepHandoff(s, c, a);
    if a.Thread? {
      ThreadWake(s, c, s.cpus[c].mode.p, a.a);
    } else {
      forall w: nat | w < |s'.pc| ensures WakeOk(w, s'.tab.st, s'.pc) {
        assert WakeOk(w, s.tab.st, s.pc);
        OtherStepWake(s, c, a, w);
      }
    }
  }

  // ---------------------------------------------------------------- wakeup() in interrupt handlers

  /** A handler in the middle of wakeup(ch) under lock g has left no sleeper on (ch, g) behind it. */
  predicate HandlerOk(t: Trap, st: seq<PState>, pc: seq<Pc>)
    requires |pc| == |st|
  {
    t.Waking? ==> forall q :: 0 <= q < |pc| && q < t.i ==> !Asleep(q, t.chan, Lk(t.g), st[q], pc[q])
  }

  ghost predicate HandlersInv(st: seq<PState>, pc: seq<Pc>, cpus: seq<Cpu>)
    requires |pc| == |st|
  {
    forall d: nat {:trigger HandlerOk(cpus[d].trap, st, pc)} :: d < |cpus| ==> HandlerOk(cpus[d].trap, st, pc)
  }

  /** While a handler on CPU d holds lock g, no thread that could step is about to give it up in sleep(). */
  lemma HandlerExclusive(s: State, c: nat, p: nat, d: nat)
    requires HandoffInv(s) && c < |s.cpus| && d < |s.cpus| && s.cpus[c].mode == InProc(p) && s.cpus[c].trap == NoTrap
    requires s.cpus[d].trap.Waking? && p < |s.pc| && s.pc[p].Sleep1?
    ensures s.pc[p].lk != Lk(s.cpus[d].trap.g)
  {
    var l := Lk(s.cpus[d].trap.g);
    assert l in HeldBy(s.cpus[c], s.pc) <==> l in s.locks && s.locks[l] == c;
    assert l in HeldBy(s.cpus[d], s.pc) <==> l in s.locks && s.locks[l] == d;
  }

  lemma ThreadHandlers(s: State, c: nat, p: nat, a: Act, d: nat)
    requires HandoffInv(s) && c < |s.cpus| && s.cpus[c].mode == InProc(p) && s.cpus[c].trap == NoTrap && p < |s.pc|
    requires ThreadStep(s, p, a).Some? && EffSized(ThreadStep(s, p, a).value, |s.pc|)
    requires d < |s.cpus| && HandlerOk(s.cpus[d].trap, s.tab.st, s.pc)
    ensures var e := ThreadStep(s, p, a).value; HandlerOk(s.cpus[d].trap, e.tab.st, e.pc)
  {
    var e, t := ThreadStep(s, p, a).value, s.cpus[d].trap;
    assert ProcOk(p, s.tab, s.pc, s.cpus, s.on);
    if t.Waking? {
      forall q: nat | q < |s.pc| && q < t.i ensures !Asleep(q, t.chan, Lk(t.g), e.tab.st[q], e.pc[q]) {
        StepAsleep(s, p, a, q);
        if s.pc[p].Sleep1? { HandlerExclusive(s, c, p, d); }
      }
    }
  }

  /** The interrupted process is not asleep, and the slot just visited is awake. */
  lemma NextHandler(s: State, c: nat)
    requires HandoffInv(s) && c < |s.cpus| && s.cpus[c].trap.Waking? && HandlerOk(s.cpus[c].trap, s.tab.st, s.pc)
    requires s.cpus[c].trap.i < |s.pc| && CanVisit(s, Myproc(s, c), s.cpus[c].trap.i)
    ensures var t := s.cpus[c].trap;
            HandlerOk(Waking(t.chan, t.g, t.i + 1), Visit(s, Myproc(s, c), t.i, t.chan).st, s.pc)
  {
    var t := s.cpus[c].trap;
    assert CpuOk(s.cpus[c], c, s.pc, s.on);
    if t.i != Myproc(s, c) { VisitedAwake(s, Myproc(s, c), t.i, t.chan, Lk(t.g)); }
    else { ThreadState(s, c, t.i); }
  }

  lemma OtherHandlers(s: State, c: nat, a: Step, t: Trap)
    requires Sized(s) && c < |s.cpus| && !a.Thread? && Do(s, c, a).Some? && HandlerOk(t, s.tab.st, s.pc)
    requires Sized(Do(s, c, a).value) && |Do(s, c, a).value.pc| == |s.pc|
    ensures HandlerOk(t, Do(s, c, a).value.tab.st, Do(s, c, a).value.pc)
  {
    var s' := Do(s, c, a).value;
    if t.Waking? {
      forall q: nat | q < |s.pc| && q < t.i ensures !Asleep(q, t.chan, Lk(t.g), s'.tab.st[q], s'.pc[q]) {
        if Asleep(q, t.chan, Lk(t.g), s'.tab.st[q], s'.pc[q]) { OtherAsleep(s, c, a, q, t.chan, Lk(t.g)); }
      }
    }
  }

  lemma StepHandlers(s: State, c: nat, a: Step)
    requires HandoffInv(s) && HandlersInv(s.tab.st, s.pc, s.cpus) && c < |s.cpus| && Do(s, c, a).Some?
    ensures var s' := Do(s, c, a).value; Sized(s') && HandlersInv(s'.tab.st, s'.pc, s'.cpus)
  {
    var s' := Do(s, c, a).value;
    StepHandoff(s, c, a);
    forall d: nat | d < |s'.cpus| ensures HandlerOk(s'.cpus[d].trap, s'.tab.st, s'.pc) {
      assert HandlerOk(s.cpus[d].trap, s.tab.st, s.pc);
      if a.Thread? {
        ThreadState(s, c, s.cpus[c].mode.p);
        ThreadProcs(s, c, s.cpus[c].mode.p, a.a, s.cpus);
        ThreadHandlers(s, c, s.cpus[c].mode.p, a.a, d);
      } else if d == c && a.TrapNext? && s.cpus[c].trap.i < |s.pc| {
        NextHandler(s, c);
      } else {
        OtherHandlers(s, c, a, s.cpus[d].trap);
      }
    }
  }

  // ---------------------------------------------------------------- parents and children

  predicate NoKids(tab: Tab, q: nat, i: nat) {
    forall r :: 0 <= r < |tab.parent| && r < i ==> tab.parent[r] != Some(q)
  }

  predicate NoZombies(tab: Tab, q: nat, i: nat)
    requires |tab.parent| == |tab.st|
  {
    forall r :: 0 <= r < |tab.parent| && r < i && tab.parent[r] == Some(q) ==> tab.st[r] != ZOMBIE
  }

  /** A process that others may have as parent: it has a thread and is not yet a ZOMBIE. */
  predicate Alive(pc: Pc) {
    !pc.NoThread? && !pc.Exit5? && !((pc.Ready? || pc.Switched?) && pc.r.Never?)
  }

  /** Asleep in wait(). */
  predicate Waiting(q: nat, st: PState, pc: Pc) {
    Asleep(q, OfProc(q), WaitLock, st, pc)
  }

  /** reparent() has just handed a child to init and not yet woken it. */
  ghost predicate WakingInit(pc: seq<Pc>) {
    exists w :: 0 <= w < |pc| && pc[w].ExitWake? && pc[w].j <= INIT
  }

  /** The parent pointer of q is sound, and fork(), exit() and wait() are where they claim to be. */
  predicate KinOk(q: nat, tab: Tab, pc: seq<Pc>)
    requires q < |pc| && TabSized(tab, |pc|)
  {
    && (tab.parent[q].Some? ==> tab.parent[q].value < |pc| && Alive(pc[tab.parent[q].value]))
    && (tab.st[q] == UNUSED ==> tab.parent[q] == None)
    && (q != INIT && !pc[q].NoThread? ==> tab.parent[q].Some?)
    && ((Base(pc[q]).Fork1? || Base(pc[q]).Fork2? || Base(pc[q]).Fork3?) && Base(pc[q]).np < |pc| ==>
          tab.parent[Base(pc[q]).np] == None)
    && ((Base(pc[q]).Fork4? || Base(pc[q]).Fork5? || Base(pc[q]).Fork6?) && Base(pc[q]).np < |pc| ==>
          tab.parent[Base(pc[q]).np] == Some(q))
    && (pc[q].Exit1? ==> NoKids(tab, q, pc[q].i))
    && (pc[q].ExitWake? ==> NoKids(tab, q, pc[q].i + 1))
    && (Exiting(pc[q]) && !pc[q].Exit1? && !pc[q].ExitWake? ==> NoKids(tab, q, |pc|))
  }

  /** Nobody is left sleeping in wait() with a ZOMBIE child. */
  ghost predicate ReapOk(q: nat, tab: Tab, pc: seq<Pc>)
    requires q < |pc| && TabSized(tab, |pc|) && INIT < |pc|
  {
    && (pc[q].Wait1? || pc[q].Wait2? ==> NoZombies(tab, q, pc[q].i))
    && (pc[q].Wait2? && pc[q].i < |pc| ==> tab.parent[pc[q].i] == Some(q))
    && (pc[q].Sleep1? && pc[q].lk == WaitLock ==> NoZombies(tab, q, |pc|))
    && (Waiting(q, tab.st[q], pc[q]) ==> NoZombies(tab, q, |pc|) || (q == INIT && WakingInit(pc)))
    && (pc[q].ExitWake? && pc[q].j > INIT ==> !Waiting(INIT, tab.st[INIT], pc[INIT]))
    && ((pc[q].Exit2? || pc[q].Exit3? || pc[q].Exit4?) && tab.parent[q].Some? && tab.parent[q].value < |pc| ==>
          (pc[q].Exit2? ==> tab.parent[q].value < pc[q].j) ==>
            !Waiting(tab.parent[q].value, tab.st[tab.parent[q].value], pc[tab.parent[q].value]))
  }

  ghost predicate KinInv(tab: Tab, pc: seq<Pc>)
    requires TabSized(tab, |pc|)
  {
    forall q: nat {:trigger KinOk(q, tab, pc)} :: q < |pc| ==> KinOk(q, tab, pc)
  }

  ghost predicate ReapInv(tab: Tab, pc: seq<Pc>)
    requires TabSized(tab, |pc|) && INIT < |pc|
  {
    forall q: nat {:trigger ReapOk(q, tab, pc)} :: q < |pc| ==> ReapOk(q, tab, pc)
  }
}
