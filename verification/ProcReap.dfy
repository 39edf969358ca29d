/** Nobody is left sleeping in wait() with a ZOMBIE child, and pids are reaped once. */
module ProcReap {
  import opened Prelude
  import opened ProcModel
  import opened ProcHandoff
  import opened ProcFamily

  /** While p holds wait_lock, no other thread is at a point that needs it. */
  ghost predicate Alone(p: nat, pc: seq<Pc>) {
    forall q :: 0 <= q < |pc| && q != p ==> WaitLock !in Held(q, pc[q])
  }

  lemma WaitExclusive(s: State, p: nat)
    requires HandoffInv(s) && p < |s.pc| && s.on[p].Some? && !s.pc[p].Switched? && WaitLock in Held(p, s.pc[p])
    ensures Alone(p, s.pc)
  {
    forall q: nat | q < |s.pc| && q != p ensures WaitLock !in Held(q, s.pc[q]) {
      assert ProcOk(q, s.tab, s.pc, s.cpus, s.on);
      if WaitLock in Held(q, s.pc[q]) { OneHolder(s, p, q, WaitLock); }
    }
  }

  /** Nobody but p becomes Waiting, nobody becomes a ZOMBIE or gets another parent. */
  ghost predicate Calm(p: nat, tab: Tab, pc: seq<Pc>, tab': Tab, pc': seq<Pc>)
    requires TabSized(tab, |pc|) && TabSized(tab', |pc|) && |pc'| == |pc|
  {
    && tab'.parent == tab.parent
    && (forall q :: 0 <= q < |pc| && q != p ==> pc'[q] == pc[q])
    && (forall q :: 0 <= q < |pc| && tab'.st[q] == ZOMBIE ==> tab.st[q] == ZOMBIE)
    && (forall q: nat :: q < |pc| && q != p && Waiting(q, tab'.st[q], pc'[q]) ==> Waiting(q, tab.st[q], pc[q]))
  }

  lemma ReapOther(p: nat, q: nat, tab: Tab, pc: seq<Pc>, tab': Tab, pc': seq<Pc>)
    requires TabSized(tab, |pc|) && TabSized(tab', |pc|) && |pc'| == |pc| && INIT < |pc| && p < |pc|
    requires q < |pc| && q != p && ReapOk(q, tab, pc) && Calm(p, tab, pc, tab', pc')
    requires Waiting(p, tab'.st[p], pc'[p]) ==> Waiting(p, tab.st[p], pc[p]) || Alone(p, pc)
    requires WakingInit(pc) ==> WakingInit(pc') || !Waiting(INIT, tab'.st[INIT], pc'[INIT])
    ensures ReapOk(q, tab', pc')
  {
  }

  lemma ReapFrame(p: nat, tab: Tab, pc: seq<Pc>, tab': Tab, pc': seq<Pc>)
    requires TabSized(tab, |pc|) && TabSized(tab', |pc|) && |pc'| == |pc| && INIT < |pc| && p < |pc|
    requires ReapInv(tab, pc) && Calm(p, tab, pc, tab', pc') && ReapOk(p, tab', pc')
    requires Waiting(p, tab'.st[p], pc'[p]) ==> Waiting(p, tab.st[p], pc[p]) || Alone(p, pc)
    requires WakingInit(pc) ==> WakingInit(pc') || !Waiting(INIT, tab'.st[INIT], pc'[INIT])
    ensures ReapInv(tab', pc')
  {
    forall q: nat | q < |pc'| ensures ReapOk(q, tab', pc') {
      assert ReapOk(q, tab, pc);
      if q != p { ReapOther(p, q, tab, pc, tab', pc'); }
    }
  }

  lemma WakingKept(p: nat, pc: seq<Pc>, pc': seq<Pc>)
    requires |pc'| == |pc| && p < |pc| && (!pc[p].ExitWake? || pc'[p] == pc[p]) &&
             forall q :: 0 <= q < |pc| && q != p ==> pc'[q] == pc[q]
    ensures WakingInit(pc) ==> WakingInit(pc')
  {
    if WakingInit(pc) {
      var w :| 0 <= w < |pc| && pc[w].ExitWake? && pc[w].j <= INIT;
      assert pc'[w].ExitWake? && pc'[w].j <= INIT;
    }
  }

  lemma SleepReap(s: State, p: nat, a: Act)
    requires Sized(s) && ReapInv(s.tab, s.pc) && p < |s.pc| && PcOk(p, s.pc[p], |s.pc|) && SleepStep(s, p, a).Some?
    requires WaitLock in Held(p, s.pc[p]) ==> Alone(p, s.pc)
    ensures var e := SleepStep(s, p, a).value; EffSized(e, |s.pc|) && ReapInv(e.tab, e.pc)
  {
    var e := SleepStep(s, p, a).value;
    assert ReapOk(p, s.tab, s.pc);
    WakingKept(p, s.pc, e.pc);
    SleepSelfReap(s, p, a);
    ReapFrame(p, s.tab, s.pc, e.tab, e.pc);
  }

  lemma SleepSelfReap(s: State, p: nat, a: Act)
    requires Sized(s) && p < |s.pc| && ReapOk(p, s.tab, s.pc) && PcOk(p, s.pc[p], |s.pc|) && SleepStep(s, p, a).Some?
    requires WakingInit(s.pc) ==> WakingInit(SleepStep(s, p, a).value.pc)
    ensures var e := SleepStep(s, p, a).value; EffSized(e, |s.pc|) && ReapOk(p, e.tab, e.pc)
  {
  }

  lemma WakeReap(s: State, p: nat, a: Act)
    requires Sized(s) && ReapInv(s.tab, s.pc) && p < |s.pc| && WakeStep(s, p, a).Some?
    ensures var e := WakeStep(s, p, a).value; EffSized(e, |s.pc|) && ReapInv(e.tab, e.pc)
  {
    var e := WakeStep(s, p, a).value;
    WakingKept(p, s.pc, e.pc);
    ReapFrame(p, s.tab, s.pc, e.tab, e.pc);
  }

  /** The wakeup of init after it got a child. */
  lemma WakeInitReap(s: State, p: nat, a: Act)
    requires HandoffInv(s) && ReapInv(s.tab, s.pc) && p < |s.pc| && p != INIT && a.ExitWakeInit? &&
             ExitStep(s, p, a).Some?
    requires Alone(p, s.pc)
    ensures var e := ExitStep(s, p, a).value; EffSized(e, |s.pc|) && ReapInv(e.tab, e.pc)
  {
    var e := ExitStep(s, p, a).value;
    assert ReapOk(p, s.tab, s.pc);
    if s.pc[p].j == INIT { VisitedAwake(s, p, INIT, OfProc(INIT), WaitLock); }
    ReapFrame(p, s.tab, s.pc, e.tab, e.pc);
  }

  /** The wakeup of the parent, before the child is a ZOMBIE. */
  lemma WakeParentReap(s: State, p: nat, a: Act)
    requires HandoffInv(s) && ReapInv(s.tab, s.pc) && p < |s.pc| && a.ExitWakeParent? && ExitStep(s, p, a).Some?
    requires Alone(p, s.pc) && (s.tab.parent[p].Some? ==> s.tab.parent[p].value < |s.pc| && s.tab.parent[p].value != p)
    ensures var e := ExitStep(s, p, a).value; EffSized(e, |s.pc|) && ReapInv(e.tab, e.pc)
  {
    var e := ExitStep(s, p, a).value;
    assert ReapOk(p, s.tab, s.pc);
    var j := s.pc[p].j;
    if j < |s.pc| && j != p { VisitedAwake(s, p, j, ParentChan(s.tab.parent[p]), WaitLock); }
    assert !WakingInit(s.pc);
    ReapFrame(p, s.tab, s.pc, e.tab, e.pc);
  }

  lemma AdoptedReap(tab: Tab, pc: seq<Pc>, p: nat, i: nat, q: nat)
    requires TabSized(tab, |pc|) && p < |pc| && p != INIT && i < |pc| && q < |pc| && Alone(p, pc) && pc[p].Exit1?
    requires ReapOk(q, tab, pc)
    ensures ReapOk(q, tab.(parent := tab.parent[i := Some(INIT)]), pc[p := ExitWake(i, 0)])
  {
    assert pc[p := ExitWake(i, 0)][p].ExitWake?;
  }

  /** reparent() gives child i to init, which may be Waiting: excused until the wakeup that follows. */
  lemma ReparentReap(s: State, p: nat, a: Act)
    requires Sized(s) && ReapInv(s.tab, s.pc) && p < |s.pc| && p != INIT && a.ExitNext? && ExitStep(s, p, a).Some?
    requires Alone(p, s.pc)
    ensures var e := ExitStep(s, p, a).value; EffSized(e, |s.pc|) && ReapInv(e.tab, e.pc)
  {
    var e := ExitStep(s, p, a).value;
    assert ReapOk(p, s.tab, s.pc);
    WakingKept(p, s.pc, e.pc);
    if e.tab.parent == s.tab.parent {
      ReapFrame(p, s.tab, s.pc, e.tab, e.pc);
    } else {
      assert e.pc[p].ExitWake? && e.pc[p].j <= INIT;
      forall q: nat | q < |s.pc| ensures ReapOk(q, e.tab, e.pc) {
        assert ReapOk(q, s.tab, s.pc);
        AdoptedReap(s.tab, s.pc, p, s.pc[p].i, q);
      }
    }
  }

  /** At the moment p becomes a ZOMBIE its parent is awake, and stays so while p holds wait_lock. */
  lemma ZombieReap(s: State, p: nat, a: Act)
    requires Sized(s) && ReapInv(s.tab, s.pc) && p < |s.pc| && a.ExitZombie? && ExitStep(s, p, a).Some?
    requires Alone(p, s.pc) && (s.tab.parent[p].Some? ==> s.tab.parent[p].value < |s.pc| && s.tab.parent[p].value != p)
    ensures var e := ExitStep(s, p, a).value; EffSized(e, |s.pc|) && ReapInv(e.tab, e.pc)
  {
    var e := ExitStep(s, p, a).value;
    assert ReapOk(p, s.tab, s.pc);
    assert !WakingInit(s.pc);
    forall q: nat | q < |s.pc| ensures ReapOk(q, e.tab, e.pc) {
      assert ReapOk(q, s.tab, s.pc);
    }
  }

  lemma ExitOtherReap(s: State, p: nat, a: Act)
    requires Sized(s) && ReapInv(s.tab, s.pc) && p < |s.pc| && (a.ExitCall? || a.ExitLock? || a.ExitRelease?) &&
             ExitStep(s, p, a).Some?
    ensures var e := ExitStep(s, p, a).value; EffSized(e, |s.pc|) && ReapInv(e.tab, e.pc)
  {
    var e := ExitStep(s, p, a).value;
    assert ReapOk(p, s.tab, s.pc);
    WakingKept(p, s.pc, e.pc);
    ReapFrame(p, s.tab, s.pc, e.tab, e.pc);
  }

  lemma WaitReap(s: State, p: nat, a: Act)
    requires Sized(s) && ReapInv(s.tab, s.pc) && p < |s.pc| && !a.WaitCheck? && WaitStep(s, p, a).Some?
    ensures var e := WaitStep(s, p, a).value; EffSized(e, |s.pc|) && ReapInv(e.tab, e.pc)
  {
    var e := WaitStep(s, p, a).value;
    assert ReapOk(p, s.tab, s.pc);
    WakingKept(p, s.pc, e.pc);
    ReapFrame(p, s.tab, s.pc, e.tab, e.pc);
  }

  lemma CheckReap(s: State, p: nat, a: Act, i: nat)
    requires Alone(p, s.pc) && Sized(s) && ReapInv(s.tab, s.pc) && p < |s.pc| && a.WaitCheck? && WaitStep(s, p, a).Some?
    requires s.pc[p].i == i && i < |s.pc| && i != p && (s.tab.st[i] == ZOMBIE ==> s.pc[i].Switched? && i != INIT)
    ensures var e := WaitStep(s, p, a).value; EffSized(e, |s.pc|) && ReapInv(e.tab, e.pc)
  {
    var e := WaitStep(s, p, a).value;
    assert ReapOk(p, s.tab, s.pc);
    if s.tab.st[i] != ZOMBIE || !a.copied {
      WakingKept(p, s.pc, e.pc);
      ReapFrame(p, s.tab, s.pc, e.tab, e.pc);
    } else {
      WakingKept(p, s.pc, s.pc[p := Wait3]);
      WakingKept(i, s.pc[p := Wait3], e.pc);
      FreedReap(s.tab, s.pc, e.tab, e.pc, p, i);
    }
  }

  lemma FreedReap(tab: Tab, pc: seq<Pc>, tab': Tab, pc': seq<Pc>, p: nat, i: nat)
    requires TabSized(tab, |pc|) && TabSized(tab', |pc|) && |pc'| == |pc| && INIT < |pc| && ReapInv(tab, pc)
    requires Alone(p, pc) && p < |pc| && i < |pc| && i != p && i != INIT && pc' == pc[p := Wait3][i := NoThread]
    requires tab'.parent == tab.parent[i := None] && tab'.st == tab.st[i := UNUSED] &&
             (WakingInit(pc) ==> WakingInit(pc'))
    ensures ReapInv(tab', pc')
  {
    forall q: nat | q < |pc'| ensures ReapOk(q, tab', pc') {
      assert ReapOk(q, tab, pc);
    }
  }

  lemma ParentSetReap(s: State, p: nat, a: Act, np: nat, q: nat)
    requires Alone(p, s.pc) && Sized(s) && p < |s.pc| && a.ForkParent? && ForkStep(s, p, a).Some?
    requires np == s.pc[p].np && np < |s.pc| && np != p && q < |s.pc| && ReapOk(q, s.tab, s.pc)
    requires s.pc[np].NoThread? && np != INIT && s.tab.st[np] in {UNUSED, USED}
    requires WakingInit(s.pc) ==> WakingInit(ForkStep(s, p, a).value.pc)
    ensures var e := ForkStep(s, p, a).value; EffSized(e, |s.pc|) && ReapOk(q, e.tab, e.pc)
  {
  }

  lemma RunnableReap(s: State, p: nat, a: Act, np: nat, q: nat)
    requires Sized(s) && p < |s.pc| && a.ForkSet? && ForkStep(s, p, a).Some?
    requires np == s.pc[p].np && np < |s.pc| && np != p && q < |s.pc| && ReapOk(q, s.tab, s.pc)
    requires s.pc[np].NoThread? && np != INIT && s.tab.st[np] in {UNUSED, USED}
    requires WakingInit(s.pc) ==> WakingInit(ForkStep(s, p, a).value.pc)
    ensures var e := ForkStep(s, p, a).value; EffSized(e, |s.pc|) && ReapOk(q, e.tab, e.pc)
  {
  }

  lemma ForkSlotReap(s: State, p: nat, a: Act, np: nat)
    requires (a.ForkParent? ==> Alone(p, s.pc)) && Sized(s) && ReapInv(s.tab, s.pc) && p < |s.pc| &&
             (a.ForkParent? || a.ForkSet?) && ForkStep(s, p, a).Some?
    requires np == s.pc[p].np && np < |s.pc| && np != p
    requires s.pc[np].NoThread? && np != INIT && s.tab.st[np] in {UNUSED, USED}
    ensures var e := ForkStep(s, p, a).value; EffSized(e, |s.pc|) && ReapInv(e.tab, e.pc)
  {
    var e := ForkStep(s, p, a).value;
    WakingKept(p, s.pc, s.pc[p := e.pc[p]]);
    WakingKept(np, s.pc[p := e.pc[p]], e.pc);
    forall q: nat | q < |s.pc| ensures ReapOk(q, e.tab, e.pc) {
      assert ReapOk(q, s.tab, s.pc);
      if a.ForkParent? { ParentSetReap(s, p, a, np, q); } else { RunnableReap(s, p, a, np, q); }
    }
  }

  lemma ForkReap(s: State, p: nat, a: Act, np: nat)
    requires (a.ForkParent? ==> Alone(p, s.pc)) && Sized(s) && ReapInv(s.tab, s.pc) && p < |s.pc| &&
             ForkStep(s, p, a).Some?
    requires np == (if a.ForkCall? then a.np else s.pc[p].np) && np < |s.pc| && np != p
    requires !a.ForkDone? ==> s.pc[np].NoThread? && np != INIT && s.tab.st[np] in {UNUSED, USED}
    requires a.ForkFail? ==> s.tab.parent[np] == None
    ensures var e := ForkStep(s, p, a).value; EffSized(e, |s.pc|) && ReapInv(e.tab, e.pc)
  {
    if a.ForkParent? || a.ForkSet? {
      ForkSlotReap(s, p, a, np);
    } else {
      var e := ForkStep(s, p, a).value;
      assert ReapOk(p, s.tab, s.pc);
      WakingKept(p, s.pc, e.pc);
      if a.ForkFail? { assert e.tab.parent == s.tab.parent; }
      ReapFrame(p, s.tab, s.pc, e.tab, e.pc);
    }
  }

  lemma ExitReap(s: State, c: nat, p: nat, a: Act)
    requires HandoffInv(s) && ReapInv(s.tab, s.pc) && c < |s.cpus| && s.cpus[c].mode == InProc(p) && p < |s.pc| &&
             ExitStep(s, p, a).Some?
    requires WaitLock in Held(p, s.pc[p]) ==> Alone(p, s.pc)
    ensures var e := ExitStep(s, p, a).value; EffSized(e, |s.pc|) && ReapInv(e.tab, e.pc)
  {
    ThreadState(s, c, p);
    if a.ExitWakeInit? { WakeInitReap(s, p, a); }
    else if a.ExitWakeParent? { WakeParentReap(s, p, a); }
    else if a.ExitNext? { ReparentReap(s, p, a); }
    else if a.ExitZombie? { ZombieReap(s, p, a); }
    else { ExitOtherReap(s, p, a); }
  }

  lemma WaitAllReap(s: State, c: nat, p: nat, a: Act)
    requires HandoffInv(s) && ReapInv(s.tab, s.pc) && c < |s.cpus| && s.cpus[c].mode == InProc(p) && p < |s.pc| &&
             WaitStep(s, p, a).Some?
    requires WaitLock in Held(p, s.pc[p]) ==> Alone(p, s.pc)
    ensures var e := WaitStep(s, p, a).value; EffSized(e, |s.pc|) && ReapInv(e.tab, e.pc)
  {
    if a.WaitCheck? {
      ReapedOffCpu(s, c, p);
      assert ProcOk(s.pc[p].i, s.tab, s.pc, s.cpus, s.on);
      CheckReap(s, p, a, s.pc[p].i);
    } else {
      WaitReap(s, p, a);
    }
  }

  lemma ForkAllReap(s: State, c: nat, p: nat, a: Act)
    requires HandoffInv(s) && KinInv(s.tab, s.pc) && ReapInv(s.tab, s.pc) && c < |s.cpus| && s.cpus[c].mode == InProc(p)
    requires p < |s.pc| && ForkStep(s, p, a).Some?
    requires WaitLock in Held(p, s.pc[p]) ==> Alone(p, s.pc)
    ensures var e := ForkStep(s, p, a).value; EffSized(e, |s.pc|) && ReapInv(e.tab, e.pc)
  {
    ThreadState(s, c, p);
    var np := if a.ForkCall? then a.np else s.pc[p].np;
    assert ProcOk(np, s.tab, s.pc, s.cpus, s.on);
    assert KinOk(p, s.tab, s.pc);
    if !a.ForkCall? && !a.ForkDone? { ForkSlot(s, c, p); }
    ForkReap(s, p, a, np);
  }

  lemma ThreadReap(s: State, c: nat, p: nat, a: Act)
    requires HandoffInv(s) && KinInv(s.tab, s.pc) && ReapInv(s.tab, s.pc) && c < |s.cpus| && s.cpus[c].mode == InProc(p)
    requires p < |s.pc| && ThreadStep(s, p, a).Some?
    ensures var e := ThreadStep(s, p, a).value; EffSized(e, |s.pc|) && ReapInv(e.tab, e.pc)
  {
    ThreadState(s, c, p);
    if WaitLock in Held(p, s.pc[p]) { WaitExclusive(s, p); }
    if SleepAct(a) { SleepReap(s, p, a); }
    else if WakeAct(a) { WakeReap(s, p, a); }
    else if ExitAct(a) { ExitReap(s, c, p, a); }
    else if WaitAct(a) { WaitAllReap(s, c, p, a); }
    else { ForkAllReap(s, c, p, a); }
  }

  lemma StepReap(s: State, c: nat, a: Step)
    requires HandoffInv(s) && KinInv(s.tab, s.pc) && ReapInv(s.tab, s.pc) && c < |s.cpus| && Do(s, c, a).Some?
    ensures var s' := Do(s, c, a).value; Sized(s') && ReapInv(s'.tab, s'.pc)
  {
    StepHandoff(s, c, a);
    if a.Thread? {
      ThreadReap(s, c, s.cpus[c].mode.p, a.a);
    } else if TrapStep(a) {
      TrapReap(s, c, a);
    } else if !OffStep(a) {
      SchedReap(s, c, a);
    }
  }

  /** A handler makes at most the slot it visits RUNNABLE. */
  lemma TrapReap(s: State, c: nat, a: Step)
    requires Sized(s) && ReapInv(s.tab, s.pc) && c < |s.cpus| && DoTrap(s, c, a).Some?
    ensures var s' := DoTrap(s, c, a).value; Sized(s') && ReapInv(s'.tab, s'.pc)
  {
    if a.TrapNext? && s.cpus[c].trap.i < |s.pc| {
      var i := s.cpus[c].trap.i;
      assert ReapOk(i, s.tab, s.pc);
      ReapFrame(i, s.tab, s.pc, Visit(s, Myproc(s, c), i, s.cpus[c].trap.chan), s.pc);
    }
  }

  lemma SchedReap(s: State, c: nat, a: Step)
    requires Sized(s) && ReapInv(s.tab, s.pc) && c < |s.cpus| && !a.Thread? && DoSched(s, c, a).Some?
    ensures var s' := DoSched(s, c, a).value; Sized(s') && ReapInv(s'.tab, s'.pc)
  {
    var s' := DoSched(s, c, a).value;
    var p := if a.Pick? then a.p else if s.cpus[c].mode.Scan? then INIT
    else if s.cpus[c].mode.p < |s.pc| then s.cpus[c].mode.p else INIT;
    assert ReapOk(p, s.tab, s.pc);
    WakingKept(p, s.pc, s'.pc);
    ReapFrame(p, s.tab, s.pc, s'.tab, s'.pc);
  }
}
