/** What every run of the process system guarantees. */
module ProcTheorems {
  import opened Prelude
  import opened ProcModel
  import opened ProcHandoff
  import opened ProcFamily
  import opened ProcKin
  import opened ProcReap

  // ---------------------------------------------------------------- pids

  /** Live pids are unique, below nextpid, and have not been reaped. */
  predicate PidOk(q: nat, tab: Tab)
    requires TabSized(tab, |tab.st|) && q < |tab.st|
  {
    tab.st[q] != UNUSED ==>
      && 0 < tab.pid[q] < tab.nextpid && tab.pid[q] !in tab.reaped
      && forall r :: 0 <= r < |tab.st| && r != q && tab.st[r] != UNUSED ==> tab.pid[r] != tab.pid[q]
  }

  ghost predicate PidInv(tab: Tab)
    requires TabSized(tab, |tab.st|)
  {
    && tab.nextpid > 0 && (forall x :: x in tab.reaped ==> x < tab.nextpid)
    && forall q: nat {:trigger PidOk(q, tab)} :: q < |tab.st| ==> PidOk(q, tab)
  }

  lemma PidFrame(tab: Tab, tab': Tab)
    requires TabSized(tab, |tab.st|) && TabSized(tab', |tab.st|) && PidInv(tab)
    requires tab'.pid == tab.pid && tab'.nextpid == tab.nextpid && tab'.reaped == tab.reaped
    requires forall q :: 0 <= q < |tab.st| && tab'.st[q] != UNUSED ==> tab.st[q] != UNUSED
    ensures PidInv(tab')
  {
    forall q: nat | q < |tab'.st| ensures PidOk(q, tab') { assert PidOk(q, tab); }
  }

  lemma FreedPid(tab: Tab, i: nat, reaped: map<nat, int>)
    requires TabSized(tab, |tab.st|) && PidInv(tab) && i < |tab.st| && tab.st[i] != UNUSED
    requires reaped == tab.reaped || reaped == tab.reaped[tab.pid[i] := tab.xst[i]]
    ensures PidInv(Freeproc(tab, i).(reaped := reaped))
  {
    var tab' := Freeproc(tab, i).(reaped := reaped);
    assert PidOk(i, tab);
    forall q: nat | q < |tab'.st| ensures PidOk(q, tab') { assert PidOk(q, tab); }
  }

  lemma NewPid(tab: Tab, np: nat, maker: seq<Option<nat>>)
    requires TabSized(tab, |tab.st|) && PidInv(tab) && np < |tab.st| && |maker| == |tab.st|
    ensures PidInv(tab.(st := tab.st[np := USED], pid := tab.pid[np := tab.nextpid], nextpid := tab.nextpid + 1,
                        maker := maker))
  {
    var tab' := tab.(st := tab.st[np := USED], pid := tab.pid[np := tab.nextpid], nextpid := tab.nextpid + 1,
                     maker := maker);
    forall q: nat | q < |tab'.st| ensures PidOk(q, tab') {
      assert PidOk(q, tab);
      forall r: nat | r < |tab.st| && tab.st[r] != UNUSED ensures tab.pid[r] < tab.nextpid { assert PidOk(r, tab); }
    }
  }

  lemma SleepPid(s: State, p: nat, a: Act)
    requires Sized(s) && p < |s.pc| && s.tab.st[p] != UNUSED && PidInv(s.tab) && SleepStep(s, p, a).Some?
    ensures var e := SleepStep(s, p, a).value; EffSized(e, |s.pc|) && PidInv(e.tab)
  {
    PidFrame(s.tab, SleepStep(s, p, a).value.tab);
  }

  lemma WakePid(s: State, p: nat, a: Act)
    requires Sized(s) && p < |s.pc| && s.tab.st[p] != UNUSED && PidInv(s.tab) && WakeStep(s, p, a).Some?
    ensures var e := WakeStep(s, p, a).value; EffSized(e, |s.pc|) && PidInv(e.tab)
  {
    PidFrame(s.tab, WakeStep(s, p, a).value.tab);
  }

  lemma ExitPid(s: State, p: nat, a: Act)
    requires Sized(s) && p < |s.pc| && s.tab.st[p] != UNUSED && PidInv(s.tab) && ExitStep(s, p, a).Some?
    ensures var e := ExitStep(s, p, a).value; EffSized(e, |s.pc|) && PidInv(e.tab)
  {
    PidFrame(s.tab, ExitStep(s, p, a).value.tab);
  }

  lemma WaitPid(s: State, c: nat, p: nat, a: Act)
    requires HandoffInv(s) && PidInv(s.tab) && c < |s.cpus| && s.cpus[c].mode == InProc(p) && p < |s.pc| &&
             WaitStep(s, p, a).Some?
    ensures PidInv(WaitStep(s, p, a).value.tab)
  {
    ThreadState(s, c, p);
    var e := WaitStep(s, p, a).value;
    if a.WaitCheck? && s.tab.st[s.pc[p].i] == ZOMBIE && a.copied {
      FreedPid(s.tab, s.pc[p].i, e.tab.reaped);
    }
  }

  lemma ForkPid(s: State, c: nat, p: nat, a: Act)
    requires HandoffInv(s) && PidInv(s.tab) && c < |s.cpus| && s.cpus[c].mode == InProc(p) && p < |s.pc| &&
             ForkStep(s, p, a).Some?
    ensures PidInv(ForkStep(s, p, a).value.tab)
  {
    ThreadState(s, c, p);
    var e := ForkStep(s, p, a).value;
    if a.ForkCall? {
      NewPid(s.tab, a.np, s.tab.maker[a.np := Some(p)]);
    } else if a.ForkFail? {
      ForkSlot(s, c, p);
      FreedPid(s.tab, s.pc[p].np, s.tab.reaped);
    } else {
      if a.ForkSet? { ForkSlot(s, c, p); }
      PidFrame(s.tab, e.tab);
    }
  }

  lemma ThreadPid(s: State, c: nat, p: nat, a: Act)
    requires HandoffInv(s) && PidInv(s.tab) && c < |s.cpus| && s.cpus[c].mode == InProc(p) && p < |s.pc| &&
             ThreadStep(s, p, a).Some?
    ensures var e := ThreadStep(s, p, a).value; EffSized(e, |s.pc|) && PidInv(e.tab)
  {
    ThreadState(s, c, p);
    ThreadProcs(s, c, p, a, s.cpus);
    if SleepAct(a) { SleepPid(s, p, a); }
    else if WakeAct(a) { WakePid(s, p, a); }
    else if ExitAct(a) { ExitPid(s, p, a); }
    else if WaitAct(a) { WaitPid(s, c, p, a); }
    else { ForkPid(s, c, p, a); }
  }

  lemma StepPid(s: State, c: nat, a: Step)
    requires HandoffInv(s) && PidInv(s.tab) && c < |s.cpus| && Do(s, c, a).Some?
    ensures Sized(Do(s, c, a).value) && PidInv(Do(s, c, a).value.tab)
  {
    StepHandoff(s, c, a);
    if a.Thread? { ThreadPid(s, c, s.cpus[c].mode.p, a.a); }
    else { PidFrame(s.tab, Do(s, c, a).value.tab); }
  }

  // ---------------------------------------------------------------- runs

  ghost predicate Inv(s: State) {
    && HandoffInv(s) && WakeInv(s.tab.st, s.pc) && HandlersInv(s.tab.st, s.pc, s.cpus) && KinInv(s.tab, s.pc) &&
       ReapInv(s.tab, s.pc) && PidInv(s.tab)
  }

  /** After userinit(): the first process is RUNNABLE, all other slots are UNUSED, every CPU scans. */
  function Boot(nproc: nat, ncpu: nat): State
    requires INIT < nproc
  {
    State(Tab(seq(nproc, i => if i == INIT then RUNNABLE else UNUSED), seq(nproc, i => NoChan), seq(nproc, i => None),
              seq(nproc, i => if i == INIT then 1 else 0), seq(nproc, i => 0), seq(nproc, i => false), 2,
              seq(nproc, i => None), map[]),
          seq(nproc, i => if i == INIT then Switched(InForkret, true) else NoThread),
          map[], seq(ncpu, i => Cpu(Scan, None, 0, false, true, NoTrap, 0)), seq(nproc, i => None))
  }

  function Exec(s: State, steps: seq<(nat, Step)>): Option<State>
    decreases |steps|
  {
    if steps == [] then Some(s)
    else if !Sized(s) || steps[0].0 >= |s.cpus| then None
    else match Do(s, steps[0].0, steps[0].1)
      case None => None
      case Some(s') => Exec(s', steps[1..])
  }

  lemma BootInv(nproc: nat, ncpu: nat)
    requires INIT < nproc
    ensures Inv(Boot(nproc, ncpu))
  {
    var s := Boot(nproc, ncpu);
    forall c: nat | c < ncpu ensures CpuOk(s.cpus[c], c, s.pc, s.on) && HandlerOk(s.cpus[c].trap, s.tab.st, s.pc) {}
    forall q: nat | q < nproc ensures ProcOk(q, s.tab, s.pc, s.cpus, s.on) {}
    forall q: nat | q < nproc
      ensures WakeOk(q, s.tab.st, s.pc) && KinOk(q, s.tab, s.pc) && ReapOk(q, s.tab, s.pc) && PidOk(q, s.tab) {}
  }

  lemma StepInv(s: State, c: nat, a: Step)
    requires Inv(s) && c < |s.cpus| && Do(s, c, a).Some?
    ensures Inv(Do(s, c, a).value)
  {
    StepHandoff(s, c, a);
    StepWake(s, c, a);
    StepHandlers(s, c, a);
    StepKin(s, c, a);
    StepReap(s, c, a);
    StepPid(s, c, a);
  }

  lemma {:induction false} ExecInv(s: State, steps: seq<(nat, Step)>)
    requires Inv(s)
    ensures Exec(s, steps).Some? ==> Inv(Exec(s, steps).value)
    decreases |steps|
  {
    if steps != [] && steps[0].0 < |s.cpus| && Do(s, steps[0].0, steps[0].1).Some? {
      StepInv(s, steps[0].0, steps[0].1);
      ExecInv(Do(s, steps[0].0, steps[0].1).value, steps[1..]);
    }
  }

  lemma Reachable(nproc: nat, ncpu: nat, steps: seq<(nat, Step)>)
    requires INIT < nproc && Exec(Boot(nproc, ncpu), steps).Some?
    ensures Inv(Exec(Boot(nproc, ncpu), steps).value)
  {
    BootInv(nproc, ncpu);
    ExecInv(Boot(nproc, ncpu), steps);
  }

  /** SCHEDULER HAND-OVER.  In every reachable state no process is the current one of two CPUs;
      whenever p->lock is free, p is RUNNING exactly if some CPU has it as c->proc; noff counts the
      spinlocks recorded with a CPU plus the push_off()s still open on it; and interrupts are off
      while noff is not 0 and in a handler. */
  lemma SchedulerHandover(nproc: nat, ncpu: nat, steps: seq<(nat, Step)>)
    requires INIT < nproc && Exec(Boot(nproc, ncpu), steps).Some?
    ensures var s := Exec(Boot(nproc, ncpu), steps).value;
            && Sized(s)
            && (forall c, d ::
                  0 <= c < |s.cpus| && 0 <= d < |s.cpus| && s.cpus[c].cur.Some? && s.cpus[c].cur == s.cpus[d].cur ==>
                    c == d)
            && (forall p: nat :: p < |s.pc| && PLock(p) !in s.locks ==>
                  (s.tab.st[p] == RUNNING <==> exists c :: 0 <= c < |s.cpus| && s.cpus[c].cur == Some(p)))
            && (forall c :: 0 <= c < |s.cpus| ==>
                  && s.cpus[c].noff == |set l | l in s.locks && s.locks[l] == c| + s.cpus[c].offs
                  && (s.cpus[c].noff > 0 || s.cpus[c].trap != NoTrap ==> !s.cpus[c].intr))
  {
    Reachable(nproc, ncpu, steps);
    var s := Exec(Boot(nproc, ncpu), steps).value;
    forall c: nat | c < |s.cpus|
      ensures s.cpus[c].noff == |set l | l in s.locks && s.locks[l] == c| + s.cpus[c].offs
      ensures s.cpus[c].noff > 0 || s.cpus[c].trap != NoTrap ==> !s.cpus[c].intr
      ensures s.cpus[c].cur.Some? ==> s.cpus[c].cur.value < |s.on| && s.on[s.cpus[c].cur.value] == Some(c)
    {
      assert CpuOk(s.cpus[c], c, s.pc, s.on);
      assert (set l | l in s.locks && s.locks[l] == c) == HeldBy(s.cpus[c], s.pc);
    }
    forall p: nat | p < |s.pc| && PLock(p) !in s.locks
      ensures s.tab.st[p] == RUNNING <==> exists c :: 0 <= c < |s.cpus| && s.cpus[c].cur == Some(p)
    {
      FreeLock(s, p);
      assert ProcOk(p, s.tab, s.pc, s.cpus, s.on);
      if s.on[p].Some? { assert s.cpus[s.on[p].value].cur == Some(p); }
    }
  }

  /** NO LOST WAKEUP.  When a wakeup(chan) made under lock g has passed the last slot, no other
      process that called sleep(chan, g) is still on its way to sleep or asleep. */
  lemma NoLostWakeup(nproc: nat, ncpu: nat, steps: seq<(nat, Step)>, w: nat, q: nat)
    requires INIT < nproc && Exec(Boot(nproc, ncpu), steps).Some?
    ensures var s := Exec(Boot(nproc, ncpu), steps).value;
            Sized(s) && (w < |s.pc| && q < |s.pc| && q != w && s.pc[w].Wake? && s.pc[w].i >= |s.pc| ==>
                         !Asleep(q, s.pc[w].chan, Lk(s.pc[w].g), s.tab.st[q], s.pc[q]))
  {
    Reachable(nproc, ncpu, steps);
    var s := Exec(Boot(nproc, ncpu), steps).value;
    if w < |s.pc| { assert WakeOk(w, s.tab.st, s.pc); }
  }

  /** NO LOST WAKEUP from interrupt handlers, on idle CPUs and on top of any process. */
  lemma NoLostInterrupt(nproc: nat, ncpu: nat, steps: seq<(nat, Step)>, c: nat, q: nat)
    requires INIT < nproc && Exec(Boot(nproc, ncpu), steps).Some?
    ensures var s := Exec(Boot(nproc, ncpu), steps).value;
            Sized(s) && (c < |s.cpus| && q < |s.pc| && s.cpus[c].trap.Waking? && s.cpus[c].trap.i >= |s.pc| ==>
                         !Asleep(q, s.cpus[c].trap.chan, Lk(s.cpus[c].trap.g), s.tab.st[q], s.pc[q]))
  {
    Reachable(nproc, ncpu, steps);
    var s := Exec(Boot(nproc, ncpu), steps).value;
    if c < |s.cpus| { assert HandlerOk(s.cpus[c].trap, s.tab.st, s.pc); }
  }

  lemma WaitLockHeld(s: State, w: nat)
    requires HandoffInv(s) && w < |s.pc| && WaitLock in Held(w, s.pc[w])
    ensures WaitLock in s.locks
  {
    assert ProcOk(w, s.tab, s.pc, s.cpus, s.on);
    OnCpu(s, w);
    var c := s.on[w].value;
    assert CpuOk(s.cpus[c], c, s.pc, s.on);
    assert WaitLock in HeldBy(s.cpus[c], s.pc);
  }

  /** FAMILIES.  In every reachable state a parent pointer names a process that is neither free,
      being made, nor a ZOMBIE; and whenever wait_lock is free, no process asleep in wait() has a
      ZOMBIE child. */
  lemma Families(nproc: nat, ncpu: nat, steps: seq<(nat, Step)>, q: nat, r: nat)
    requires INIT < nproc && Exec(Boot(nproc, ncpu), steps).Some?
    ensures var s := Exec(Boot(nproc, ncpu), steps).value;
            Sized(s) && (q < |s.pc| && r < |s.pc| && s.tab.parent[r] == Some(q) ==>
              && s.tab.st[q] !in {UNUSED, USED, ZOMBIE}
              && (WaitLock !in s.locks && Waiting(q, s.tab.st[q], s.pc[q]) ==> s.tab.st[r] != ZOMBIE))
  {
    Reachable(nproc, ncpu, steps);
    var s := Exec(Boot(nproc, ncpu), steps).value;
    if q < |s.pc| && r < |s.pc| && s.tab.parent[r] == Some(q) {
      assert KinOk(r, s.tab, s.pc);
      assert ProcOk(q, s.tab, s.pc, s.cpus, s.on);
      assert ReapOk(q, s.tab, s.pc);
      if WakingInit(s.pc) {
        var w :| 0 <= w < |s.pc| && s.pc[w].ExitWake? && s.pc[w].j <= INIT;
        WaitLockHeld(s, w);
      }
    }
  }

  predicate SameSlot(t: Tab, t': Tab, q: nat)
    requires TabSized(t, |t.st|) && TabSized(t', |t.st|) && q < |t.st|
  {
    t'.st[q] == t.st[q] && t'.pid[q] == t.pid[q] && t'.xst[q] == t.xst[q] && t'.reaped == t.reaped
  }

  lemma ZombieRuns(s: State, p: nat, a: Act, q: nat)
    requires Sized(s) && p < |s.pc| && q < |s.pc| && s.tab.st[q] == ZOMBIE
    requires StateOk(s.tab.st[p], s.tab.chan[p], s.pc[p], true)
    ensures SleepStep(s, p, a).Some? ==>
              TabSized(SleepStep(s, p, a).value.tab, |s.pc|) && SameSlot(s.tab, SleepStep(s, p, a).value.tab, q)
    ensures WakeStep(s, p, a).Some? ==>
              TabSized(WakeStep(s, p, a).value.tab, |s.pc|) && SameSlot(s.tab, WakeStep(s, p, a).value.tab, q)
    ensures ExitStep(s, p, a).Some? ==>
              TabSized(ExitStep(s, p, a).value.tab, |s.pc|) && SameSlot(s.tab, ExitStep(s, p, a).value.tab, q)
  {
  }

  lemma ZombieForks(s: State, c: nat, p: nat, a: Act, q: nat)
    requires HandoffInv(s) && c < |s.cpus| && s.cpus[c].mode == InProc(p) && p < |s.pc| && q < |s.pc| &&
             s.tab.st[q] == ZOMBIE
    requires ForkStep(s, p, a).Some?
    ensures TabSized(ForkStep(s, p, a).value.tab, |s.pc|) && SameSlot(s.tab, ForkStep(s, p, a).value.tab, q)
  {
    if Forking(s.pc[p]) && !s.pc[p].Fork7? { ForkSlot(s, c, p); }
  }

  /** What a step can do to a ZOMBIE: nothing, or reap it. */
  ghost predicate KeptOrReaped(s: State, c: nat, s': State, q: nat)
    requires Sized(s) && Sized(s') && |s'.pc| == |s.pc| && q < |s.pc| && c < |s.cpus|
  {
    || SameSlot(s.tab, s'.tab, q)
    || (s'.tab.st[q] == ZOMBIE && s'.tab.pid[q] == s.tab.pid[q] && s'.tab.xst[q] == s.tab.xst[q] &&
        s.tab.pid[q] !in s'.tab.reaped)
    || (s'.tab.st[q] == UNUSED && s.on[q] == None
        && s.cpus[c].mode.InProc? && s.tab.parent[q] == Some(s.cpus[c].mode.p)
        && s'.tab.reaped == s.tab.reaped[s.tab.pid[q] := s.tab.xst[q]])
  }

  lemma ZombieWaits(s: State, c: nat, p: nat, a: Act, q: nat)
    requires Inv(s) && c < |s.cpus| && s.cpus[c].mode == InProc(p) && p < |s.pc| && q < |s.pc| && s.tab.st[q] == ZOMBIE
    requires WaitStep(s, p, a).Some? && Sized(s.(tab := WaitStep(s, p, a).value.tab))
    ensures KeptOrReaped(s, c, s.(tab := WaitStep(s, p, a).value.tab), q)
  {
    if a.WaitCheck? {
      ReapedOffCpu(s, c, p);
      assert ReapOk(p, s.tab, s.pc);
      assert PidOk(q, s.tab);
    }
  }

  lemma ZombieStep(s: State, c: nat, a: Step, q: nat)
    requires Inv(s) && c < |s.cpus| && q < |s.pc| && s.tab.st[q] == ZOMBIE && Do(s, c, a).Some?
    ensures var s' := Do(s, c, a).value; Sized(s') && |s'.pc| == |s.pc| && KeptOrReaped(s, c, s', q)
  {
    StepHandoff(s, c, a);
    if a.Thread? {
      var p := s.cpus[c].mode.p;
      ThreadState(s, c, p);
      ThreadProcs(s, c, p, a.a, s.cpus);
      if WaitAct(a.a) { ZombieWaits(s, c, p, a.a, q); }
      else if !SleepAct(a.a) && !WakeAct(a.a) && !ExitAct(a.a) { ZombieForks(s, c, p, a.a, q); }
      else { ZombieRuns(s, p, a.a, q); }
    }
  }

  /** ONE REAP PER EXIT.  A ZOMBIE keeps its pid and status until one wait() takes it; that wait()
      is made by its parent at that time, finds the child off every CPU, and reports a pid no wait()
      has reported before, with the status exit() left. */
  lemma ReapedOnce(nproc: nat, ncpu: nat, steps: seq<(nat, Step)>, c: nat, a: Step, q: nat)
    requires INIT < nproc && Exec(Boot(nproc, ncpu), steps).Some?
    ensures var s := Exec(Boot(nproc, ncpu), steps).value;
            Sized(s) && (c < |s.cpus| && q < |s.pc| && s.tab.st[q] == ZOMBIE && Do(s, c, a).Some? ==>
              var s' := Do(s, c, a).value;
              && Sized(s') && |s'.pc| == |s.pc|
              && ((s'.tab.st[q] == ZOMBIE && s'.tab.pid[q] == s.tab.pid[q] && s'.tab.xst[q] == s.tab.xst[q] &&
                   s.tab.pid[q] !in s'.tab.reaped)
                  || (s'.tab.st[q] == UNUSED && s.on[q] == None
                      && s.cpus[c].mode.InProc? && s.tab.parent[q] == Some(s.cpus[c].mode.p)
                      && s.tab.pid[q] !in s.tab.reaped && s'.tab.reaped == s.tab.reaped[s.tab.pid[q] := s.tab.xst[q]])))
  {
    Reachable(nproc, ncpu, steps);
    var s := Exec(Boot(nproc, ncpu), steps).value;
    if c < |s.cpus| && q < |s.pc| && s.tab.st[q] == ZOMBIE && Do(s, c, a).Some? {
      ZombieStep(s, c, a, q);
      assert PidOk(q, s.tab);
    }
  }

  // ---------------------------------------------------------------- panics

  /** acquire() and release() do not panic on CPU c. */
  predicate LockSafe(s: State, c: nat, op: LockOp)
    requires c < |s.cpus|
  {
    && (op.Acquire? ==> !(op.l in s.locks && s.locks[op.l] == c))
    && (op.Release? ==> op.l in s.locks && s.locks[op.l] == c && s.cpus[c].noff >= 1)
  }

  /** None of the four panics of sched() holds for p on CPU c. */
  predicate SchedSafe(s: State, c: nat, p: nat)
    requires Sized(s) && c < |s.cpus| && p < |s.pc|
  {
    && PLock(p) in s.locks && s.locks[PLock(p)] == c && s.cpus[c].noff == 1
    && s.tab.st[p] != RUNNING && !s.cpus[c].intr
  }

  /** The thread is where wakeup() or kill() takes the lock of one process after the other. */
  predicate Visits(pc: Pc) { pc.Wake? || pc.ExitWake? || pc.Exit2? || pc.Kernel? }

  /** NO PANIC in spinlock.c, sched() or kerneltrap(), in any run: threads, wakeup() and kill() in
      threads, calls of sched(), and handlers. */
  lemma PanicsNever(nproc: nat, ncpu: nat, steps: seq<(nat, Step)>, c: nat, p: nat, a: Act, l: Lock)
    requires INIT < nproc && Exec(Boot(nproc, ncpu), steps).Some?
    ensures var s := Exec(Boot(nproc, ncpu), steps).value;
            Sized(s) && (c < |s.cpus| ==>
                           && (s.cpus[c].mode == InProc(p) && p < |s.pc| && Idle(s.cpus[c]) ==>
                                 && (ThreadStep(s, p, a).Some? ==> LockSafe(s, c, ThreadStep(s, p, a).value.op))
                                 && (Visits(s.pc[p]) && l.PLock? ==> LockSafe(s, c, Acquire(l)))
                                 && (s.pc[p].Ready? ==> SchedSafe(s, c, p)))
                           && (s.cpus[c].offs > 0 ==> s.cpus[c].noff >= 1 && !s.cpus[c].intr)
                           && (s.cpus[c].trap != NoTrap ==> !s.cpus[c].intr)
                           && (s.cpus[c].trap == Entered ==> LockSafe(s, c, Acquire(l)))
                           && (s.cpus[c].trap.Locked? || s.cpus[c].trap.Waking? ==>
                                 && LockSafe(s, c, Release(Lk(s.cpus[c].trap.g)))
                                 && (l.PLock? ==> LockSafe(s, c, Acquire(l)))))
  {
    Reachable(nproc, ncpu, steps);
    var s := Exec(Boot(nproc, ncpu), steps).value;
    if c < |s.cpus| {
      NoTrapPanic(s, c, l);
      if s.cpus[c].mode == InProc(p) && p < |s.pc| && Idle(s.cpus[c]) { ThreadPanics(s, c, p, a, l); }
    }
  }

  lemma ThreadPanics(s: State, c: nat, p: nat, a: Act, l: Lock)
    requires Inv(s) && c < |s.cpus| && s.cpus[c].mode == InProc(p) && p < |s.pc| && Idle(s.cpus[c])
    ensures ThreadStep(s, p, a).Some? ==> LockSafe(s, c, ThreadStep(s, p, a).value.op)
    ensures Visits(s.pc[p]) && l.PLock? ==> LockSafe(s, c, Acquire(l))
    ensures s.pc[p].Ready? ==> SchedSafe(s, c, p)
  {
    if ThreadStep(s, p, a).Some? { NoLockPanic(s, c, p, a); }
    if Visits(s.pc[p]) && l.PLock? { NoVisitPanic(s, c, p, l.p); }
    if s.pc[p].Ready? { NoSchedPanic(s, c, p); }
  }

  // ---------------------------------------------------------------- intena

  /** In these steps from s on no CPU brings q back from swtch(). */
  ghost predicate StaysOut(s: State, steps: seq<(nat, Step)>, q: nat)
    decreases |steps|
  {
    steps == [] ||
    (var (c, a) := steps[0];
     && Sized(s) && c < |s.cpus| && Do(s, c, a).Some? && !(a.SwtchResume? && s.cpus[c].mode == InProc(q))
     && StaysOut(Do(s, c, a).value, steps[1..], q))
  }

  lemma {:induction false} KeepsIntena(s: State, steps: seq<(nat, Step)>, q: nat)
    requires Inv(s) && q < |s.pc| && s.pc[q].Switched? && !s.pc[q].r.Never? && StaysOut(s, steps, q)
    ensures Exec(s, steps).Some? && Inv(Exec(s, steps).value)
    ensures q < |Exec(s, steps).value.pc| && Exec(s, steps).value.pc[q] == s.pc[q]
    decreases |steps|
  {
    if steps != [] {
      var (c, a) := steps[0];
      StepInv(s, c, a);
      IntenaStep(s, c, a, q);
      KeepsIntena(Do(s, c, a).value, steps[1..], q);
    }
  }

  /** INTENA FOLLOWS THE THREAD.  In every run, when q is switched out in sleep() or yield() on CPU c
      and brought back after any steps of all CPUs on CPU d, the intena of CPU d is then what that of CPU c was. */
  lemma IntenaTravels(nproc: nat, ncpu: nat, before: seq<(nat, Step)>, c: nat, q: nat, between: seq<(nat, Step)>,
                      s: State, out: State, s': State, d: nat, back: State)
    requires INIT < nproc && Exec(Boot(nproc, ncpu), before) == Some(s) && Sized(s)
    requires c < |s.cpus| && s.cpus[c].mode == InProc(q) && q < |s.pc| && s.pc[q].Ready?
    requires s.pc[q].r.InSleep? || s.pc[q].r.InYield?
    requires Do(s, c, SwtchOut) == Some(out) && StaysOut(out, between, q) && Exec(out, between) == Some(s')
    requires Sized(s') && d < |s'.cpus| && s'.cpus[d].mode == InProc(q) && Do(s', d, SwtchResume) == Some(back)
    ensures d < |back.cpus| && back.cpus[d].intena == s.cpus[c].intena
  {
    Reachable(nproc, ncpu, before);
    StepInv(s, c, SwtchOut);
    SwitchedOut(s, c, q);
    KeepsIntena(out, between, q);
    SwitchedIn(s', d, q);
  }

  lemma SwitchedOut(s: State, c: nat, q: nat)
    requires Sized(s) && c < |s.cpus| && s.cpus[c].mode == InProc(q) && q < |s.pc| && Do(s, c, SwtchOut).Some?
    ensures s.pc[q].Ready? && Do(s, c, SwtchOut).value.pc == s.pc[q := Switched(s.pc[q].r, s.cpus[c].intena)]
  {
  }

  lemma SwitchedIn(s: State, d: nat, q: nat)
    requires Sized(s) && d < |s.cpus| && s.cpus[d].mode == InProc(q) && Do(s, d, SwtchResume).Some?
    requires q < |s.pc| && s.pc[q].Switched? && !s.pc[q].r.InForkret?
    ensures var n := Do(s, d, SwtchResume).value; |n.cpus| == |s.cpus| && n.cpus[d].intena == s.pc[q].ie
  {
  }

  /** One step leaves what sched() saved with a switched-out thread, or resumes it. */
  lemma IntenaStep(s: State, c: nat, a: Step, q: nat)
    requires Inv(s) && c < |s.cpus| && q < |s.pc| && s.pc[q].Switched? && !s.pc[q].r.Never? && Do(s, c, a).Some?
    ensures var s' := Do(s, c, a).value;
            && |s'.pc| == |s.pc| && |s'.cpus| == |s.cpus|
            && (s'.pc[q] == s.pc[q] || (a.SwtchResume? && s.cpus[c].mode == InProc(q) && s'.pc[q].Resumed?
                && (!s.pc[q].r.InForkret? ==> s'.cpus[c].intena == s.pc[q].ie)))
  {
    StepHandoff(s, c, a);
    if a.Thread? {
      var p := s.cpus[c].mode.p;
      ThreadState(s, c, p);
      assert ProcOk(q, s.tab, s.pc, s.cpus, s.on);
      OtherSwitched(s, c, p, a.a, q);
    }
  }

  lemma RunStay(s: State, p: nat, a: Act, q: nat)
    requires Sized(s) && p < |s.pc| && q < |s.pc| && q != p && (SleepAct(a) || WakeAct(a) || ExitAct(a)) &&
             ThreadStep(s, p, a).Some?
    ensures |ThreadStep(s, p, a).value.pc| == |s.pc| && ThreadStep(s, p, a).value.pc[q] == s.pc[q]
  {
  }

  lemma KinStay(s: State, p: nat, a: Act, q: nat)
    requires Sized(s) && p < |s.pc| && q < |s.pc| && q != p && !SleepAct(a) && !WakeAct(a) && !ExitAct(a) &&
             ThreadStep(s, p, a).Some?
    requires s.pc[p].Wait2? ==> s.pc[p].i != q || s.tab.st[q] != ZOMBIE
    requires s.pc[p].Fork6? ==> s.pc[p].np != q
    ensures |ThreadStep(s, p, a).value.pc| == |s.pc| && ThreadStep(s, p, a).value.pc[q] == s.pc[q]
  {
  }

  lemma OtherSwitched(s: State, c: nat, p: nat, a: Act, q: nat)
    requires HandoffInv(s) && c < |s.cpus| && s.cpus[c].mode == InProc(p) && p < |s.pc| && ThreadStep(s, p, a).Some?
    requires q < |s.pc| && s.pc[q].Switched? && !s.pc[q].r.Never?
    ensures |ThreadStep(s, p, a).value.pc| == |s.pc| && (ThreadStep(s, p, a).value.pc[q] == s.pc[q])
  {
    ThreadState(s, c, p);
    if s.pc[p].Wait2? { ReapedOffCpu(s, c, p); }
    if s.pc[p].Fork6? { ForkSlot(s, c, p); }
    if q == p { NoStepInside(s, p, a); }
    else if SleepAct(a) || WakeAct(a) || ExitAct(a) { RunStay(s, p, a, q); }
    else { KinStay(s, p, a, q); }
  }

  /** A thread inside swtch() takes no step of its own. */
  lemma NoStepInside(s: State, p: nat, a: Act)
    requires Sized(s) && p < |s.pc| && s.pc[p].Switched?
    ensures ThreadStep(s, p, a) == None
  {
  }
}
