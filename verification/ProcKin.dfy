/** Parent pointers: kept sound by every step. */
module ProcKin {
  import opened Prelude
  import opened ProcModel
  import opened ProcHandoff
  import opened ProcFamily

  /** Parent pointers stay, nobody becomes UNUSED, other threads stay where they are, and p,
      if anyone has it as parent, stays alive. */
  lemma KinFrame(tab: Tab, pc: seq<Pc>, tab': Tab, pc': seq<Pc>, p: nat)
    requires TabSized(tab, |pc|) && TabSized(tab', |pc|) && |pc'| == |pc| && KinInv(tab, pc) && p < |pc|
    requires tab'.parent == tab.parent
    requires forall q :: 0 <= q < |pc| && tab'.st[q] == UNUSED ==> tab.st[q] == UNUSED
    requires forall q :: 0 <= q < |pc| && q != p ==> pc'[q] == pc[q]
    requires Alive(pc'[p]) || NoKids(tab, p, |pc|)
    requires KinOk(p, tab', pc')
    ensures KinInv(tab', pc')
  {
    forall q: nat | q < |pc'| ensures KinOk(q, tab', pc') {
      assert KinOk(q, tab, pc);
    }
  }

  lemma SleepKin(s: State, p: nat, a: Act)
    requires Sized(s) && KinInv(s.tab, s.pc) && p < |s.pc| && !s.pc[p].NoThread? && PcOk(p, s.pc[p], |s.pc|) &&
             SleepStep(s, p, a).Some?
    ensures var e := SleepStep(s, p, a).value; EffSized(e, |s.pc|) && KinInv(e.tab, e.pc)
  {
    var e := SleepStep(s, p, a).value;
    assert KinOk(p, s.tab, s.pc);
    KinFrame(s.tab, s.pc, e.tab, e.pc, p);
  }

  lemma WakeKin(s: State, p: nat, a: Act)
    requires Sized(s) && KinInv(s.tab, s.pc) && p < |s.pc| && !s.pc[p].NoThread? && WakeStep(s, p, a).Some?
    ensures var e := WakeStep(s, p, a).value; EffSized(e, |s.pc|) && KinInv(e.tab, e.pc)
  {
    var e := WakeStep(s, p, a).value;
    assert KinOk(p, s.tab, s.pc);
    KinFrame(s.tab, s.pc, e.tab, e.pc, p);
  }

  lemma ReparentKin(s: State, p: nat, a: Act)
    requires Sized(s) && KinInv(s.tab, s.pc) && p < |s.pc| && a.ExitNext? && ExitStep(s, p, a).Some?
    requires p != INIT && Alive(s.pc[INIT]) && !Exiting(s.pc[INIT])
    ensures var e := ExitStep(s, p, a).value; EffSized(e, |s.pc|) && KinInv(e.tab, e.pc)
  {
    var e := ExitStep(s, p, a).value;
    assert KinOk(p, s.tab, s.pc);
    if e.tab.parent == s.tab.parent {
      KinFrame(s.tab, s.pc, e.tab, e.pc, p);
    } else {
      forall q: nat | q < |s.pc| ensures KinOk(q, e.tab, e.pc) {
        assert KinOk(q, s.tab, s.pc);
        AdoptedKin(s.tab, s.pc, p, s.pc[p].i, q);
      }
    }
  }

  /** Slot i, so far a child of p, becomes a child of init. */
  lemma AdoptedKin(tab: Tab, pc: seq<Pc>, p: nat, i: nat, q: nat)
    requires TabSized(tab, |pc|) && p < |pc| && p != INIT && i < |pc| && q < |pc| && pc[p] == Exit1(i) &&
             tab.parent[i] == Some(p)
    requires KinOk(q, tab, pc) && KinOk(p, tab, pc) && KinOk(i, tab, pc) && Alive(pc[INIT]) && !Exiting(pc[INIT])
    ensures KinOk(q, tab.(parent := tab.parent[i := Some(INIT)]), pc[p := ExitWake(i, 0)])
  {
  }

  lemma ExitKin(s: State, p: nat, a: Act)
    requires Sized(s) && KinInv(s.tab, s.pc) && p < |s.pc| && !s.pc[p].NoThread? && ExitStep(s, p, a).Some?
    requires Alive(s.pc[INIT]) && !Exiting(s.pc[INIT])
    ensures var e := ExitStep(s, p, a).value; EffSized(e, |s.pc|) && KinInv(e.tab, e.pc)
  {
    if a.ExitNext? {
      ReparentKin(s, p, a);
    } else {
      var e := ExitStep(s, p, a).value;
      assert KinOk(p, s.tab, s.pc);
      KinFrame(s.tab, s.pc, e.tab, e.pc, p);
    }
  }

  /** No fork() but p's is filling slot x. */
  predicate NotForked(pc: seq<Pc>, p: nat, x: nat) {
    forall w :: 0 <= w < |pc| && w != p && Forking(pc[w]) && !pc[w].Fork7? ==> Base(pc[w]).np != x
  }

  /** Freeing a ZOMBIE child: exit() has already given its own children away. */
  lemma ReapKin(s: State, p: nat, a: Act, i: nat)
    requires Sized(s) && KinInv(s.tab, s.pc) && p < |s.pc| && a.WaitCheck? && WaitStep(s, p, a).Some? && s.pc[p].i == i
    requires i < |s.pc| && i != p
    requires s.tab.st[i] == ZOMBIE ==>
               i != INIT && NotForked(s.pc, p, i) && Exiting(s.pc[i]) && !s.pc[i].Exit1? && !s.pc[i].ExitWake?
    ensures var e := WaitStep(s, p, a).value; EffSized(e, |s.pc|) && KinInv(e.tab, e.pc)
  {
    var e := WaitStep(s, p, a).value;
    assert KinOk(i, s.tab, s.pc);
    assert KinOk(p, s.tab, s.pc);
    if s.tab.st[i] != ZOMBIE || !a.copied {
      KinFrame(s.tab, s.pc, e.tab, e.pc, p);
    } else {
      FreedKin(s.tab, s.pc, e.tab, e.pc, p, i);
    }
  }

  lemma FreedKin(tab: Tab, pc: seq<Pc>, tab': Tab, pc': seq<Pc>, p: nat, i: nat)
    requires TabSized(tab, |pc|) && TabSized(tab', |pc|) && |pc'| == |pc| && KinInv(tab, pc) && p < |pc| && i < |pc| &&
             i != p && i != INIT
    requires NoKids(tab, i, |pc|) && NotForked(pc, p, i)
    requires tab'.parent == tab.parent[i := None] && (forall q :: 0 <= q < |pc| && q != i ==> tab'.st[q] == tab.st[q])
    requires pc' == pc[p := pc'[p]][i := NoThread] && (pc'[p].Wait3? || pc'[p].Kernel?) && Alive(pc[p])
    ensures KinInv(tab', pc')
  {
    forall q: nat | q < |pc'| ensures KinOk(q, tab', pc') {
      assert KinOk(q, tab, pc);
    }
  }

  lemma WaitKin(s: State, p: nat, a: Act)
    requires Sized(s) && KinInv(s.tab, s.pc) && p < |s.pc| && !s.pc[p].NoThread? && !a.WaitCheck? &&
             WaitStep(s, p, a).Some?
    ensures var e := WaitStep(s, p, a).value; EffSized(e, |s.pc|) && KinInv(e.tab, e.pc)
  {
    var e := WaitStep(s, p, a).value;
    assert KinOk(p, s.tab, s.pc);
    KinFrame(s.tab, s.pc, e.tab, e.pc, p);
  }

  lemma ForkAllocKin(s: State, p: nat, a: Act, np: nat)
    requires Sized(s) && KinInv(s.tab, s.pc) && p < |s.pc| && (a.ForkCall? || a.ForkFail?) && ForkStep(s, p, a).Some?
    requires np == (if a.ForkCall? then a.np else s.pc[p].np) && np < |s.pc| && np != p && s.pc[np].NoThread? &&
             np != INIT
    requires NotForked(s.pc, p, np)
    ensures var e := ForkStep(s, p, a).value; EffSized(e, |s.pc|) && KinInv(e.tab, e.pc)
  {
    var e := ForkStep(s, p, a).value;
    assert KinOk(np, s.tab, s.pc);
    assert KinOk(p, s.tab, s.pc);
    assert e.tab.parent == s.tab.parent;
    forall q: nat | q < |s.pc| ensures KinOk(q, e.tab, e.pc) {
      assert KinOk(q, s.tab, s.pc);
    }
  }

  lemma ForkParentKin(s: State, p: nat, a: Act, np: nat)
    requires Sized(s) && KinInv(s.tab, s.pc) && p < |s.pc| && a.ForkParent? && ForkStep(s, p, a).Some?
    requires np == s.pc[p].np && np < |s.pc| && np != p && s.pc[np].NoThread? && np != INIT && s.tab.st[np] == USED
    requires NotForked(s.pc, p, np)
    ensures var e := ForkStep(s, p, a).value; EffSized(e, |s.pc|) && KinInv(e.tab, e.pc)
  {
    var e := ForkStep(s, p, a).value;
    assert KinOk(p, s.tab, s.pc);
    forall q: nat | q < |s.pc| ensures KinOk(q, e.tab, e.pc) {
      assert KinOk(q, s.tab, s.pc);
    }
  }

  lemma ForkSetKin(s: State, p: nat, a: Act, np: nat)
    requires Sized(s) && KinInv(s.tab, s.pc) && p < |s.pc| && a.ForkSet? && ForkStep(s, p, a).Some?
    requires np == s.pc[p].np && np < |s.pc| && np != p && s.pc[np].NoThread?
    ensures var e := ForkStep(s, p, a).value; EffSized(e, |s.pc|) && KinInv(e.tab, e.pc)
  {
    var e := ForkStep(s, p, a).value;
    assert KinOk(p, s.tab, s.pc);
    forall q: nat | q < |s.pc| ensures KinOk(q, e.tab, e.pc) {
      assert KinOk(q, s.tab, s.pc);
    }
  }

  lemma ForkKin(s: State, p: nat, a: Act, np: nat)
    requires Sized(s) && KinInv(s.tab, s.pc) && p < |s.pc| && !s.pc[p].NoThread? && ForkStep(s, p, a).Some?
    requires np == (if a.ForkCall? then a.np else s.pc[p].np) && np < |s.pc| && np != p
    requires !a.ForkDone? ==> s.pc[np].NoThread? && np != INIT && NotForked(s.pc, p, np)
    requires a.ForkParent? ==> s.tab.st[np] == USED
    ensures var e := ForkStep(s, p, a).value; EffSized(e, |s.pc|) && KinInv(e.tab, e.pc)
  {
    if a.ForkCall? || a.ForkFail? { ForkAllocKin(s, p, a, np); }
    else if a.ForkParent? { ForkParentKin(s, p, a, np); }
    else if a.ForkSet? { ForkSetKin(s, p, a, np); }
    else {
      var e := ForkStep(s, p, a).value;
      assert KinOk(p, s.tab, s.pc);
      KinFrame(s.tab, s.pc, e.tab, e.pc, p);
    }
  }

  /** Who is filling a slot is recorded in `maker`, so two fork()s never share a slot. */
  lemma SlotsNotShared(s: State, p: nat, x: nat)
    requires HandoffInv(s) && x < |s.pc| && (s.tab.maker[x] == None || s.tab.maker[x] == Some(p))
    ensures NotForked(s.pc, p, x)
  {
    forall w: nat | w < |s.pc| && w != p && Forking(s.pc[w]) && !s.pc[w].Fork7? ensures Base(s.pc[w]).np != x {
      assert ProcOk(w, s.tab, s.pc, s.cpus, s.on);
    }
  }

  lemma ThreadKin(s: State, c: nat, p: nat, a: Act)
    requires HandoffInv(s) && KinInv(s.tab, s.pc) && c < |s.cpus| && s.cpus[c].mode == InProc(p) && p < |s.pc| &&
             ThreadStep(s, p, a).Some?
    ensures var e := ThreadStep(s, p, a).value; EffSized(e, |s.pc|) && KinInv(e.tab, e.pc)
  {
    ThreadState(s, c, p);
    assert ProcOk(INIT, s.tab, s.pc, s.cpus, s.on);
    if SleepAct(a) { SleepKin(s, p, a); }
    else if WakeAct(a) { WakeKin(s, p, a); }
    else if ExitAct(a) { ExitKin(s, p, a); }
    else if WaitAct(a) {
      if a.WaitCheck? {
        ReapedOffCpu(s, c, p);
        assert ProcOk(s.pc[p].i, s.tab, s.pc, s.cpus, s.on);
        if s.tab.st[s.pc[p].i] == ZOMBIE { SlotsNotShared(s, p, s.pc[p].i); }
        ReapKin(s, p, a, s.pc[p].i);
      } else {
        WaitKin(s, p, a);
      }
    } else {
      var np := if a.ForkCall? then a.np else s.pc[p].np;
      assert ProcOk(np, s.tab, s.pc, s.cpus, s.on);
      if a.ForkCall? { SlotsNotShared(s, p, np); }
      else if !a.ForkDone? { ForkSlot(s, c, p); SlotsNotShared(s, p, np); }
      ForkKin(s, p, a, np);
    }
  }

  lemma StepKin(s: State, c: nat, a: Step)
    requires HandoffInv(s) && KinInv(s.tab, s.pc) && c < |s.cpus| && Do(s, c, a).Some?
    ensures var s' := Do(s, c, a).value; Sized(s') && KinInv(s'.tab, s'.pc)
  {
    StepHandoff(s, c, a);
    if a.Thread? {
      ThreadKin(s, c, s.cpus[c].mode.p, a.a);
    } else {
      var s' := Do(s, c, a).value;
      forall q: nat | q < |s'.pc| ensures KinOk(q, s'.tab, s'.pc) {
        assert KinOk(q, s.tab, s.pc);
      }
    }
  }
}
