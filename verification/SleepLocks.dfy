/** kernel/sleeplock.c as an interleaving step system of processes that take and give back one
    sleeping lock.  sleep() gives up the inner spinlock and goes to sleep in one step, and a
    wakeup() reaches every sleeper, as proved for kernel/proc.c.  A process is known by its pid,
    its index plus one. */
module SleepLocks {
  import opened Prelude

  datatype Pc =
    | Outside
    | Testing                       // acquiresleep(): holds lk->lk, at the test of lk->locked
    | Asleep                        // sleep(lk, &lk->lk)
    | Woken                         // to take lk->lk again inside sleep()
    | Taken                         // holds lk->lk, lk->locked is set
    | Inside                        // acquiresleep() has returned
    | Leaving                       // releasesleep(): holds lk->lk, lk->locked is still set
    | Cleared                       // releasesleep(): lk->locked is clear, about to wake up

  datatype State = State(locked: bool, pid: nat, spin: Option<nat>, pc: seq<Pc>)

  datatype Step =
    | Acquire(t: nat) | Test(t: nat) | Resume(t: nat) | Unspin(t: nat)
    | Release(t: nat) | Clear(t: nat) | Wakeup(t: nat) | Kill(t: nat)

  function Wake(p: Pc): Pc { if p.Asleep? then Woken else p }

  function WakeAll(pc: seq<Pc>): (r: seq<Pc>)
    ensures |r| == |pc| && forall t :: 0 <= t < |pc| ==> r[t] == Wake(pc[t])
  {
    if pc == [] then [] else WakeAll(pc[..|pc| - 1]) + [Wake(pc[|pc| - 1])]
  }

  /** The process t is at p and goes to q; the inner spinlock is taken, kept or released. */
  function Go(s: State, t: nat, p: Pc, q: Pc, from: Option<nat>, to: Option<nat>): Option<State> {
    if t < |s.pc| && s.pc[t] == p && s.spin == from then Some(s.(pc := s.pc[t := q], spin := to)) else None
  }

  function Do(s: State, a: Step): Option<State> {
    var t := a.t;
    if t >= |s.pc| then None
    else match a
      case Acquire(_) => Go(s, t, Outside, Testing, None, Some(t))
      case Test(_) =>
        if s.locked then Go(s, t, Testing, Asleep, Some(t), None)
        else Go(s.(locked := true, pid := t + 1), t, Testing, Taken, Some(t), Some(t))
      case Resume(_) => Go(s, t, Woken, Testing, None, Some(t))
      case Unspin(_) => Go(s, t, Taken, Inside, Some(t), None)
      case Release(_) => Go(s, t, Inside, Leaving, None, Some(t))
      case Clear(_) => Go(s.(locked := false, pid := 0), t, Leaving, Cleared, Some(t), Some(t))
      case Wakeup(_) => Go(s.(pc := WakeAll(s.pc)), t, Cleared, Outside, Some(t), None)
      case Kill(_) => Some(s.(pc := s.pc[t := Wake(s.pc[t])]))
  }

  function Boot(n: nat): State { State(false, 0, None, seq(n, i => Outside)) }

  /** Between acquiresleep() and the clearing of lk->locked. */
  predicate Owns(p: Pc) { p.Taken? || p.Inside? || p.Leaving? }

  predicate Spinning(p: Pc) { p.Testing? || p.Taken? || p.Leaving? || p.Cleared? }

  // ---------------------------------------------------------------- invariant

  predicate ThreadOk(t: nat, p: Pc, locked: bool, pid: nat, spin: Option<nat>, clearing: bool) {
    && (Spinning(p) <==> spin == Some(t))
    && (Owns(p) <==> locked && pid == t + 1)
    && (p.Asleep? ==> locked || clearing)
  }

  /** lk->locked has just been cleared and the wakeup() is still to come. */
  predicate Clearing(spin: Option<nat>, pc: seq<Pc>) {
    spin.Some? && spin.value < |pc| && pc[spin.value].Cleared?
  }

  ghost predicate Inv(s: State) {
    && (s.spin.Some? ==> s.spin.value < |s.pc|) && (s.locked ==> 0 < s.pid <= |s.pc|)
    && forall t: nat {:trigger ThreadOk(t, s.pc[t], s.locked, s.pid, s.spin, Clearing(s.spin, s.pc))} :: t < |s.pc| ==>
         ThreadOk(t, s.pc[t], s.locked, s.pid, s.spin, Clearing(s.spin, s.pc))
  }

  lemma BootInv(n: nat)
    ensures Inv(Boot(n))
  {
    var s := Boot(n);
    forall t: nat | t < n ensures ThreadOk(t, s.pc[t], s.locked, s.pid, s.spin, Clearing(s.spin, s.pc)) {}
  }

  lemma StepInv(s: State, a: Step)
    requires Inv(s) && Do(s, a).Some?
    ensures Inv(Do(s, a).value)
  {
    var n := Do(s, a).value;
    assert ThreadOk(a.t, s.pc[a.t], s.locked, s.pid, s.spin, Clearing(s.spin, s.pc));
    forall t: nat | t < |n.pc| ensures ThreadOk(t, n.pc[t], n.locked, n.pid, n.spin, Clearing(n.spin, n.pc)) {
      assert ThreadOk(t, s.pc[t], s.locked, s.pid, s.spin, Clearing(s.spin, s.pc));
    }
  }

  ghost function Exec(s: State, steps: seq<Step>): Option<State>
    decreases |steps|
  {
    if steps == [] then Some(s)
    else match Do(s, steps[0])
      case None => None
      case Some(s') => Exec(s', steps[1..])
  }

  lemma {:induction false} ExecInv(s: State, steps: seq<Step>)
    requires Inv(s)
    ensures Exec(s, steps).Some? ==> Inv(Exec(s, steps).value)
    decreases |steps|
  {
    if steps != [] && Do(s, steps[0]).Some? {
      StepInv(s, steps[0]);
      ExecInv(Do(s, steps[0]).value, steps[1..]);
    }
  }

  /** MUTUAL EXCLUSION.  In every run at most one process is between acquiresleep() and the end of
      its releasesleep(); lk->locked says whether there is one and lk->pid which, so that
      holdingsleep() is right for every caller. */
  lemma Exclusive(n: nat, steps: seq<Step>, s: State, t: nat, u: nat)
    requires Exec(Boot(n), steps) == Some(s) && t < |s.pc| && u < |s.pc|
    ensures Owns(s.pc[t]) && Owns(s.pc[u]) ==> t == u
    ensures Owns(s.pc[t]) <==> s.locked && s.pid == t + 1
    ensures s.locked ==> exists o: nat :: o < |s.pc| && Owns(s.pc[o])
  {
    BootInv(n);
    ExecInv(Boot(n), steps);
    assert ThreadOk(t, s.pc[t], s.locked, s.pid, s.spin, Clearing(s.spin, s.pc));
    assert ThreadOk(u, s.pc[u], s.locked, s.pid, s.spin, Clearing(s.spin, s.pc));
    if s.locked {
      var o := s.pid - 1;
      assert ThreadOk(o, s.pc[o], s.locked, s.pid, s.spin, Clearing(s.spin, s.pc));
    }
  }

  /** NO LOST WAKEUP.  With the inner spinlock free, a process sleeps in acquiresleep() only while
      some process has the lock. */
  lemma SleepsOnlyIfLocked(n: nat, steps: seq<Step>, s: State, t: nat)
    requires Exec(Boot(n), steps) == Some(s) && s.spin == None && t < |s.pc| && s.pc[t].Asleep?
    ensures s.locked && exists o: nat :: o < |s.pc| && o != t && s.pc[o].Inside?
  {
    BootInv(n);
    ExecInv(Boot(n), steps);
    assert ThreadOk(t, s.pc[t], s.locked, s.pid, s.spin, Clearing(s.spin, s.pc));
    var o := s.pid - 1;
    assert ThreadOk(o, s.pc[o], s.locked, s.pid, s.spin, Clearing(s.spin, s.pc));
  }
}
