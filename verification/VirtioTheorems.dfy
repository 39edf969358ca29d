/** What every run of the virtqueue protocol guarantees, however often the indices wrap. */
module VirtioTheorems {
  import opened Prelude
  import opened VirtioRing
  import opened VirtioProofs
  import opened VirtioSteps

  /** A run: the first step that cannot be taken ends it. */
  ghost function Exec(s: State, steps: seq<Step>): Outcome
    decreases |steps|
  {
    if steps == [] then Next(s)
    else if !Sized(s) then Blocked
    else match Do(s, steps[0])
      case Next(s') => Exec(s', steps[1..])
      case o => o
  }

  lemma {:induction false} ExecInv(s: State, steps: seq<Step>)
    requires Inv(s)
    ensures Exec(s, steps).Next? ==> Inv(Exec(s, steps).s)
    decreases |steps|
  {
    if steps != [] {
      StepInv(s, steps[0]);
      if Do(s, steps[0]).Next? { ExecInv(Do(s, steps[0]).s, steps[1..]); }
    }
  }

  ghost predicate Reached(callers: nat, steps: seq<Step>, s: State) {
    Exec(Boot(callers), steps) == Next(s)
  }

  /** THE ONLY PANIC.  In a reachable state exactly one step panics: the handler coming to a request
      that the device has reported as failed.  free_desc() never sees a free or out-of-range
      descriptor, the handler never a chain without a buffer, the device never a broken chain. */
  lemma PanicsExactly(callers: nat, steps: seq<Step>, s: State, a: Step)
    requires Reached(callers, steps, s)
    ensures Sized(s) && (Do(s, a).Panic? <==> a == IntrNext && Failure(s))
  {
    BootInv(callers);
    ExecInv(Boot(callers), steps);
    StepInv(s, a);
  }

  /** The device reports success throughout the run. */
  predicate Succeeds(steps: seq<Step>) {
    forall i :: 0 <= i < |steps| && steps[i].Complete? ==> steps[i].status == 0
  }

  predicate AllGood(dones: seq<Fin>) { forall q :: 0 <= q < |dones| ==> dones[q].status == 0 }

  lemma {:induction false} GoodRun(s: State, steps: seq<Step>)
    requires Inv(s) && AllGood(s.dones) && Succeeds(steps)
    ensures !Exec(s, steps).Panic?
    decreases |steps|
  {
    if steps != [] {
      StepInv(s, steps[0]);
      if Do(s, steps[0]).Next? { GoodRun(Do(s, steps[0]).s, steps[1..]); }
    }
  }

  /** NO PANIC in any run in which the device reports success. */
  lemma NoPanic(callers: nat, steps: seq<Step>)
    requires Succeeds(steps)
    ensures !Exec(Boot(callers), steps).Panic?
  {
    BootInv(callers);
    GoodRun(Boot(callers), steps);
  }

  /** NO LOST WAKEUP.  A caller asleep on its buffer has a request that the handler has not seen
      completed; one asleep on free[0] finds fewer than three descriptors free. */
  lemma SleepersOwed(callers: nat, steps: seq<Step>, s: State, t: nat)
    requires Reached(callers, steps, s) && t < |s.pc|
    ensures Sized(s)
    ensures s.asleep[t] ==> s.pc[t].Wait? || s.pc[t].NeedDesc?
    ensures s.asleep[t] && s.pc[t].Wait? ==>
              s.pc[t].id < |s.stage| && !s.stage[s.pc[t].id].Seen? && !s.stage[s.pc[t].id].Gone?
    ensures s.asleep[t] && s.pc[t].NeedDesc? ==>
              !exists i, j, k :: 0 <= i < j < k < NUM && s.free[i] && s.free[j] && s.free[k]
  {
    BootInv(callers);
    ExecInv(Boot(callers), steps);
    assert SleepOk(s.pc[t], s.asleep[t], s.busy[t], s.free);
    assert ThreadOk(t, s.pc[t], s.busy[t], s.reqs, s.stage, s.lock, s.avail);
    if i, j, k :| 0 <= i < j < k < NUM && s.free[i] && s.free[j] && s.free[k] { Alloc3Fails(s.free, i, j, k); }
  }

  /** A caller in virtio_disk_rw() is asleep. */
  predicate AllAsleep(s: State)
    requires Sized(s)
  {
    forall t :: 0 <= t < |s.pc| && !s.pc[t].Idle? ==> s.asleep[t]
  }

  /** The device has a request to take or to complete, or the handler a completion to look at. */
  ghost predicate Pending(s: State) {
    || s.devIdx != s.availIdx
    || s.usedSeen != s.usedIdx
    || (exists id :: 0 <= id < |s.stage| && s.stage[id] == Taken)
  }

  /** NO STALL.  With the lock free and every caller in virtio_disk_rw() asleep, there is something
      left for the device or the handler that will wake one of them. */
  lemma NoStall(callers: nat, steps: seq<Step>, s: State, t: nat)
    requires Reached(callers, steps, s) && Sized(s) && s.lock == None && t < |s.pc| && !s.pc[t].Idle? && AllAsleep(s)
    ensures Pending(s)
  {
    BootInv(callers);
    ExecInv(Boot(callers), steps);
    assert SleepOk(s.pc[t], s.asleep[t], s.busy[t], s.free);
    if s.pc[t].Wait? {
      OnItsWay(s, t);
    } else {
      var d := ShortUsed(s.free);
      assert UseOk(d, s.use, s.free, s.pc, s.desc);
      var u := s.use[d].t;
      assert ThreadOk(u, s.pc[u], s.busy[u], s.reqs, s.stage, s.lock, s.avail);
      assert SleepOk(s.pc[u], s.asleep[u], s.busy[u], s.free);
      OnItsWay(s, u);
    }
  }

  lemma ShortUsed(free: seq<bool>) returns (d: nat)
    requires |free| == NUM && Alloc3(free) == None
    ensures d < NUM && !free[d]
  {
    if free[0] && free[1] && free[2] { Alloc3Fails(free, 0, 1, 2); }
    d := if !free[0] then 0 else if !free[1] then 1 else 2;
  }

  lemma OnItsWay(s: State, t: nat)
    requires Inv(s) && t < |s.pc| && s.pc[t].Wait? && s.asleep[t]
    ensures Pending(s)
  {
    assert SleepOk(s.pc[t], s.asleep[t], s.busy[t], s.free);
    assert ThreadOk(t, s.pc[t], s.busy[t], s.reqs, s.stage, s.lock, s.avail);
    var id := s.pc[t].id;
    assert IdOk(id, s.reqs, s.stage, s.heads, s.dones, s.seen, s.pc, s.info);
    SameIndex(|s.heads|, |s.reqs|);
    SameIndex(s.seen, |s.dones|);
  }

  /** The three descriptors of a caller. */
  ghost function ChainOf(s: State, t: nat): set<nat>
    requires t < |s.pc|
  {
    if HasChain(s.pc[t]) then {Nth(s.desc, s.pc[t].h, 0), Nth(s.desc, s.pc[t].h, 1), Nth(s.desc, s.pc[t].h, 2)} else {}
  }

  /** PARTITION.  The free descriptors and the chains of the requests in flight, three each,
      partition the NUM descriptors. */
  lemma Partition(callers: nat, steps: seq<Step>, s: State)
    requires Reached(callers, steps, s)
    ensures Sized(s)
    ensures forall t: nat :: t < |s.pc| && HasChain(s.pc[t]) ==>
              |ChainOf(s, t)| == 3 && forall d :: d in ChainOf(s, t) ==> d < NUM && !s.free[d]
    ensures forall t: nat, u: nat :: t < |s.pc| && u < |s.pc| && t != u ==> ChainOf(s, t) !! ChainOf(s, u)
    ensures forall d: nat :: d < NUM && !s.free[d] ==> exists t: nat :: t < |s.pc| && d in ChainOf(s, t)
  {
    BootInv(callers);
    ExecInv(Boot(callers), steps);
    forall t: nat | t < |s.pc| && HasChain(s.pc[t])
      ensures |ChainOf(s, t)| == 3 && forall d :: d in ChainOf(s, t) ==>
                d < NUM && !s.free[d] && s.use[d].Part? && s.use[d].t == t
    {
      OwnChain(s, t);
    }
    forall d: nat | d < NUM && !s.free[d] ensures exists t: nat :: t < |s.pc| && d in ChainOf(s, t) {
      assert UseOk(d, s.use, s.free, s.pc, s.desc);
      assert d in ChainOf(s, s.use[d].t);
    }
  }

  lemma OwnChain(s: State, t: nat)
    requires Inv(s) && t < |s.pc| && HasChain(s.pc[t])
    ensures |ChainOf(s, t)| == 3
    ensures forall d :: d in ChainOf(s, t) ==> d < NUM && !s.free[d] && s.use[d].Part? && s.use[d].t == t
  {
    assert ChainOk(t, s.pc[t], s.desc, s.ops, s.info, s.use);
    var i, j, k := Nth(s.desc, s.pc[t].h, 0), Nth(s.desc, s.pc[t].h, 1), Nth(s.desc, s.pc[t].h, 2);
    assert UseOk(i, s.use, s.free, s.pc, s.desc);
    assert UseOk(j, s.use, s.free, s.pc, s.desc);
    assert UseOk(k, s.use, s.free, s.pc, s.desc);
    assert ChainOf(s, t) == {i, j, k};
  }

  /** RINGS.  The device receives the heads in the order they were posted, every one exactly once;
      a published entry that has not been consumed is still in its ring slot, in both rings. */
  lemma RingsDeliver(callers: nat, steps: seq<Step>, s: State)
    requires Reached(callers, steps, s)
    ensures Sized(s) && |s.heads| <= |s.reqs| && s.seen <= |s.dones|
    ensures forall id :: 0 <= id < |s.heads| ==> s.heads[id] == s.reqs[id].h
    ensures forall p: nat {:trigger s.reqs[p]} :: |s.heads| <= p < |s.reqs| ==> s.avail[p % NUM] == s.reqs[p].h
    ensures forall q: nat {:trigger s.dones[q]} :: q < |s.dones| ==> s.dones[q].id < |s.heads|
    ensures forall q: nat {:trigger s.dones[q]} :: s.seen <= q < |s.dones| ==>
              s.used[q % NUM] == s.reqs[s.dones[q].id].h
    ensures s.devIdx != s.availIdx <==> |s.heads| < |s.reqs|
    ensures s.usedSeen != s.usedIdx <==> s.seen < |s.dones|
  {
    BootInv(callers);
    ExecInv(Boot(callers), steps);
    forall id: nat | id < |s.heads| ensures s.heads[id] == s.reqs[id].h {
      assert IdOk(id, s.reqs, s.stage, s.heads, s.dones, s.seen, s.pc, s.info);
    }
    forall q: nat | q < |s.dones| ensures s.dones[q].id < |s.heads| {
      assert FinOk(q, s.dones, s.reqs, s.stage);
      assert IdOk(s.dones[q].id, s.reqs, s.stage, s.heads, s.dones, s.seen, s.pc, s.info);
    }
    SameIndex(|s.heads|, |s.reqs|);
    SameIndex(s.seen, |s.dones|);
  }

  /** ONCE EACH.  The device completes a request at most once, with the transfer it was posted for. */
  lemma CompletedOnce(callers: nat, steps: seq<Step>, s: State, q: nat, q': nat)
    requires Reached(callers, steps, s) && q < |s.dones| && q' < |s.dones|
    ensures s.dones[q].id < |s.reqs|
    ensures s.dones[q].op == s.reqs[s.dones[q].id].op && s.dones[q].buf == s.reqs[s.dones[q].id].t
    ensures q != q' ==> s.dones[q].id != s.dones[q'].id
  {
    BootInv(callers);
    ExecInv(Boot(callers), steps);
    assert FinOk(q, s.dones, s.reqs, s.stage);
    assert FinOk(q', s.dones, s.reqs, s.stage);
  }

  /** RETURN.  virtio_disk_rw() returns only after the device has completed this very request: its
      own transfer, into or out of its own buffer, reported as a success through the used ring. */
  lemma ReturnsAfterOwn(callers: nat, steps: seq<Step>, s: State, t: nat)
    requires Reached(callers, steps, s) && Sized(s) && Do(s, Finish(t)).Next?
    ensures Do(s, Finish(t)).s.pc[t].Idle? <==> !s.busy[t]
    ensures t < |s.pc| && s.pc[t].Wait? && s.pc[t].id < |s.reqs| && s.reqs[s.pc[t].id] == Req(t, s.pc[t].h, s.pc[t].op)
    ensures !s.busy[t] ==>
              exists q :: 0 <= q < s.seen <= |s.dones| && s.dones[q] == Fin(s.pc[t].id, s.pc[t].op, t, 0)
  {
    BootInv(callers);
    ExecInv(Boot(callers), steps);
    var id := s.pc[t].id;
    assert ThreadOk(t, s.pc[t], s.busy[t], s.reqs, s.stage, s.lock, s.avail);
    assert IdOk(id, s.reqs, s.stage, s.heads, s.dones, s.seen, s.pc, s.info);
    if !s.busy[t] {
      var q := s.stage[id].q;
      assert FinOk(q, s.dones, s.reqs, s.stage);
      assert s.dones[q] == Fin(id, s.pc[t].op, t, 0);
    }
  }

  /** ALL OR NOTHING.  A failed alloc3_desc() leaves no trace but a sleeping caller, and it fails
      exactly when fewer than three descriptors are free. */
  lemma AllOrNothing(callers: nat, steps: seq<Step>, s: State, t: nat)
    requires Reached(callers, steps, s) && Sized(s) && t < |s.pc| && s.pc[t].NeedDesc? && s.lock == None && !s.asleep[t]
    ensures Do(s, Alloc(t)).Next?
    ensures Do(s, Alloc(t)).s.asleep[t] <==>
              !exists i, j, k :: 0 <= i < j < k < NUM && s.free[i] && s.free[j] && s.free[k]
    ensures Do(s, Alloc(t)).s.asleep[t] ==> Do(s, Alloc(t)).s == s.(asleep := s.asleep[t := true])
    ensures !Do(s, Alloc(t)).s.asleep[t] ==>
              Do(s, Alloc(t)).s.pc[t].Formatted? && |ChainOf(Do(s, Alloc(t)).s, t)| == 3
  {
    BootInv(callers);
    ExecInv(Boot(callers), steps);
    StepInv(s, Alloc(t));
    if i, j, k :| 0 <= i < j < k < NUM && s.free[i] && s.free[j] && s.free[k] { Alloc3Fails(s.free, i, j, k); }
    if Alloc3(s.free).Some? {
      var n := Do(s, Alloc(t)).s;
      assert n.pc[t].Formatted?;
      OwnChain(n, t);
    }
  }
}
