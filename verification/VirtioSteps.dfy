/** Every step of the virtqueue protocol keeps the invariant and none panics. */
module VirtioSteps {
  import opened Prelude
  import opened VirtioRing
  import opened VirtioProofs

  lemma BootInv(n: nat)
    ensures Inv(Boot(n))
  {
    var s := Boot(n);
    forall t: nat | t < n ensures SleepOk(s.pc[t], s.asleep[t], s.busy[t], s.free) {}
    forall d: nat | d < NUM ensures UseOk(d, s.use, s.free, s.pc, s.desc) {}
    forall t: nat | t < n ensures ChainOk(t, s.pc[t], s.desc, s.ops, s.info, s.use) {}
    forall t: nat | t < n ensures ThreadOk(t, s.pc[t], s.busy[t], s.reqs, s.stage, s.lock, s.avail) {}
  }

  // ---------------------------------------------------------------- indices

  lemma Wrap(n: nat)
    ensures n % U16 % NUM == n % NUM
    ensures (n % U16 + 1) % U16 == (n + 1) % U16
  {
    var q, r := n / U16, n % U16;
    assert n == q * U16 + r && U16 == 8192 * NUM;
    assert n == (q * 8192 + r / NUM) * NUM + r % NUM;
  }

  /** Two counters at most NUM apart are equal exactly when their 16-bit forms are. */
  lemma SameIndex(m: nat, n: nat)
    requires m <= n <= m + NUM
    ensures m % U16 == n % U16 <==> m == n
  {
    if m % U16 == n % U16 {
      assert m == m / U16 * U16 + m % U16 && n == n / U16 * U16 + n % U16;
      assert n - m == (n / U16 - m / U16) * U16;
    }
  }

  /** Positions less than NUM apart have different ring slots. */
  lemma OtherSlot(p: nat, n: nat)
    requires p < n < p + NUM
    ensures p % NUM != n % NUM
  {
  }

  // ---------------------------------------------------------------- a caller without a chain

  lemma PcChains(s: State, t: nat, p: Pc)
    requires Core(s) && t < |s.pc| && !HasChain(s.pc[t]) && !HasChain(p)
    ensures ChainsOk(s.pc[t := p], s.desc, s.ops, s.info, s.use) && UsesOk(s.use, s.free, s.pc[t := p], s.desc)
  {
    var pc := s.pc[t := p];
    forall u: nat | u < |pc| ensures ChainOk(u, pc[u], s.desc, s.ops, s.info, s.use) {
      assert ChainOk(u, s.pc[u], s.desc, s.ops, s.info, s.use);
    }
    forall d: nat | d < |s.use| ensures UseOk(d, s.use, s.free, pc, s.desc) {
      assert UseOk(d, s.use, s.free, s.pc, s.desc);
    }
  }

  lemma PcIds(s: State, t: nat, p: Pc)
    requires Core(s) && t < |s.pc| && !s.pc[t].Wait?
    ensures IdsOk(s.reqs, s.stage, s.heads, s.dones, s.seen, s.pc[t := p], s.info)
  {
    var pc := s.pc[t := p];
    forall id: nat | id < |s.reqs| ensures IdOk(id, s.reqs, s.stage, s.heads, s.dones, s.seen, pc, s.info) {
      assert IdOk(id, s.reqs, s.stage, s.heads, s.dones, s.seen, s.pc, s.info);
    }
  }

  lemma BeginInv(s: State, t: nat, op: Op)
    requires Core(s) && DoBegin(s, t, op).Next?
    ensures Core(DoBegin(s, t, op).s)
  {
    var p := NeedDesc(op);
    PcChains(s, t, p);
    PcIds(s, t, p);
    forall u: nat | u < |s.pc| ensures ThreadOk(u, s.pc[t := p][u], s.busy[u], s.reqs, s.stage, s.lock, s.avail) {
      assert ThreadOk(u, s.pc[u], s.busy[u], s.reqs, s.stage, s.lock, s.avail);
    }
  }

  // ---------------------------------------------------------------- allocation

  lemma AllocChains(s: State, t: nat)
    requires Core(s) && DoAlloc(s, t).Next? && Alloc3(s.free).Some?
    ensures var n := DoAlloc(s, t).s; ChainsOk(n.pc, n.desc, n.ops, n.info, n.use)
  {
    var n := DoAlloc(s, t).s;
    var (i, j, k) := Alloc3(s.free).value;
    assert UseOk(i, s.use, s.free, s.pc, s.desc);
    assert UseOk(j, s.use, s.free, s.pc, s.desc);
    assert UseOk(k, s.use, s.free, s.pc, s.desc);
    forall u: nat | u < |n.pc| ensures ChainOk(u, n.pc[u], n.desc, n.ops, n.info, n.use) {
      assert ChainOk(u, s.pc[u], s.desc, s.ops, s.info, s.use);
    }
  }

  lemma AllocUses(s: State, t: nat)
    requires Core(s) && DoAlloc(s, t).Next? && Alloc3(s.free).Some?
    ensures var n := DoAlloc(s, t).s; UsesOk(n.use, n.free, n.pc, n.desc)
  {
    var n := DoAlloc(s, t).s;
    var (i, j, k) := Alloc3(s.free).value;
    assert UseOk(i, s.use, s.free, s.pc, s.desc);
    assert UseOk(j, s.use, s.free, s.pc, s.desc);
    assert UseOk(k, s.use, s.free, s.pc, s.desc);
    forall d: nat | d < |n.use| ensures UseOk(d, n.use, n.free, n.pc, n.desc) {
      assert UseOk(d, s.use, s.free, s.pc, s.desc);
      if d != i && d != j && d != k && s.use[d].Part? {
        assert ChainOk(s.use[d].t, s.pc[s.use[d].t], s.desc, s.ops, s.info, s.use);
      }
    }
  }

  lemma AllocIds(s: State, t: nat)
    requires Core(s) && DoAlloc(s, t).Next? && Alloc3(s.free).Some?
    ensures var n := DoAlloc(s, t).s;
            IdsOk(n.reqs, n.stage, n.heads, n.dones, n.seen, n.pc, n.info) &&
            ThreadsOk(n.pc, n.busy, n.reqs, n.stage, n.lock, n.avail)
  {
    var n := DoAlloc(s, t).s;
    var i := Alloc3(s.free).value.0;
    assert UseOk(i, s.use, s.free, s.pc, s.desc);
    forall id: nat | id < |n.reqs| ensures IdOk(id, n.reqs, n.stage, n.heads, n.dones, n.seen, n.pc, n.info) {
      assert IdOk(id, s.reqs, s.stage, s.heads, s.dones, s.seen, s.pc, s.info);
      if !s.stage[id].Gone? { HeadRange(s, id); }
    }
    forall u: nat | u < |n.pc| ensures ThreadOk(u, n.pc[u], n.busy[u], n.reqs, n.stage, n.lock, n.avail) {
      assert ThreadOk(u, s.pc[u], s.busy[u], s.reqs, s.stage, s.lock, s.avail);
    }
  }

  lemma AllocInv(s: State, t: nat)
    requires Core(s) && DoAlloc(s, t).Next?
    ensures Core(DoAlloc(s, t).s)
  {
    if Alloc3(s.free).Some? {
      AllocChains(s, t);
      AllocUses(s, t);
      AllocIds(s, t);
    }
  }

  // ---------------------------------------------------------------- posting

  lemma SameChain(s: State, t: nat, p: Pc)
    requires Core(s) && t < |s.pc| && HasChain(s.pc[t]) && HasChain(p) && p.h == s.pc[t].h && p.op == s.pc[t].op
    ensures ChainsOk(s.pc[t := p], s.desc, s.ops, s.info, s.use) && UsesOk(s.use, s.free, s.pc[t := p], s.desc)
  {
    var pc := s.pc[t := p];
    forall u: nat | u < |pc| ensures ChainOk(u, pc[u], s.desc, s.ops, s.info, s.use) {
      assert ChainOk(u, s.pc[u], s.desc, s.ops, s.info, s.use);
    }
    forall d: nat | d < |s.use| ensures UseOk(d, s.use, s.free, pc, s.desc) {
      assert UseOk(d, s.use, s.free, s.pc, s.desc);
    }
  }

  lemma PutRingThreads(s: State, t: nat)
    requires Core(s) && DoPutRing(s, t).Next?
    ensures var n := DoPutRing(s, t).s; ThreadsOk(n.pc, n.busy, n.reqs, n.stage, n.lock, n.avail)
  {
    var n := DoPutRing(s, t).s;
    Wrap(|s.reqs|);
    assert ThreadOk(t, s.pc[t], s.busy[t], s.reqs, s.stage, s.lock, s.avail);
    forall u: nat | u < |n.pc| ensures ThreadOk(u, n.pc[u], n.busy[u], n.reqs, n.stage, n.lock, n.avail) {
      assert ThreadOk(u, s.pc[u], s.busy[u], s.reqs, s.stage, s.lock, s.avail);
    }
  }

  /** The ring entry written is not one the device has yet to read. */
  lemma PutRingAvail(s: State, t: nat)
    requires Core(s) && DoPutRing(s, t).Next?
    ensures var n := DoPutRing(s, t).s; AvailOk(n.avail, n.availIdx, n.devIdx, n.reqs, n.heads)
  {
    var n := DoPutRing(s, t).s;
    AvailRoom(s, t);
    Wrap(|s.reqs|);
    forall p: nat | |s.heads| <= p < |s.reqs| ensures n.avail[p % NUM] == s.reqs[p].h {
      OtherSlot(p, |s.reqs|);
    }
  }

  lemma PutRingInv(s: State, t: nat)
    requires Core(s) && DoPutRing(s, t).Next?
    ensures Core(DoPutRing(s, t).s)
  {
    var p := Ringed(s.pc[t].op, s.pc[t].h);
    SameChain(s, t, p);
    PcIds(s, t, p);
    PutRingThreads(s, t);
    PutRingAvail(s, t);
  }

  lemma BumpIds(s: State, t: nat)
    requires Core(s) && DoBump(s, t).Next?
    ensures var n := DoBump(s, t).s;
            IdsOk(n.reqs, n.stage, n.heads, n.dones, n.seen, n.pc, n.info) && FinsOk(n.dones, n.reqs, n.stage)
  {
    var n := DoBump(s, t).s;
    forall id: nat | id < |n.reqs| ensures IdOk(id, n.reqs, n.stage, n.heads, n.dones, n.seen, n.pc, n.info) {
      if id < |s.reqs| { assert IdOk(id, s.reqs, s.stage, s.heads, s.dones, s.seen, s.pc, s.info); }
    }
    forall q: nat | q < |n.dones| ensures FinOk(q, n.dones, n.reqs, n.stage) {
      assert FinOk(q, s.dones, s.reqs, s.stage);
    }
  }

  lemma BumpThreads(s: State, t: nat)
    requires Core(s) && DoBump(s, t).Next?
    ensures var n := DoBump(s, t).s; ThreadsOk(n.pc, n.busy, n.reqs, n.stage, n.lock, n.avail)
  {
    var n := DoBump(s, t).s;
    assert ThreadOk(t, s.pc[t], s.busy[t], s.reqs, s.stage, s.lock, s.avail);
    forall u: nat | u < |n.pc| ensures ThreadOk(u, n.pc[u], n.busy[u], n.reqs, n.stage, n.lock, n.avail) {
      assert ThreadOk(u, s.pc[u], s.busy[u], s.reqs, s.stage, s.lock, s.avail);
    }
  }

  lemma RingedRoom(s: State, t: nat)
    requires Core(s) && t < |s.pc| && s.pc[t].Ringed?
    ensures |s.reqs| < |s.heads| + NUM
  {
    var p := Formatted(s.pc[t].op, s.pc[t].h);
    var s' := s.(pc := s.pc[t := p]);
    SameChain(s, t, p);
    PcIds(s, t, p);
    forall u: nat | u < |s'.pc| ensures ThreadOk(u, s'.pc[u], s'.busy[u], s.reqs, s.stage, s.lock, s.avail) {
      assert ThreadOk(u, s.pc[u], s.busy[u], s.reqs, s.stage, s.lock, s.avail);
    }
    AvailRoom(s', t);
  }

  lemma BumpRings(s: State, t: nat)
    requires Core(s) && DoBump(s, t).Next?
    ensures var n := DoBump(s, t).s;
            AvailOk(n.avail, n.availIdx, n.devIdx, n.reqs, n.heads) &&
            UsedOk(n.used, n.usedIdx, n.usedSeen, n.reqs, n.dones, n.seen)
  {
    var n := DoBump(s, t).s;
    RingedRoom(s, t);
    Wrap(|s.reqs|);
    assert ThreadOk(t, s.pc[t], s.busy[t], s.reqs, s.stage, s.lock, s.avail);
    forall p: nat | |n.heads| <= p < |n.reqs| ensures n.avail[p % NUM] == n.reqs[p].h {
      if p < |s.reqs| { assert s.avail[p % NUM] == s.reqs[p].h; }
    }
  }

  lemma BumpInv(s: State, t: nat)
    requires Core(s) && DoBump(s, t).Next?
    ensures Core(DoBump(s, t).s)
  {
    SameChain(s, t, Wait(s.pc[t].op, s.pc[t].h, |s.reqs|));
    BumpIds(s, t);
    BumpThreads(s, t);
    BumpRings(s, t);
  }

  // ---------------------------------------------------------------- the device

  lemma TakeInv(s: State)
    requires Core(s) && DoTake(s).Next?
    ensures Core(DoTake(s).s)
  {
    var n := DoTake(s).s;
    var k := |s.heads|;
    SameIndex(k, |s.reqs|);
    Wrap(k);
    assert s.avail[k % NUM] == s.reqs[k].h;
    forall id: nat | id < |n.reqs| ensures IdOk(id, n.reqs, n.stage, n.heads, n.dones, n.seen, n.pc, n.info) {
      assert IdOk(id, s.reqs, s.stage, s.heads, s.dones, s.seen, s.pc, s.info);
    }
    assert IdOk(k, s.reqs, s.stage, s.heads, s.dones, s.seen, s.pc, s.info);
    forall q: nat | q < |n.dones| ensures FinOk(q, n.dones, n.reqs, n.stage) {
      assert FinOk(q, s.dones, s.reqs, s.stage);
    }
    forall u: nat | u < |n.pc| ensures ThreadOk(u, n.pc[u], n.busy[u], n.reqs, n.stage, n.lock, n.avail) {
      assert ThreadOk(u, s.pc[u], s.busy[u], s.reqs, s.stage, s.lock, s.avail);
    }
  }

  lemma TakeSafe(s: State)
    requires Core(s)
    ensures !DoTake(s).Panic?
  {
    SameIndex(|s.heads|, |s.reqs|);
  }

  /** What the device finds when it follows the chain of a request it has taken. */
  lemma ChainFound(s: State, id: nat)
    requires Core(s) && id < |s.reqs| && s.stage[id] == Taken
    ensures id < |s.heads| && s.heads[id] == s.reqs[id].h
    ensures var r := s.reqs[id];
            && r.t < |s.pc| && s.pc[r.t] == Wait(r.op, r.h, id)
            && ChainOk(r.t, s.pc[r.t], s.desc, s.ops, s.info, s.use)
  {
    assert IdOk(id, s.reqs, s.stage, s.heads, s.dones, s.seen, s.pc, s.info);
    var t := s.reqs[id].t;
    assert ChainOk(t, s.pc[t], s.desc, s.ops, s.info, s.use);
  }

  lemma CompleteSafe(s: State, id: nat, status: nat)
    requires Core(s)
    ensures !DoComplete(s, id, status).Panic?
  {
    if id < |s.reqs| && s.stage[id] == Taken { ChainFound(s, id); }
  }

  lemma CompleteIds(s: State, id: nat, status: nat)
    requires Core(s) && DoComplete(s, id, status).Next?
    ensures var n := DoComplete(s, id, status).s;
            IdsOk(n.reqs, n.stage, n.heads, n.dones, n.seen, n.pc, n.info) && FinsOk(n.dones, n.reqs, n.stage)
  {
    var n := DoComplete(s, id, status).s;
    ChainFound(s, id);
    forall x: nat | x < |n.reqs| ensures IdOk(x, n.reqs, n.stage, n.heads, n.dones, n.seen, n.pc, n.info) {
      assert IdOk(x, s.reqs, s.stage, s.heads, s.dones, s.seen, s.pc, s.info);
      if x != id && s.stage[x].Done? { HeadsDiffer(s, x, id); }
    }
    forall q: nat | q < |n.dones| ensures FinOk(q, n.dones, n.reqs, n.stage) {
      if q < |s.dones| { assert FinOk(q, s.dones, s.reqs, s.stage); }
    }
  }

  lemma CompleteChains(s: State, id: nat, status: nat)
    requires Core(s) && DoComplete(s, id, status).Next?
    ensures var n := DoComplete(s, id, status).s;
            ChainsOk(n.pc, n.desc, n.ops, n.info, n.use) && ThreadsOk(n.pc, n.busy, n.reqs, n.stage, n.lock, n.avail)
  {
    var n := DoComplete(s, id, status).s;
    ChainFound(s, id);
    forall u: nat | u < |n.pc| ensures ChainOk(u, n.pc[u], n.desc, n.ops, n.info, n.use) {
      assert ChainOk(u, s.pc[u], s.desc, s.ops, s.info, s.use);
    }
    forall u: nat | u < |n.pc| ensures ThreadOk(u, n.pc[u], n.busy[u], n.reqs, n.stage, n.lock, n.avail) {
      assert ThreadOk(u, s.pc[u], s.busy[u], s.reqs, s.stage, s.lock, s.avail);
    }
  }

  /** The used ring entry written is not one the driver has yet to read. */
  lemma CompleteUsed(s: State, id: nat, status: nat)
    requires Core(s) && DoComplete(s, id, status).Next?
    ensures var n := DoComplete(s, id, status).s; UsedOk(n.used, n.usedIdx, n.usedSeen, n.reqs, n.dones, n.seen)
  {
    var n := DoComplete(s, id, status).s;
    ChainFound(s, id);
    UsedRoom(s, id);
    Wrap(|s.dones|);
    forall q: nat | n.seen <= q < |n.dones|
      ensures n.dones[q].id < |n.reqs| && n.used[q % NUM] == n.reqs[n.dones[q].id].h {
      if q < |s.dones| {
        OtherSlot(q, |s.dones|);
        assert s.dones[q].id < |s.reqs| && s.used[q % NUM] == s.reqs[s.dones[q].id].h;
      }
    }
  }

  lemma CompleteInv(s: State, id: nat, status: nat)
    requires Core(s) && DoComplete(s, id, status).Next?
    ensures Core(DoComplete(s, id, status).s)
  {
    CompleteIds(s, id, status);
    CompleteChains(s, id, status);
    CompleteUsed(s, id, status);
  }

  // ---------------------------------------------------------------- the interrupt handler

  lemma LockInv(s: State, lock: Option<Who>)
    requires Core(s) && !(s.lock.Some? && s.lock.value.Caller?)
    ensures Core(s.(lock := lock))
  {
    forall u: nat | u < |s.pc| ensures ThreadOk(u, s.pc[u], s.busy[u], s.reqs, s.stage, lock, s.avail) {
      assert ThreadOk(u, s.pc[u], s.busy[u], s.reqs, s.stage, s.lock, s.avail);
    }
  }

  /** The next used ring entry names the chain of a completed request whose caller still waits. */
  lemma HandlerFinds(s: State)
    requires Core(s) && s.usedSeen != s.usedIdx
    ensures s.seen < |s.dones| && s.dones[s.seen].id < |s.reqs|
    ensures var id := s.dones[s.seen].id;
            var r := s.reqs[id];
            && s.stage[id] == Done(s.seen) && r.h < NUM && s.used[s.usedSeen % NUM] == r.h
            && s.info[r.h] == Info(Some(r.t), s.dones[s.seen].status) && r.t < |s.pc| &&
               s.pc[r.t] == Wait(r.op, r.h, id)
  {
    SameIndex(s.seen, |s.dones|);
    Wrap(s.seen);
    var id := s.dones[s.seen].id;
    assert FinOk(s.seen, s.dones, s.reqs, s.stage);
    assert IdOk(id, s.reqs, s.stage, s.heads, s.dones, s.seen, s.pc, s.info);
    var t := s.reqs[id].t;
    assert ChainOk(t, s.pc[t], s.desc, s.ops, s.info, s.use);
  }

  /** The device has reported a failure that the handler comes to next. */
  predicate Failure(s: State) {
    s.lock == Some(Handler) && s.seen < |s.dones| && s.dones[s.seen].status != 0
  }

  lemma IntrSafe(s: State)
    requires Core(s)
    ensures DoIntrNext(s).Panic? <==> Failure(s)
  {
    SameIndex(s.seen, |s.dones|);
    if s.usedSeen != s.usedIdx { HandlerFinds(s); }
  }

  lemma IntrIds(s: State)
    requires Core(s) && DoIntrNext(s).Next?
    ensures var n := DoIntrNext(s).s;
            IdsOk(n.reqs, n.stage, n.heads, n.dones, n.seen, n.pc, n.info) && FinsOk(n.dones, n.reqs, n.stage)
  {
    var n := DoIntrNext(s).s;
    HandlerFinds(s);
    forall x: nat | x < |n.reqs| ensures IdOk(x, n.reqs, n.stage, n.heads, n.dones, n.seen, n.pc, n.info) {
      assert IdOk(x, s.reqs, s.stage, s.heads, s.dones, s.seen, s.pc, s.info);
    }
    forall q: nat | q < |n.dones| ensures FinOk(q, n.dones, n.reqs, n.stage) {
      assert FinOk(q, s.dones, s.reqs, s.stage);
    }
  }

  lemma IntrNextInv(s: State)
    requires Core(s) && DoIntrNext(s).Next?
    ensures Core(DoIntrNext(s).s)
  {
    var n := DoIntrNext(s).s;
    HandlerFinds(s);
    IntrIds(s);
    Wrap(s.seen);
    forall u: nat | u < |n.pc| ensures ThreadOk(u, n.pc[u], n.busy[u], n.reqs, n.stage, n.lock, n.avail) {
      assert ThreadOk(u, s.pc[u], s.busy[u], s.reqs, s.stage, s.lock, s.avail);
    }
  }

  // ---------------------------------------------------------------- return

  /** free_chain() on a complete chain frees its three descriptors, without a panic. */
  lemma ChainFreed(free: seq<bool>, desc: seq<Desc>, i: nat, j: nat, k: nat)
    requires |free| == |desc| && i < |free| && j < |free| && k < |free| && i != j && j != k && i != k
    requires !free[i] && !free[j] && !free[k]
    requires desc[i].more && desc[i].next == j && desc[j].more && desc[j].next == k && !desc[k].more
    ensures FreeChain(free, desc, i) == Some((free[i := true][j := true][k := true],
                                              desc[i := Zero()][j := Zero()][k := Zero()]))
  {
    var f1, d1 := free[i := true], desc[i := Zero()];
    var f2, d2 := f1[j := true], d1[j := Zero()];
    assert FreeChain(f2, d2, k) == Some((f2[k := true], d2[k := Zero()]));
    assert FreeChain(f1, d1, j) == FreeChain(f2, d2, k);
  }

  lemma FinishChain(s: State, t: nat)
    requires Core(s) && t < |s.pc| && s.pc[t].Wait?
    ensures s.pc[t].h < NUM && s.desc[s.pc[t].h].next < NUM && s.desc[s.desc[s.pc[t].h].next].next < NUM
    ensures var i := s.pc[t].h; var j := s.desc[i].next; var k := s.desc[j].next;
            && i != j && j != k && i != k
            && s.use[i] == Part(t, 0) && s.use[j] == Part(t, 1) && s.use[k] == Part(t, 2)
            && FreeChain(s.free, s.desc, i) == Some((s.free[i := true][j := true][k := true],
                                                     s.desc[i := Zero()][j := Zero()][k := Zero()]))
  {
    assert ChainOk(t, s.pc[t], s.desc, s.ops, s.info, s.use);
    var i := s.pc[t].h;
    var j := s.desc[i].next;
    var k := s.desc[j].next;
    assert UseOk(i, s.use, s.free, s.pc, s.desc);
    assert UseOk(j, s.use, s.free, s.pc, s.desc);
    assert UseOk(k, s.use, s.free, s.pc, s.desc);
    ChainFreed(s.free, s.desc, i, j, k);
  }

  lemma FinishSafe(s: State, t: nat)
    requires Core(s)
    ensures !DoFinish(s, t).Panic?
  {
    if t < |s.pc| && s.pc[t].Wait? {
      FinishChain(s, t);
      assert ThreadOk(t, s.pc[t], s.busy[t], s.reqs, s.stage, s.lock, s.avail);
    }
  }

  lemma FinishChains(s: State, t: nat)
    requires Core(s) && DoFinish(s, t).Next? && !s.busy[t]
    ensures var n := DoFinish(s, t).s; Sized(n) && ChainsOk(n.pc, n.desc, n.ops, n.info, n.use)
  {
    var n := DoFinish(s, t).s;
    FinishChain(s, t);
    forall u: nat | u < |n.pc| ensures ChainOk(u, n.pc[u], n.desc, n.ops, n.info, n.use) {
      assert ChainOk(u, s.pc[u], s.desc, s.ops, s.info, s.use);
    }
  }

  lemma FinishUses(s: State, t: nat)
    requires Core(s) && DoFinish(s, t).Next? && !s.busy[t]
    ensures var n := DoFinish(s, t).s; Sized(n) && UsesOk(n.use, n.free, n.pc, n.desc)
  {
    var n := DoFinish(s, t).s;
    FinishChain(s, t);
    forall d: nat | d < |n.use| ensures UseOk(d, n.use, n.free, n.pc, n.desc) {
      assert UseOk(d, s.use, s.free, s.pc, s.desc);
      if s.use[d].Part? { assert ChainOk(s.use[d].t, s.pc[s.use[d].t], s.desc, s.ops, s.info, s.use); }
    }
  }

  lemma FinishIds(s: State, t: nat)
    requires Core(s) && DoFinish(s, t).Next? && !s.busy[t]
    ensures var n := DoFinish(s, t).s;
            IdsOk(n.reqs, n.stage, n.heads, n.dones, n.seen, n.pc, n.info) && FinsOk(n.dones, n.reqs, n.stage)
  {
    var n := DoFinish(s, t).s;
    assert ThreadOk(t, s.pc[t], s.busy[t], s.reqs, s.stage, s.lock, s.avail);
    forall x: nat | x < |n.reqs| ensures IdOk(x, n.reqs, n.stage, n.heads, n.dones, n.seen, n.pc, n.info) {
      assert IdOk(x, s.reqs, s.stage, s.heads, s.dones, s.seen, s.pc, s.info);
    }
    forall q: nat | q < |n.dones| ensures FinOk(q, n.dones, n.reqs, n.stage) {
      assert FinOk(q, s.dones, s.reqs, s.stage);
    }
  }

  lemma FinishInv(s: State, t: nat)
    requires Core(s) && DoFinish(s, t).Next? && !s.busy[t]
    ensures Core(DoFinish(s, t).s)
  {
    var n := DoFinish(s, t).s;
    FinishChains(s, t);
    FinishUses(s, t);
    FinishIds(s, t);
    assert ThreadOk(t, s.pc[t], s.busy[t], s.reqs, s.stage, s.lock, s.avail);
    forall u: nat | u < |n.pc| ensures ThreadOk(u, n.pc[u], n.busy[u], n.reqs, n.stage, n.lock, n.avail) {
      assert ThreadOk(u, s.pc[u], s.busy[u], s.reqs, s.stage, s.lock, s.avail);
    }
  }

  // ---------------------------------------------------------------- any step

  /** A panic of the handler about a failed request is the only one, and it is certain. */
  lemma StepCore(s: State, a: Step)
    requires Core(s)
    ensures Do(s, a).Panic? <==> a == IntrNext && Failure(s)
    ensures Do(s, a).Next? ==> Core(Do(s, a).s)
  {
    match a
    case Begin(t, op) => if DoBegin(s, t, op).Next? { BeginInv(s, t, op); }
    case Alloc(t) => if DoAlloc(s, t).Next? { AllocInv(s, t); }
    case PutRing(t) => if DoPutRing(s, t).Next? { PutRingInv(s, t); }
    case Bump(t) => if DoBump(s, t).Next? { BumpInv(s, t); }
    case Finish(t) => FinishSafe(s, t); if DoFinish(s, t).Next? && !s.busy[t] { FinishInv(s, t); }
    case IntrEnter => if DoIntrEnter(s).Next? { LockInv(s, Some(Handler)); }
    case IntrNext => IntrSafe(s); if DoIntrNext(s).Next? { IntrNextInv(s); }
    case IntrExit => if DoIntrExit(s).Next? { LockInv(s, None); }
    case Take => TakeSafe(s); if DoTake(s).Next? { TakeInv(s); }
    case Complete(id, status) =>
      CompleteSafe(s, id, status);
      if DoComplete(s, id, status).Next? { CompleteInv(s, id, status); }
    case Kill(t) =>
  }

  /** wakeup() on the buffer and on free[0] reaches everyone whose wait is over. */
  lemma StepSleeps(s: State, a: Step)
    requires Inv(s) && Do(s, a).Next?
    ensures var n := Do(s, a).s;
            Sized(n) && SleepsOk(n.pc, n.asleep, n.busy, n.free) && SeenGood(n.dones, n.seen)
  {
    StepCore(s, a);
    var n := Do(s, a).s;
    if a.Bump? || a.Finish? {
      assert ThreadOk(a.t, s.pc[a.t], s.busy[a.t], s.reqs, s.stage, s.lock, s.avail);
    } else if a.IntrNext? {
      HandlerFinds(s);
    }
    forall u: nat | u < |n.pc| ensures SleepOk(n.pc[u], n.asleep[u], n.busy[u], n.free) {
      assert SleepOk(s.pc[u], s.asleep[u], s.busy[u], s.free);
    }
  }

  lemma StepInv(s: State, a: Step)
    requires Inv(s)
    ensures Do(s, a).Panic? <==> a == IntrNext && Failure(s)
    ensures Do(s, a).Next? ==> Inv(Do(s, a).s)
  {
    StepCore(s, a);
    if Do(s, a).Next? { StepSleeps(s, a); }
  }
}
