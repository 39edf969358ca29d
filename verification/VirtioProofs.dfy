/** What every interleaving of callers, interrupt handler and device keeps. */
module VirtioProofs {
  import opened Prelude
  import opened VirtioRing
  import opened Counting

  predicate HasChain(p: Pc) { p.Formatted? || p.Ringed? || p.Wait? }

  /** The chain of a caller is complete, describes its request, and is used by nobody else. */
  predicate ChainOk(t: nat, p: Pc, desc: seq<Desc>, ops: seq<Op>, info: seq<Info>, use: seq<Use>)
    requires |desc| == |ops| == |info| == |use| == NUM
  {
    HasChain(p) ==>
      && p.h < NUM && desc[p.h].next < NUM && desc[desc[p.h].next].next < NUM
      && desc[p.h] == Desc(Header(p.h), false, true, desc[p.h].next)
      && desc[desc[p.h].next] == Desc(Data(t), !p.op.write, true, desc[desc[p.h].next].next)
      && desc[desc[desc[p.h].next].next] == Desc(Status(p.h), true, false, 0)
      && ops[p.h] == p.op && info[p.h].b == Some(t)
      && use[p.h] == Part(t, 0) && use[desc[p.h].next] == Part(t, 1) && use[desc[desc[p.h].next].next] == Part(t, 2)
  }

  ghost predicate ChainsOk(pc: seq<Pc>, desc: seq<Desc>, ops: seq<Op>, info: seq<Info>, use: seq<Use>)
    requires |desc| == |ops| == |info| == |use| == NUM
  {
    forall t: nat {:trigger ChainOk(t, pc[t], desc, ops, info, use)} :: t < |pc| ==>
      ChainOk(t, pc[t], desc, ops, info, use)
  }

  function Nth(desc: seq<Desc>, h: nat, pos: nat): nat {
    if pos == 0 then h
    else if h >= |desc| then NUM
    else if pos == 1 then desc[h].next
    else if desc[h].next >= |desc| then NUM else desc[desc[h].next].next
  }

  /** A descriptor is free, or one of the three of exactly one caller. */
  predicate UseOk(d: nat, use: seq<Use>, free: seq<bool>, pc: seq<Pc>, desc: seq<Desc>)
    requires d < |use| == |free|
  {
    && (free[d] <==> use[d] == Unused) && (free[d] ==> d < |desc| && desc[d] == Zero())
    && (use[d].Part? ==>
          use[d].t < |pc| && HasChain(pc[use[d].t]) && use[d].pos <= 2 && d == Nth(desc, pc[use[d].t].h, use[d].pos))
  }

  ghost predicate UsesOk(use: seq<Use>, free: seq<bool>, pc: seq<Pc>, desc: seq<Desc>)
    requires |use| == |free|
  {
    forall d: nat {:trigger UseOk(d, use, free, pc, desc)} :: d < |use| ==> UseOk(d, use, free, pc, desc)
  }

  predicate Whose(id: nat, r: Req, pc: seq<Pc>) { r.t < |pc| && pc[r.t] == Wait(r.op, r.h, id) }

  predicate IdOk(id: nat, reqs: seq<Req>, stage: seq<Stage>, heads: seq<nat>, dones: seq<Fin>, seen: nat, pc: seq<Pc>,
                 info: seq<Info>)
    requires id < |reqs| == |stage|
  {
    && (stage[id] == Posted <==> id >= |heads|)
    && (id < |heads| ==> heads[id] == reqs[id].h)
    && (!stage[id].Gone? ==> Whose(id, reqs[id], pc))
    && (stage[id].Done? || stage[id].Seen? || stage[id].Gone? ==> stage[id].q < |dones| && dones[stage[id].q].id == id)
    && (stage[id].Done? ==>
          stage[id].q >= seen && reqs[id].h < |info| && info[reqs[id].h].status == dones[stage[id].q].status)
    && (stage[id].Seen? || stage[id].Gone? ==> stage[id].q < seen)
  }

  ghost predicate IdsOk(reqs: seq<Req>, stage: seq<Stage>, heads: seq<nat>, dones: seq<Fin>, seen: nat, pc: seq<Pc>,
                        info: seq<Info>)
    requires |reqs| == |stage|
  {
    forall id: nat {:trigger IdOk(id, reqs, stage, heads, dones, seen, pc, info)} :: id < |reqs| ==>
      IdOk(id, reqs, stage, heads, dones, seen, pc, info)
  }

  /** Completion q is the transfer that request was posted for. */
  predicate FinOk(q: nat, dones: seq<Fin>, reqs: seq<Req>, stage: seq<Stage>)
    requires q < |dones| && |reqs| == |stage|
  {
    var f := dones[q];
    && f.id < |reqs| && f.op == reqs[f.id].op && f.buf == reqs[f.id].t
    && (stage[f.id].Done? || stage[f.id].Seen? || stage[f.id].Gone?) && stage[f.id].q == q
  }

  ghost predicate FinsOk(dones: seq<Fin>, reqs: seq<Req>, stage: seq<Stage>)
    requires |reqs| == |stage|
  {
    forall q: nat {:trigger FinOk(q, dones, reqs, stage)} :: q < |dones| ==> FinOk(q, dones, reqs, stage)
  }

  predicate ThreadOk(t: nat, p: Pc, busy: bool, reqs: seq<Req>, stage: seq<Stage>, lock: Option<Who>, avail: seq<nat>)
    requires |reqs| == |stage| && |avail| == NUM
  {
    && (p.Wait? ==>
          p.id < |reqs| && reqs[p.id] == Req(t, p.h, p.op) && !stage[p.id].Gone? && (busy <==> !stage[p.id].Seen?))
    && (p.Formatted? || p.Ringed? ==> lock == Some(Caller(t)) && busy)
    && (p.Ringed? ==> avail[|reqs| % NUM] == p.h)
  }

  ghost predicate ThreadsOk(pc: seq<Pc>, busy: seq<bool>, reqs: seq<Req>, stage: seq<Stage>, lock: Option<Who>,
                            avail: seq<nat>)
    requires |reqs| == |stage| && |avail| == NUM && |busy| == |pc|
  {
    forall t: nat {:trigger ThreadOk(t, pc[t], busy[t], reqs, stage, lock, avail)} :: t < |pc| ==>
      ThreadOk(t, pc[t], busy[t], reqs, stage, lock, avail)
  }

  /** Ring entries that are published and not consumed hold what was put there. */
  ghost predicate AvailOk(avail: seq<nat>, availIdx: nat, devIdx: nat, reqs: seq<Req>, heads: seq<nat>)
    requires |avail| == NUM
  {
    && |heads| <= |reqs| <= |heads| + NUM && availIdx == |reqs| % U16 && devIdx == |heads| % U16
    && forall p: nat {:trigger reqs[p]} :: |heads| <= p < |reqs| ==> avail[p % NUM] == reqs[p].h
  }

  ghost predicate UsedOk(used: seq<nat>, usedIdx: nat, usedSeen: nat, reqs: seq<Req>, dones: seq<Fin>, seen: nat)
    requires |used| == NUM
  {
    && seen <= |dones| <= seen + NUM && usedIdx == |dones| % U16 && usedSeen == seen % U16
    && forall q: nat {:trigger dones[q]} :: seen <= q < |dones| ==>
         dones[q].id < |reqs| && used[q % NUM] == reqs[dones[q].id].h
  }

  /** A caller is asleep only while its request is on its way, or while descriptors are short. */
  predicate SleepOk(p: Pc, asleep: bool, busy: bool, free: seq<bool>) {
    asleep ==> (p.Wait? && busy) || (p.NeedDesc? && Alloc3(free) == None)
  }

  ghost predicate SleepsOk(pc: seq<Pc>, asleep: seq<bool>, busy: seq<bool>, free: seq<bool>)
    requires |asleep| == |busy| == |pc|
  {
    forall t: nat {:trigger SleepOk(pc[t], asleep[t], busy[t], free)} :: t < |pc| ==>
      SleepOk(pc[t], asleep[t], busy[t], free)
  }

  ghost predicate Core(s: State) {
    && Sized(s)
    && ChainsOk(s.pc, s.desc, s.ops, s.info, s.use) && UsesOk(s.use, s.free, s.pc, s.desc)
    && IdsOk(s.reqs, s.stage, s.heads, s.dones, s.seen, s.pc, s.info) && FinsOk(s.dones, s.reqs, s.stage)
    && ThreadsOk(s.pc, s.busy, s.reqs, s.stage, s.lock, s.avail)
    && AvailOk(s.avail, s.availIdx, s.devIdx, s.reqs, s.heads) &&
       UsedOk(s.used, s.usedIdx, s.usedSeen, s.reqs, s.dones, s.seen)
  }

  /** The handler has passed only successful requests. */
  ghost predicate SeenGood(dones: seq<Fin>, seen: nat) {
    seen <= |dones| && forall q :: 0 <= q < seen ==> dones[q].status == 0
  }

  ghost predicate Inv(s: State) {
    Core(s) && SleepsOk(s.pc, s.asleep, s.busy, s.free) && SeenGood(s.dones, s.seen)
  }

  // ---------------------------------------------------------------- counting

  /** Requests that are not finished use different chains. */
  lemma HeadsDiffer(s: State, id: nat, id': nat)
    requires Core(s) && id < |s.reqs| && id' < |s.reqs| && id != id' && !s.stage[id].Gone? && !s.stage[id'].Gone?
    ensures s.reqs[id].h < NUM && s.reqs[id].h != s.reqs[id'].h
  {
    assert IdOk(id, s.reqs, s.stage, s.heads, s.dones, s.seen, s.pc, s.info);
    assert IdOk(id', s.reqs, s.stage, s.heads, s.dones, s.seen, s.pc, s.info);
    var t, t' := s.reqs[id].t, s.reqs[id'].t;
    assert ChainOk(t, s.pc[t], s.desc, s.ops, s.info, s.use);
    assert ChainOk(t', s.pc[t'], s.desc, s.ops, s.info, s.use);
  }

  lemma HeadRange(s: State, id: nat)
    requires Core(s) && id < |s.reqs| && !s.stage[id].Gone?
    ensures s.reqs[id].h < NUM && s.reqs[id].t < |s.pc| && s.use[s.reqs[id].h] == Part(s.reqs[id].t, 0) &&
            s.pc[s.reqs[id].t] == Wait(s.reqs[id].op, s.reqs[id].h, id)
  {
    assert IdOk(id, s.reqs, s.stage, s.heads, s.dones, s.seen, s.pc, s.info);
    var t := s.reqs[id].t;
    assert ChainOk(t, s.pc[t], s.desc, s.ops, s.info, s.use);
  }

  /** The heads of the requests from lo on. */
  ghost function HeadsFrom(reqs: seq<Req>, lo: nat): (r: seq<nat>)
    requires lo <= |reqs|
    ensures |r| == |reqs| - lo && forall i :: 0 <= i < |r| ==> r[i] == reqs[lo + i].h
  {
    seq<nat>(|reqs| - lo, i requires 0 <= i < |reqs| - lo => reqs[lo + i].h)
  }

  lemma PostedHead(s: State, t: nat, id: nat)
    requires Core(s) && t < |s.pc| && s.pc[t].Formatted? && |s.heads| <= id < |s.reqs|
    ensures s.stage[id] == Posted && s.reqs[id].h < NUM && s.reqs[id].h != s.pc[t].h
  {
    assert IdOk(id, s.reqs, s.stage, s.heads, s.dones, s.seen, s.pc, s.info);
    HeadRange(s, id);
    assert ChainOk(t, s.pc[t], s.desc, s.ops, s.info, s.use);
  }

  lemma PostedHeads(s: State, t: nat)
    requires Core(s) && t < |s.pc| && s.pc[t].Formatted?
    ensures Indices(HeadsFrom(s.reqs, |s.heads|), NUM) && s.pc[t].h !in HeadsFrom(s.reqs, |s.heads|)
  {
    var k, w := |s.heads|, HeadsFrom(s.reqs, |s.heads|);
    forall i | 0 <= i < |w| ensures w[i] < NUM && w[i] != s.pc[t].h { PostedHead(s, t, k + i); }
    forall i, j | 0 <= i < j < |w| ensures w[i] != w[j] {
      PostedHead(s, t, k + i);
      PostedHead(s, t, k + j);
      HeadsDiffer(s, k + i, k + j);
    }
  }

  /** There is room in the avail ring for one more request. */
  lemma AvailRoom(s: State, t: nat)
    requires Core(s) && t < |s.pc| && s.pc[t].Formatted?
    ensures |s.reqs| < |s.heads| + NUM
  {
    assert ChainOk(t, s.pc[t], s.desc, s.ops, s.info, s.use);
    PostedHeads(s, t);
    Pigeonhole(HeadsFrom(s.reqs, |s.heads|), NUM, s.pc[t].h);
  }

  /** The heads of the requests that are completed and not yet seen by the handler. */
  ghost function Unseen(reqs: seq<Req>, dones: seq<Fin>, lo: nat): (r: seq<nat>)
    requires lo <= |dones|
    ensures |r| == |dones| - lo && forall i :: 0 <= i < |r| ==> r[i] == HeadOf(reqs, dones[lo + i])
  {
    seq<nat>(|dones| - lo, i requires 0 <= i < |dones| - lo => HeadOf(reqs, dones[lo + i]))
  }

  function HeadOf(reqs: seq<Req>, f: Fin): nat { if f.id < |reqs| then reqs[f.id].h else 0 }

  lemma UnseenDone(s: State, q: nat)
    requires Core(s) && s.seen <= q < |s.dones|
    ensures s.dones[q].id < |s.reqs| && s.stage[s.dones[q].id] == Done(q)
  {
    assert FinOk(q, s.dones, s.reqs, s.stage);
    assert IdOk(s.dones[q].id, s.reqs, s.stage, s.heads, s.dones, s.seen, s.pc, s.info);
  }

  lemma UnseenDiffers(s: State, q: nat, id: nat)
    requires Core(s) && s.seen <= q < |s.dones| && id < |s.reqs| && s.dones[q].id != id && !s.stage[id].Gone?
    ensures s.dones[q].id < |s.reqs| && s.reqs[s.dones[q].id].h < NUM && s.reqs[s.dones[q].id].h != s.reqs[id].h
  {
    UnseenDone(s, q);
    HeadsDiffer(s, s.dones[q].id, id);
  }

  lemma UnseenPair(s: State, q: nat, q': nat)
    requires Core(s) && s.seen <= q < q' < |s.dones|
    ensures HeadOf(s.reqs, s.dones[q]) != HeadOf(s.reqs, s.dones[q'])
  {
    UnseenDone(s, q);
    UnseenDone(s, q');
    UnseenDiffers(s, q, s.dones[q'].id);
  }

  lemma UnseenTaken(s: State, q: nat, id: nat)
    requires Core(s) && s.seen <= q < |s.dones| && id < |s.reqs| && s.stage[id] == Taken
    ensures HeadOf(s.reqs, s.dones[q]) < NUM && HeadOf(s.reqs, s.dones[q]) != s.reqs[id].h
  {
    UnseenDone(s, q);
    UnseenDiffers(s, q, id);
  }

  lemma UnseenHeads(s: State, id: nat)
    requires Core(s) && id < |s.reqs| && s.stage[id] == Taken
    ensures Indices(Unseen(s.reqs, s.dones, s.seen), NUM) && s.reqs[id].h !in Unseen(s.reqs, s.dones, s.seen)
  {
    var w := Unseen(s.reqs, s.dones, s.seen);
    forall i | 0 <= i < |w| ensures w[i] < NUM && w[i] != s.reqs[id].h { UnseenTaken(s, s.seen + i, id); }
    UnseenDistinct(s);
  }

  lemma UnseenDistinct(s: State)
    requires Core(s)
    ensures s.seen <= |s.dones| && var w := Unseen(s.reqs, s.dones, s.seen);
            forall i, j :: 0 <= i < j < |w| ==> w[i] != w[j]
  {
    var w := Unseen(s.reqs, s.dones, s.seen);
    forall i, j | 0 <= i < j < |w| ensures w[i] != w[j] { UnseenPair(s, s.seen + i, s.seen + j); }
  }

  /** There is room in the used ring for one more completion. */
  lemma UsedRoom(s: State, id: nat)
    requires Core(s) && id < |s.reqs| && s.stage[id] == Taken
    ensures |s.dones| < s.seen + NUM
  {
    HeadRange(s, id);
    UnseenHeads(s, id);
    Pigeonhole(Unseen(s.reqs, s.dones, s.seen), NUM, s.reqs[id].h);
  }
}
