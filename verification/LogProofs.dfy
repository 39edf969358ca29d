/** Crash atomicity and atomicity towards readers, over every run of the log protocol. */
module LogProofs {
  import opened LogFormat
  import opened LogProtocol

  lemma {:induction false} NumActiveUpdate(ops: seq<Op>, p: nat, o: Op)
    requires p < |ops|
    ensures NumActive(ops[p := o]) ==
            NumActive(ops) - (if ops[p].Active? then 1 else 0) + (if o.Active? then 1 else 0)
  {
    if p > 0 {
      NumActiveUpdate(ops[1..], p - 1, o);
      assert ops[p := o][1..] == ops[1..][p - 1 := o];
    } else {
      assert ops[p := o][1..] == ops[1..];
    }
  }

  lemma {:induction false} NumActiveMember(ops: seq<Op>, p: nat)
    requires p < |ops| && ops[p].Active?
    ensures NumActive(ops) >= 1
  {
    if p > 0 { NumActiveMember(ops[1..], p - 1); }
  }

  lemma {:induction false} NumActiveIdle(n: nat)
    ensures NumActive(seq(n, i => Idle)) == 0
  {
    if n > 0 {
      NumActiveIdle(n - 1);
      assert seq(n, i => Idle)[1..] == seq(n - 1, i => Idle);
    }
  }

  lemma RecoverContents(L: Layout, d: Disk, h: seq<int>, r: Disk)
    requires WellFormed(L, d) && h == Header(d[L.start]) && r == Recover(L, d)
    ensures forall i :: 0 <= i < |h| ==> r[h[i]] == d[L.start + 1 + i]
    ensures forall b :: 0 <= b < |d| && L.Home(b) && b !in h ==> r[b] == d[b]
  {
    assert h[..|h|] == h;
    var e := Installed(L, d, h, |h|);
    InstalledHere(L, d, h, |h|);
    forall i | 0 <= i < |h| ensures r[h[i]] == d[L.start + 1 + i] {
      assert L.Home(h[i]);
      assert e[h[i]] == d[L.start + 1 + i];
    }
  }

  lemma BootRecoverable(L: Layout, d: Disk)
    requires WellFormed(L, d)
    ensures Recoverable(L, d, Recover(L, d))
  {
    RecoverContents(L, d, Header(d[L.start]), Recover(L, d));
  }

  lemma BootInv(L: Layout, d: Disk, nproc: nat)
    requires WellFormed(L, d)
    ensures Inv(L, Recover(L, d), Boot(L, d, nproc))
  {
    NumActiveIdle(nproc);
    BootRecoverable(L, d);
  }

  lemma BeginOpInv(L: Layout, first: Disk, s: State, p: nat)
    requires Inv(L, first, s) && DoBeginOp(s, p).Next?
    ensures Inv(L, first, DoBeginOp(s, p).s)
  {
    NumActiveUpdate(s.ops, p, Active({}));
    OpenSnoc(s.current, Began(p));
    ApplyEventsSnoc(s.durable, s.current, Began(p));
  }

  lemma EndOpInv(L: Layout, first: Disk, s: State, p: nat)
    requires Inv(L, first, s) && DoEndOp(s, p).Next?
    ensures Inv(L, first, DoEndOp(s, p).s)
  {
    var s' := DoEndOp(s, p).s;
    NumActiveUpdate(s.ops, p, Idle);
    forall b | b in s'.unlogged ensures InOp(s'.ops, s'.held[b]) {
      assert !Holds(s, p, b);
    }
    OpenSnoc(s.current, Ended(p));
    ApplyEventsSnoc(s.durable, s.current, Ended(p));
  }

  lemma BreadInv(L: Layout, first: Disk, s: State, p: nat, b: int)
    requires Inv(L, first, s) && DoBread(L, s, p, b).Next?
    ensures Inv(L, first, DoBread(L, s, p, b).s)
  {
  }

  lemma ModifyInv(L: Layout, first: Disk, s: State, p: nat, b: int, v: Block)
    requires Inv(L, first, s) && DoModify(s, p, b, v).Next?
    ensures Inv(L, first, DoModify(s, p, b, v).s)
  {
  }

  lemma BrelseInv(L: Layout, first: Disk, s: State, p: nat, b: int)
    requires Inv(L, first, s) && DoBrelse(s, p, b).Next?
    ensures Inv(L, first, DoBrelse(s, p, b).s)
  {
  }

  lemma EvictInv(L: Layout, first: Disk, s: State, b: int)
    requires Inv(L, first, s) && DoEvict(s, b).Next?
    ensures Inv(L, first, DoEvict(s, b).s)
  {
  }

  lemma LogWriteHistory(L: Layout, first: Disk, s: State, p: nat, b: int)
    requires Inv(L, first, s) && DoLogWrite(L, s, p, b).Next?
    ensures var n := DoLogWrite(L, s, p, b).s;
            && HistoryOk(first, n.durable, n.store, n.groups, n.current, n.ops)
            && Counts(n.outstanding, n.committing, n.phase, n.ops) && !n.committing
  {
    NumActiveUpdate(s.ops, p, Active(s.ops[p].touched + {b}));
    NumActiveMember(s.ops, p);
    var e := Wrote(p, b, s.buf[b]);
    OpenSnoc(s.current, e);
    ApplyEventsSnoc(s.durable, s.current, e);
  }

  lemma LogWriteInv(L: Layout, first: Disk, s: State, p: nat, b: int)
    requires Inv(L, first, s) && DoLogWrite(L, s, p, b).Next?
    ensures Inv(L, first, DoLogWrite(L, s, p, b).s)
  {
    LogWriteHistory(L, first, s, p, b);
  }

  lemma CrashInv(L: Layout, first: Disk, s: State)
    requires Inv(L, first, s)
    ensures Inv(L, first, DoCrash(s))
  {
    NumActiveIdle(|s.ops|);
  }

  /** With no operation outstanding, no buffer holds an unlogged change. */
  lemma NothingUnlogged(L: Layout, first: Disk, s: State)
    requires Inv(L, first, s) && s.outstanding == 0
    ensures s.unlogged == {}
  {
    forall b | b in s.unlogged ensures false { NumActiveMember(s.ops, s.held[b]); }
  }

  /** The log region is never touched by a home write, and the other way round. */
  lemma LogBlockNotListed(L: Layout, lh: seq<int>, b: int)
    requires L.Valid() && LoggableList(L, lh) && L.start <= b < L.start + L.size
    ensures b !in lh
  {
    forall i | 0 <= i < |lh| ensures lh[i] != b { assert L.Home(lh[i]); }
  }

  /** Writing an unused log block, or the durable content of a home block, keeps a disk recoverable. */
  lemma WriteKeepsRecoverable(L: Layout, d: Disk, durable: Disk, b: int, v: Block)
    requires Recoverable(L, d, durable)
    requires L.start + |Header(d[L.start])| < b < L.start + L.size || (L.Home(b) && v == durable[b])
    ensures Recoverable(L, d[b := v], durable)
    ensures d[b := v][L.start] == d[L.start]
  {
    var h := Header(d[L.start]);
    assert Header(d[b := v][L.start]) == h;
    forall i | 0 <= i < |h| ensures d[b := v][L.start + 1 + i] == durable[h[i]] {}
  }

  lemma BwriteKeepsCache(buf: map<int, Block>, pins: set<int>, disk: Disk, store: Disk, b: int, v: Block)
    requires CacheAgrees(buf, pins, {}, disk, store) && 0 <= b < |disk|
    ensures CacheAgrees(buf[b := v], pins - {b}, {}, disk[b := v], store)
  {
  }

  /** What write_log copies for entry `t` is the logged content. */
  lemma PinnedView(L: Layout, s: State, t: nat)
    requires Shape(L, s) && CacheAgrees(s.buf, s.pins, {}, s.disk, s.store) && PinsOk(s.pins, s.lh, s.phase)
    requires s.phase.WriteLog? && t < |s.lh|
    ensures L.Home(s.lh[t]) && View(s, s.lh[t]) == s.store[s.lh[t]]
  {
  }

  lemma WriteLogProgress(L: Layout, t: nat, lh: seq<int>, d: Disk, store: Disk)
    requires L.Valid() && |d| == |store| == L.nblocks && LoggableList(L, lh) && t < |lh|
    requires ProgressOk(L, WriteLog(t), lh, d, store)
    ensures ProgressOk(L, WriteLog(t + 1), lh, d[L.start + 1 + t := store[lh[t]]], store)
  {
  }

  lemma WriteLogDisk(L: Layout, first: Disk, s: State)
    requires Inv(L, first, s) && s.phase.WriteLog? && s.phase.t < |s.lh| && DoCommit(L, s).Next?
    ensures var n := DoCommit(L, s).s;
            Recoverable(L, n.disk, n.durable) && ProgressOk(L, n.phase, n.lh, n.disk, n.store)
  {
    var t := s.phase.t;
    NothingUnlogged(L, first, s);
    PinnedView(L, s, t);
    WriteKeepsRecoverable(L, s.disk, s.durable, L.start + 1 + t, s.store[s.lh[t]]);
    WriteLogProgress(L, t, s.lh, s.disk, s.store);
  }

  lemma WriteLogCache(L: Layout, first: Disk, s: State)
    requires Inv(L, first, s) && s.phase.WriteLog? && s.phase.t < |s.lh| && DoCommit(L, s).Next?
    ensures var n := DoCommit(L, s).s;
            CacheAgrees(n.buf, n.pins, n.unlogged, n.disk, n.store) && PinsOk(n.pins, n.lh, n.phase)
  {
    var b := L.start + 1 + s.phase.t;
    NothingUnlogged(L, first, s);
    LogBlockNotListed(L, s.lh, b);
    assert s.pins - {b} == s.pins;
    BwriteKeepsCache(s.buf, s.pins, s.disk, s.store, b, View(s, s.lh[s.phase.t]));
  }

  lemma WriteLogInv(L: Layout, first: Disk, s: State)
    requires Inv(L, first, s) && s.phase.WriteLog? && s.phase.t < |s.lh| && DoCommit(L, s).Next?
    ensures Inv(L, first, DoCommit(L, s).s)
  {
    WriteLogDisk(L, first, s);
    WriteLogCache(L, first, s);
  }

  /** The commit point: with the log blocks in place, the header write makes `store` durable. */
  lemma HeaderCommits(L: Layout, d: Disk, durable: Disk, store: Disk, lh: seq<int>, hb: Block)
    requires Recoverable(L, d, durable) && |store| == L.nblocks && Header(d[L.start]) == []
    requires LoggableList(L, lh) && Distinct(lh)
    requires forall i :: 0 <= i < |lh| ==> d[L.start + 1 + i] == store[lh[i]]
    requires forall b :: 0 <= b < L.nblocks && b !in lh ==> store[b] == durable[b]
    ensures Recoverable(L, d[L.start := WithHeader(hb, lh)], store)
    ensures Header(WithHeader(hb, lh)) == lh
  {
    HeaderRoundTrip(hb, lh);
  }

  lemma WriteHeadHistory(first: Disk, s: State)
    requires HistoryOk(first, s.durable, s.store, s.groups, s.current, s.ops) && NumActive(s.ops) == 0
    ensures HistoryOk(first, s.store, s.store, s.groups + [s.current], [], s.ops)
  {
    assert (s.groups + [s.current])[..|s.groups|] == s.groups;
    forall p: nat ensures !InOp(s.ops, p) {
      if InOp(s.ops, p) { NumActiveMember(s.ops, p); }
    }
    assert Open(s.current) == {};
  }

  lemma WriteHeadDisk(L: Layout, first: Disk, s: State)
    requires Inv(L, first, s) && s.phase.WriteLog? && s.phase.t == |s.lh|
    ensures var n := DoCommit(L, s).s;
            Recoverable(L, n.disk, n.durable) && ProgressOk(L, n.phase, n.lh, n.disk, n.store)
  {
    HeaderCommits(L, s.disk, s.durable, s.store, s.lh, View(s, L.start));
  }

  lemma WriteHeadCache(L: Layout, first: Disk, s: State)
    requires Inv(L, first, s) && s.phase.WriteLog? && s.phase.t == |s.lh|
    ensures var n := DoCommit(L, s).s;
            CacheAgrees(n.buf, n.pins, n.unlogged, n.disk, n.store)
  {
    NothingUnlogged(L, first, s);
    LogBlockNotListed(L, s.lh, L.start);
    assert s.pins - {L.start} == s.pins;
    BwriteKeepsCache(s.buf, s.pins, s.disk, s.store, L.start, WithHeader(View(s, L.start), s.lh));
  }

  lemma WriteHeadInv(L: Layout, first: Disk, s: State)
    requires Inv(L, first, s) && s.phase.WriteLog? && s.phase.t == |s.lh|
    ensures Inv(L, first, DoCommit(L, s).s)
  {
    WriteHeadDisk(L, first, s);
    WriteHeadCache(L, first, s);
    WriteHeadHistory(first, s);
  }

  /** Copying log block `t` home, as commit and recovery both do it. */
  lemma CopyHome(L: Layout, d: Disk, durable: Disk, t: nat)
    requires Recoverable(L, d, durable)
    requires t < |Header(d[L.start])|
    requires forall i :: 0 <= i < t ==> d[Header(d[L.start])[i]] == durable[Header(d[L.start])[i]]
    ensures var h := Header(d[L.start]);
            var d' := d[h[t] := d[L.start + 1 + t]];
            && Recoverable(L, d', durable)
            && d'[L.start] == d[L.start]
            && forall i :: 0 <= i < t + 1 ==> d'[h[i]] == durable[h[i]]
  {
    var h := Header(d[L.start]);
    WriteKeepsRecoverable(L, d, durable, h[t], d[L.start + 1 + t]);
  }

  lemma ViewOfLog(L: Layout, s: State, b: int)
    requires Shape(L, s) && CacheAgrees(s.buf, s.pins, {}, s.disk, s.store) && PinsOk(s.pins, s.lh, s.phase)
    requires L.start <= b < L.start + L.size
    ensures View(s, b) == s.disk[b]
  {
    LogBlockNotListed(L, s.lh, b);
  }

  lemma InstallPins(pins: set<int>, lh: seq<int>, ph: Phase)
    requires ph.Install? && ph.t < |lh| && PinsOk(pins, lh, ph) && Distinct(lh)
    ensures PinsOk(pins - {lh[ph.t]}, lh, ph.(t := ph.t + 1))
    ensures ph.recovering ==> pins - {lh[ph.t]} == pins
  {
  }

  lemma InstallProgress(L: Layout, ph: Phase, lh: seq<int>, d: Disk, durable: Disk)
    requires Recoverable(L, d, durable) && LoggableList(L, lh) && ph.Install? && ph.t < |lh|
    requires ProgressOk(L, ph, lh, d, durable)
    ensures Recoverable(L, d[lh[ph.t] := d[L.start + 1 + ph.t]], durable)
    ensures ProgressOk(L, ph.(t := ph.t + 1), lh, d[lh[ph.t] := d[L.start + 1 + ph.t]], durable)
  {
    CopyHome(L, d, durable, ph.t);
  }

  lemma InstallDisk(L: Layout, first: Disk, s: State)
    requires Inv(L, first, s) && s.phase.Install? && s.phase.t < |s.lh|
    ensures var n := DoInstall(L, s);
            Recoverable(L, n.disk, n.durable) && ProgressOk(L, n.phase, n.lh, n.disk, n.store)
  {
    NothingUnlogged(L, first, s);
    ViewOfLog(L, s, L.start + 1 + s.phase.t);
    InstallProgress(L, s.phase, s.lh, s.disk, s.durable);
  }

  lemma InstallCache(L: Layout, first: Disk, s: State)
    requires Inv(L, first, s) && s.phase.Install? && s.phase.t < |s.lh|
    ensures var n := DoInstall(L, s);
            CacheAgrees(n.buf, n.pins, n.unlogged, n.disk, n.store) && PinsOk(n.pins, n.lh, n.phase)
  {
    var t := s.phase.t;
    NothingUnlogged(L, first, s);
    InstallPins(s.pins, s.lh, s.phase);
    BwriteKeepsCache(s.buf, s.pins, s.disk, s.store, s.lh[t], View(s, L.start + 1 + t));
  }

  lemma InstallBlockInv(L: Layout, first: Disk, s: State)
    requires Inv(L, first, s) && s.phase.Install? && s.phase.t < |s.lh|
    ensures Inv(L, first, DoInstall(L, s))
  {
    InstallDisk(L, first, s);
    InstallCache(L, first, s);
  }

  /** Once every log block is home, clearing the header loses nothing. */
  lemma ClearedHeader(L: Layout, d: Disk, durable: Disk, hb: Block)
    requires Recoverable(L, d, durable)
    requires forall i :: 0 <= i < |Header(d[L.start])| ==> d[Header(d[L.start])[i]] == durable[Header(d[L.start])[i]]
    ensures Recoverable(L, d[L.start := WithHeader(hb, [])], durable)
    ensures Header(WithHeader(hb, [])) == []
  {
    HeaderRoundTrip(hb, []);
    var h := Header(d[L.start]);
    forall b | 0 <= b < |d| && L.Home(b) ensures d[b] == durable[b] {
      if b in h { var i :| 0 <= i < |h| && h[i] == b; }
    }
  }

  lemma ClearHeadInv(L: Layout, first: Disk, s: State)
    requires Inv(L, first, s)
    requires s.phase.Install? && s.phase.t == |s.lh|
    ensures Inv(L, first, DoInstall(L, s))
  {
    NothingUnlogged(L, first, s);
    ClearedHeader(L, s.disk, s.durable, View(s, L.start));
    BwriteKeepsCache(s.buf, s.pins, s.disk, s.store, L.start, WithHeader(View(s, L.start), []));
  }

  lemma BootReadInv(L: Layout, first: Disk, s: State)
    requires Inv(L, first, s) && s.phase.BootRead?
    ensures Inv(L, first, DoRecovery(L, s).s)
  {
    NothingUnlogged(L, first, s);
  }

  lemma FinishInv(L: Layout, first: Disk, s: State)
    requires Inv(L, first, s) && s.phase.Finish?
    ensures Inv(L, first, DoCommit(L, s).s)
  {
  }

  lemma InstallInv(L: Layout, first: Disk, s: State)
    requires Inv(L, first, s) && s.phase.Install?
    ensures Inv(L, first, DoInstall(L, s))
  {
    if s.phase.t < |s.lh| { InstallBlockInv(L, first, s); } else { ClearHeadInv(L, first, s); }
  }

  lemma CommitInv(L: Layout, first: Disk, s: State)
    requires Inv(L, first, s) && DoCommit(L, s).Next?
    ensures Inv(L, first, DoCommit(L, s).s)
  {
    match s.phase
    case WriteLog(t) => if t < |s.lh| { WriteLogInv(L, first, s); } else { WriteHeadInv(L, first, s); }
    case Install(t, r) => InstallInv(L, first, s);
    case Finish => FinishInv(L, first, s);
  }

  lemma RecoveryInv(L: Layout, first: Disk, s: State)
    requires Inv(L, first, s) && DoRecovery(L, s).Next?
    ensures Inv(L, first, DoRecovery(L, s).s)
  {
    if s.phase.BootRead? { BootReadInv(L, first, s); } else { InstallInv(L, first, s); }
  }

  lemma StepInv(L: Layout, first: Disk, s: State, a: Step)
    requires Inv(L, first, s) && Do(L, s, a).Next?
    ensures Inv(L, first, Do(L, s, a).s)
  {
    match a
    case BeginOp(p) => BeginOpInv(L, first, s, p);
    case EndOp(p) => EndOpInv(L, first, s, p);
    case Bread(p, b) => BreadInv(L, first, s, p, b);
    case Modify(p, b, v) => ModifyInv(L, first, s, p, b, v);
    case LogWrite(p, b) => LogWriteInv(L, first, s, p, b);
    case Brelse(p, b) => BrelseInv(L, first, s, p, b);
    case Evict(b) => EvictInv(L, first, s, b);
    case Commit => CommitInv(L, first, s);
    case Recovery => RecoveryInv(L, first, s);
    case Crash => CrashInv(L, first, s);
  }
}
