/** What every run of the log protocol guarantees, from any well-formed disk,
    for any interleaving of clients, commits, evictions and crashes. */
module LogTheorems {
  import opened LogFormat
  import opened LogProtocol
  import opened LogProofs

  function Exec(L: Layout, s: State, steps: seq<Step>): Outcome
    decreases |steps|
  {
    if steps == [] then Next(s)
    else if !Shape(L, s) then Blocked
    else match Do(L, s, steps[0])
      case Next(s') => Exec(L, s', steps[1..])
      case o => o
  }

  lemma {:induction false} ExecInv(L: Layout, first: Disk, s: State, steps: seq<Step>)
    requires Inv(L, first, s)
    ensures Exec(L, s, steps).Next? ==> Inv(L, first, Exec(L, s, steps).s)
    decreases |steps|
  {
    if steps != [] && Do(L, s, steps[0]).Next? {
      StepInv(L, first, s, steps[0]);
      ExecInv(L, first, Do(L, s, steps[0]).s, steps[1..]);
    }
  }

  lemma {:induction false} ExecGroups(L: Layout, first: Disk, s: State, steps: seq<Step>)
    requires Inv(L, first, s)
    ensures Exec(L, s, steps).Next? ==> s.groups <= Exec(L, s, steps).s.groups
    decreases |steps|
  {
    if steps != [] && Do(L, s, steps[0]).Next? {
      StepInv(L, first, s, steps[0]);
      CommitPoint(L, first, s, steps[0]);
      ExecGroups(L, first, Do(L, s, steps[0]).s, steps[1..]);
    }
  }

  /** No run ends in the "log.committing" or the "outside of trans" panic. */
  lemma {:induction false} ExecPanics(L: Layout, first: Disk, s: State, steps: seq<Step>)
    requires Inv(L, first, s)
    ensures Exec(L, s, steps).Panic? ==> Exec(L, s, steps).why == "too big a transaction"
    decreases |steps|
  {
    if steps != [] {
      OnlyTooBigPanics(L, first, s, steps[0]);
      if Do(L, s, steps[0]).Next? {
        StepInv(L, first, s, steps[0]);
        ExecPanics(L, first, Do(L, s, steps[0]).s, steps[1..]);
      }
    }
  }

  lemma {:induction false} ExecSnoc(L: Layout, s: State, steps: seq<Step>, a: Step)
    requires Exec(L, s, steps).Next? && Shape(L, Exec(L, s, steps).s)
    ensures Exec(L, s, steps + [a]) == Do(L, Exec(L, s, steps).s, a)
    decreases |steps|
  {
    if steps == [] {
      assert ([] + [a])[1..] == [];
    } else {
      ExecSnoc(L, Do(L, s, steps[0]).s, steps[1..], a);
      assert (steps + [a])[1..] == steps[1..] + [a];
    }
  }

  /** Of the three panics in log.c only the transaction-size guard can fire; in particular
      no end_op ever finds a commit in progress. */
  lemma OnlyTooBigPanics(L: Layout, first: Disk, s: State, a: Step)
    requires Inv(L, first, s)
    ensures Do(L, s, a).Panic? ==> Do(L, s, a).why == "too big a transaction" && |s.lh| >= L.Cap()
  {
    if (a.EndOp? || a.LogWrite?) && InOp(s.ops, a.p) { NumActiveMember(s.ops, a.p); }
  }

  /** PANICS.  No run, with whatever crashes, ends in one of the two other panics. */
  lemma PanicsInRuns(L: Layout, d: Disk, nproc: nat, steps: seq<Step>)
    requires WellFormed(L, d)
    ensures Exec(L, Boot(L, d, nproc), steps).Panic? ==>
              Exec(L, Boot(L, d, nproc), steps).why == "too big a transaction"
  {
    BootInv(L, d, nproc);
    ExecPanics(L, Recover(L, d), Boot(L, d, nproc), steps);
  }

  /** CRASH ATOMICITY.  Stop the machine after any run, at any disk write, also during an
      earlier recovery: recovering the disk as it stands gives exactly the effect of the
      groups whose header write reached the disk, and these groups hold whole operations only. */
  lemma CrashAtomicity(L: Layout, d: Disk, nproc: nat, steps: seq<Step>)
    requires WellFormed(L, d)
    requires Exec(L, Boot(L, d, nproc), steps).Next?
    ensures var s := Exec(L, Boot(L, d, nproc), steps).s;
            && WellFormed(L, s.disk)
            && SameHome(L, Recover(L, s.disk), ApplyGroups(Recover(L, d), s.groups))
            && forall i :: 0 <= i < |s.groups| ==> Complete(s.groups[i])
  {
    BootInv(L, d, nproc);
    ExecInv(L, Recover(L, d), Boot(L, d, nproc), steps);
    var s := Exec(L, Boot(L, d, nproc), steps).s;
    RecoverableRecovers(L, s.disk, s.durable);
  }

  /** A group commits at one step: the write of a header naming its blocks. */
  lemma CommitPoint(L: Layout, first: Disk, s: State, a: Step)
    requires Inv(L, first, s) && Do(L, s, a).Next?
    ensures var s' := Do(L, s, a).s;
            if a.Commit? && s.phase.WriteLog? && s.phase.t == |s.lh|
            then s'.groups == s.groups + [s.current] && Header(s'.disk[L.start]) == s.lh
            else s'.groups == s.groups
  {
    if a.Commit? && s.phase.WriteLog? && s.phase.t == |s.lh| {
      HeaderRoundTrip(View(s, L.start), s.lh);
    }
  }

  /** Once committed, a group stays committed through everything that follows, crashes included. */
  lemma CommittedForever(L: Layout, d: Disk, nproc: nat, before: seq<Step>, after: seq<Step>)
    requires WellFormed(L, d)
    requires Exec(L, Boot(L, d, nproc), before).Next?
    requires Exec(L, Exec(L, Boot(L, d, nproc), before).s, after).Next?
    ensures Exec(L, Boot(L, d, nproc), before).s.groups <=
            Exec(L, Exec(L, Boot(L, d, nproc), before).s, after).s.groups
  {
    BootInv(L, d, nproc);
    ExecInv(L, Recover(L, d), Boot(L, d, nproc), before);
    ExecGroups(L, Recover(L, d), Exec(L, Boot(L, d, nproc), before).s, after);
  }

  /** Cache, log and disk act as one block store: bread hands out the value of the last
      log_write to the block, counted from the image the first boot recovered. */
  lemma ReadsLastWrite(L: Layout, d: Disk, nproc: nat, steps: seq<Step>, p: nat, b: int)
    requires WellFormed(L, d)
    requires Exec(L, Boot(L, d, nproc), steps).Next?
    ensures var s := Exec(L, Boot(L, d, nproc), steps).s;
            && |s.disk| == L.nblocks
            && (DoBread(L, s, p, b).Next? ==>
                  DoBread(L, s, p, b).s.buf[b] ==
                  ApplyEvents(ApplyGroups(Recover(L, d), s.groups), s.current)[b])
  {
    BootInv(L, d, nproc);
    ExecInv(L, Recover(L, d), Boot(L, d, nproc), steps);
    var s := Exec(L, Boot(L, d, nproc), steps).s;
    if DoBread(L, s, p, b).Next? { StoreIsVisible(L, Recover(L, d), s, b); }
  }

  lemma StoreIsVisible(L: Layout, first: Disk, s: State, b: int)
    requires Inv(L, first, s) && Live(s.phase) && L.Home(b) && b !in s.unlogged
    ensures View(s, b) == s.store[b]
  {
    if b in s.lh { var i :| 0 <= i < |s.lh| && s.lh[i] == b; }
  }
}
