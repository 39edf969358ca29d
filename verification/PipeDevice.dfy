/** The ring of kernel/pipe.c in its own form: what pipewrite() and piperead() do to data[], nread
    and nwrite between two sleeps, with the lock held and every copy succeeding. */
module PipeDevice {
  import opened Prelude
  import opened PipeModel
  import opened PipeTheorems

  class Ring {
    const data: array<Byte>
    var nread: nat
    var nwrite: nat
    ghost var ins: seq<Byte>
    ghost var rem: seq<Byte>

    constructor ()
      ensures Valid() && ins == [] && rem == [] && fresh(data)
    {
      data := new Byte[PIPESIZE](i => 0);
      nread, nwrite, ins, rem := 0, 0, [], [];
    }

    ghost predicate Valid()
      reads this, data
    {
      RingOk(data[..], nread, nwrite, ins, rem)
    }

    /** The ring as the step system sees it. */
    ghost function View(): State
      reads this, data
    {
      State(data[..], nread, nwrite, true, true, None, [], ins, rem, {})
    }

    /** pipewrite(): bytes go in one by one until all are in or the ring is full. */
    method Fill(buf: seq<Byte>, from: nat) returns (i: nat)
      requires Valid() && from <= |buf|
      modifies this, data
      ensures Valid() && from <= i <= |buf| && rem == old(rem)
      ensures ins == old(ins) + buf[from..i]
      ensures i < |buf| ==> |ins| == |rem| + PIPESIZE
    {
      i := from;
      while i < |buf|
        invariant from <= i <= |buf| && Valid() && rem == old(rem) && ins == old(ins) + buf[from..i]
      {
        Tests(View());
        if nwrite == (nread + PIPESIZE) % U32 {
          return;
        }
        PutOk(View(), buf[i]);
        Store(buf[i]);
        assert buf[from..i + 1] == buf[from..i] + [buf[i]];
        i := i + 1;
      }
    }

    /** data[nwrite++ % PIPESIZE] = ch */
    method Store(ch: Byte)
      requires data.Length == PIPESIZE
      modifies this, data
      ensures data[..] == old(data[..])[old(nwrite) % PIPESIZE := ch] && nwrite == (old(nwrite) + 1) % U32
      ensures nread == old(nread) && rem == old(rem) && ins == old(ins) + [ch]
    {
      data[nwrite % PIPESIZE] := ch;
      nwrite := (nwrite + 1) % U32;
      ins := ins + [ch];
    }

    /** piperead(): the oldest bytes, as many as asked for and there. */
    method Drain(n: nat) returns (out: seq<Byte>)
      requires Valid()
      modifies this
      ensures Valid() && ins == old(ins) && rem == old(rem) + out && data[..] == old(data[..])
      ensures out == ins[|old(rem)|..|old(rem)| + |out|]
      ensures |out| == if n < |ins| - |old(rem)| then n else |ins| - |old(rem)|
    {
      out := [];
      while |out| < n
        invariant |out| <= n && Valid() && ins == old(ins) && rem == old(rem) + out
        decreases n - |out|
      {
        Tests(View());
        if nread == nwrite {
          break;
        }
        TakeOk(View());
        var ch := data[nread % PIPESIZE];
        nread := (nread + 1) % U32;
        rem := rem + [ch];
        out := out + [ch];
      }
      Tests(View());
      assert rem == ins[..|rem|];
      assert out == rem[|old(rem)|..];
    }
  }
}
