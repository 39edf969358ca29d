/** Soundness of the parser of user/sh.c: what it accepts is derived by the grammar. */
module ShellSound {
  import opened ShellGrammar
  import opened ShellDerive

  lemma Join(a: seq<Tok>, b: seq<Tok>, c: seq<Tok>)
    ensures a + (b + c) == (a + b) + c
  {
  }

  lemma Join3(a: seq<Tok>, b: seq<Tok>, c: seq<Tok>, d: seq<Tok>)
    ensures a + (b + (c + d)) == (a + (b + c)) + d
  {
  }

  function First(s: string): Tok { Tok(Lex(s).kind, Span(Lex(s).q, Lex(s).eq)) }

  lemma TokensOn(s: string)
    requires Lex(s).kind != End
    ensures Tokens(s) == [First(s)] + Tokens(Lex(s).rest)
  {
  }

  lemma PeekSym(s: string, c: char)
    requires Peek(s, [c]) && IsSymbol(c) && c != '>'
    ensures Lex(s).kind == Sym(c) && Tokens(s) == [First(s)] + Tokens(Lex(s).rest)
  {
    TokensOn(s);
  }

  // ---------------------------------------------------------------- redirections and words

  lemma RedirsStep(s: string)
    requires Redirs(s).Ok? && Peek(s, "<>")
    ensures IsOp(Lex(s).kind)
    ensures var f := Lex(Lex(s).rest);
            && f.kind == Word && Redirs(f.rest).Ok? && Redirs(s).rest == Redirs(f.rest).rest
            && Redirs(s).v == [TokRedir(First(s), First(Lex(s).rest))] + Redirs(f.rest).v
  {
  }

  lemma RedirsStop(s: string)
    requires !Peek(s, "<>")
    ensures Redirs(s).Ok? && Redirs(s).v == [] && Tokens(Redirs(s).rest) == Tokens(s)
  {
    SkipAgain(s);
  }

  lemma RedirOf(op: Tok, file: Tok, a: seq<Tok>, rs: seq<Redirection>)
    requires IsOp(op.kind) && file.kind == Word && DRedirs(a, rs)
    ensures DRedirs([op] + ([file] + a), [TokRedir(op, file)] + rs)
  {
    var b, q := [op] + ([file] + a), [TokRedir(op, file)] + rs;
    assert b[2..] == a && q[1..] == rs;
  }

  lemma {:induction false} FromRedirs(s: string) returns (a: seq<Tok>)
    requires Redirs(s).Ok?
    ensures Tokens(s) == a + Tokens(Redirs(s).rest) && DRedirs(a, Redirs(s).v)
    decreases |s|
  {
    if !Peek(s, "<>") {
      RedirsStop(s);
      a := [];
      assert a + Tokens(s) == Tokens(s);
    } else {
      RedirsStep(s);
      var s1, f := Lex(s).rest, Lex(Lex(s).rest);
      TokensOn(s);
      TokensOn(s1);
      var more := FromRedirs(f.rest);
      RedirOf(First(s), First(s1), more, Redirs(f.rest).v);
      Join3([First(s)], [First(s1)], more, Tokens(Redirs(f.rest).rest));
      a := [First(s)] + ([First(s1)] + more);
    }
  }

  /** Redirections in front of a simple command make a simple command. */
  lemma {:induction false} RedirsFirst(a: seq<Tok>, rs: seq<Redirection>, b: seq<Tok>, args: seq<Span>,
                                       more: seq<Redirection>)
    requires DRedirs(a, rs) && DSimple(b, args, more)
    ensures DSimple(a + b, args, rs + more)
    decreases |a|
  {
    if a == [] {
      assert a + b == b && rs + more == more;
    } else {
      RedirsFirst(a[2..], rs[1..], b, args, more);
      assert (a + b)[2..] == a[2..] + b && (rs + more)[1..] == rs[1..] + more;
    }
  }

  lemma WordFirst(t: Tok, b: seq<Tok>, args: seq<Span>, rs: seq<Redirection>)
    requires t.kind == Word && DSimple(b, args, rs)
    ensures DSimple([t] + b, [t.span] + args, rs)
  {
    assert ([t] + b)[1..] == b && ([t.span] + args)[1..] == args;
  }

  predicate ArgsEnd(s: string) { Peek(s, "|)&;") || Lex(s).kind == End }

  lemma ArgsStop(s: string, argc: nat)
    requires ArgsEnd(s)
    ensures Args(s, argc).Ok? && Args(s, argc).v == ([], []) && Tokens(Args(s, argc).rest) == Tokens(s)
  {
    SkipAgain(s);
  }

  lemma ArgsStep(s: string, argc: nat)
    requires Args(s, argc).Ok? && !ArgsEnd(s)
    ensures Lex(s).kind == Word && argc + 1 < MAXARGS && Redirs(Lex(s).rest).Ok?
    ensures var front := Redirs(Lex(s).rest);
            var r := Args(front.rest, argc + 1);
            && r.Ok? && Args(s, argc).rest == r.rest
            && Args(s, argc).v.0 == [First(s).span] + r.v.0 && Args(s, argc).v.1 == front.v + r.v.1
  {
  }

  lemma {:induction false} FromArgs(s: string, argc: nat) returns (a: seq<Tok>)
    requires Args(s, argc).Ok? && argc < MAXARGS
    ensures Tokens(s) == a + Tokens(Args(s, argc).rest) && DSimple(a, Args(s, argc).v.0, Args(s, argc).v.1)
    ensures argc + |Args(s, argc).v.0| < MAXARGS
    decreases |s|
  {
    if ArgsEnd(s) {
      ArgsStop(s, argc);
      a := [];
      assert a + Tokens(s) == Tokens(s);
    } else {
      ArgsStep(s, argc);
      TokensOn(s);
      var s1 := Lex(s).rest;
      var rs, s2 := Redirs(s1).v, Redirs(s1).rest;
      var front := FromRedirs(s1);
      var more := FromArgs(s2, argc + 1);
      var r := Args(s2, argc + 1);
      RedirsFirst(front, rs, more, r.v.0, r.v.1);
      WordFirst(First(s), front + more, r.v.0, rs + r.v.1);
      Join3([First(s)], front, more, Tokens(r.rest));
      a := [First(s)] + (front + more);
    }
  }

  // ---------------------------------------------------------------- exec, pipe, line

  lemma ExecStep(s: string)
    requires ParseExec(s).Ok? && !Peek(s, "(")
    ensures Redirs(s).Ok? && Args(Redirs(s).rest, 0).Ok? && ParseExec(s).rest == Args(Redirs(s).rest, 0).rest
    ensures var r := Args(Redirs(s).rest, 0); ParseExec(s).v == Wrap(Exec(r.v.0), Redirs(s).v + r.v.1)
  {
  }

  lemma SimpleOf(a: seq<Tok>, args: seq<Span>, rs: seq<Redirection>)
    requires DSimple(a, args, rs) && |args| < MAXARGS
    ensures DExec(a, Wrap(Exec(args), rs))
  {
    assert IsSimple(a, Wrap(Exec(args), rs), args, rs);
  }

  lemma {:induction false} FromExec(s: string) returns (a: seq<Tok>)
    requires ParseExec(s).Ok?
    ensures Tokens(s) == a + Tokens(ParseExec(s).rest) && DExec(a, ParseExec(s).v)
    decreases |s|, 1
  {
    if Peek(s, "(") {
      a := FromBlock(s);
    } else {
      ExecStep(s);
      var rs, s1 := Redirs(s).v, Redirs(s).rest;
      var front := FromRedirs(s);
      var more := FromArgs(s1, 0);
      var r := Args(s1, 0);
      RedirsFirst(front, rs, more, r.v.0, r.v.1);
      SimpleOf(front + more, r.v.0, rs + r.v.1);
      Join(front, more, Tokens(r.rest));
      a := front + more;
    }
  }

  lemma BlockStep(s: string)
    requires ParseBlock(s).Ok?
    ensures Peek(s, "(") && ParseLine(Lex(s).rest).Ok? && Peek(ParseLine(Lex(s).rest).rest, ")")
    ensures var line := ParseLine(Lex(s).rest);
            var r := Redirs(Lex(line.rest).rest);
            r.Ok? && ParseBlock(s).rest == r.rest && ParseBlock(s).v == Wrap(line.v, r.v)
  {
  }

  lemma {:induction false} FromBlock(s: string) returns (a: seq<Tok>)
    requires ParseBlock(s).Ok?
    ensures Tokens(s) == a + Tokens(ParseBlock(s).rest) && DExec(a, ParseBlock(s).v)
    decreases |s|, 0
  {
    BlockStep(s);
    PeekSym(s, '(');
    var s1 := Lex(s).rest;
    var inner := FromLine(s1);
    var d, s2 := ParseLine(s1).v, ParseLine(s1).rest;
    PeekSym(s2, ')');
    var s3 := Lex(s2).rest;
    var after := FromRedirs(s3);
    var rest := Tokens(Redirs(s3).rest);
    BlockOf(First(s), inner, First(s2), after, d, Redirs(s3).v);
    Join([First(s2)], after, rest);
    Join3([First(s)], inner, [First(s2)] + after, rest);
    a := [First(s)] + (inner + ([First(s2)] + after));
  }

  lemma BlockOf(open: Tok, inner: seq<Tok>, close: Tok, after: seq<Tok>, d: Cmd, rs: seq<Redirection>)
    requires open.kind == Sym('(') && close.kind == Sym(')') && DLine(inner, d) && DRedirs(after, rs)
    ensures DExec([open] + (inner + ([close] + after)), Wrap(d, rs))
  {
    var a, i := [open] + (inner + ([close] + after)), |inner| + 1;
    assert a[1..i] == inner && a[i + 1..] == after && a[i] == close;
    assert IsBlock(a, Wrap(d, rs), i, d, rs);
  }

  lemma {:induction false} FromPipe(s: string) returns (a: seq<Tok>)
    requires ParsePipe(s).Ok?
    ensures Tokens(s) == a + Tokens(ParsePipe(s).rest) && DPipe(a, ParsePipe(s).v)
    decreases |s|, 2
  {
    var e := ParseExec(s);
    a := FromExec(s);
    if !Peek(e.rest, "|") {
      SkipAgain(e.rest);
    } else {
      PeekSym(e.rest, '|');
      var bar, tail := First(e.rest), Lex(e.rest).rest;
      var more := FromPipe(tail);
      PipeOf(a, bar, more, e.v, ParsePipe(tail).v);
      Join3(a, [bar], more, Tokens(ParsePipe(tail).rest));
      a := a + ([bar] + more);
    }
  }

  lemma PipeOf(a: seq<Tok>, bar: Tok, b: seq<Tok>, l: Cmd, r: Cmd)
    requires bar.kind == Sym('|') && DExec(a, l) && DPipe(b, r)
    ensures DPipe(a + ([bar] + b), Pipe(l, r))
  {
    var ab := a + ([bar] + b);
    assert ab[..|a|] == a && ab[|a| + 1..] == b && ab[|a|] == bar;
    assert IsPiped(ab, Pipe(l, r), |a|);
  }

  lemma {:induction false} FromBacks(c: Cmd, s: string, a: seq<Tok>) returns (a': seq<Tok>)
    requires DBack(a, c)
    ensures a + Tokens(s) == a' + Tokens(Backs(c, s).1) && DBack(a', Backs(c, s).0)
    decreases |s|
  {
    if Peek(s, "&") {
      PeekSym(s, '&');
      var amp, rest := First(s), Lex(s).rest;
      BackOf(a, amp, c);
      a' := FromBacks(Back(c), rest, a + [amp]);
      Join(a, [amp], Tokens(rest));
    } else {
      SkipAgain(s);
      a' := a;
    }
  }

  lemma BackOf(a: seq<Tok>, amp: Tok, c: Cmd)
    requires DBack(a, c) && amp.kind == Sym('&')
    ensures DBack(a + [amp], Back(c))
  {
    assert (a + [amp])[..|a|] == a;
  }

  lemma LineStep(s: string)
    requires ParseLine(s).Ok?
    ensures ParsePipe(s).Ok?
    ensures var (b, rest) := Backs(ParsePipe(s).v, ParsePipe(s).rest);
            if Peek(rest, ";") then
              ParseLine(Lex(rest).rest).Ok? && ParseLine(s).v == List(b, ParseLine(Lex(rest).rest).v) &&
              ParseLine(s).rest == ParseLine(Lex(rest).rest).rest
            else ParseLine(s).v == b && Tokens(ParseLine(s).rest) == Tokens(rest)
  {
    SkipAgain(Backs(ParsePipe(s).v, ParsePipe(s).rest).1);
  }

  lemma {:induction false} FromLine(s: string) returns (a: seq<Tok>)
    requires ParseLine(s).Ok?
    ensures Tokens(s) == a + Tokens(ParseLine(s).rest) && DLine(a, ParseLine(s).v)
    decreases |s|, 3
  {
    LineStep(s);
    var p := ParsePipe(s);
    var a0 := FromPipe(s);
    a := FromBacks(p.v, p.rest, a0);
    var b, rest := Backs(p.v, p.rest).0, Backs(p.v, p.rest).1;
    if Peek(rest, ";") {
      PeekSym(rest, ';');
      var semi, tail := First(rest), Lex(rest).rest;
      var more := FromLine(tail);
      ListOf(a, semi, more, b, ParseLine(tail).v);
      Join3(a, [semi], more, Tokens(ParseLine(tail).rest));
      a := a + ([semi] + more);
    }
  }

  lemma ListOf(a: seq<Tok>, semi: Tok, b: seq<Tok>, l: Cmd, r: Cmd)
    requires semi.kind == Sym(';') && DBack(a, l) && DLine(b, r)
    ensures DLine(a + ([semi] + b), List(l, r))
  {
    var ab := a + ([semi] + b);
    assert ab[..|a|] == a && ab[|a| + 1..] == b && ab[|a|] == semi;
    assert IsListed(ab, List(l, r), |a|);
  }
}
