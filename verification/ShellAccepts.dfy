/** The parser of user/sh.c accepts exactly the lines that the grammar derives. */
module ShellAccepts {
  import opened ShellGrammar
  import opened ShellDerive
  import opened ShellSound

  /** What may follow an exec, a pipe, a line. */
  predicate AfterExec(b: seq<Tok>) { b == [] || Next(b, "|)&;") }

  predicate AfterPipe(b: seq<Tok>) { b == [] || Next(b, ")&;") }

  predicate AfterBack(b: seq<Tok>) { b == [] || Next(b, ");") }

  predicate AfterLine(b: seq<Tok>) { b == [] || Next(b, ")") }

  /** Parsing with result r took the tokens up to b and gave c. */
  predicate Took<T(==)>(r: Res<T>, c: T, b: seq<Tok>) { r.Ok? && r.v == c && Tokens(r.rest) == b }

  lemma Split(a: seq<Tok>, b: seq<Tok>, i: nat)
    requires i < |a|
    ensures a + b == a[..i] + ([a[i]] + (a[i + 1..] + b))
  {
    assert a == a[..i] + [a[i]] + a[i + 1..];
  }

  lemma FirstOff(a: seq<Tok>, b: seq<Tok>)
    requires a != []
    ensures a + b == [a[0]] + (a[1..] + b)
  {
  }

  lemma TwoOff(a: seq<Tok>, b: seq<Tok>)
    requires |a| >= 2
    ensures a + b == [a[0]] + ([a[1]] + (a[2..] + b))
  {
  }

  // ---------------------------------------------------------------- redirections and words

  lemma SimpleOp(a: seq<Tok>, args: seq<Span>, rs: seq<Redirection>)
    requires DSimple(a, args, rs) && a != [] && a[0].kind != Word
    ensures |a| >= 2 && IsOp(a[0].kind) && a[1].kind == Word && rs != [] && DSimple(a[2..], args, rs[1..])
    ensures rs == [TokRedir(a[0], a[1])] + rs[1..]
  {
  }

  lemma SimpleWord(a: seq<Tok>, args: seq<Span>, rs: seq<Redirection>)
    requires DSimple(a, args, rs) && a != [] && a[0].kind == Word
    ensures args != [] && DSimple(a[1..], args[1..], rs) && args == [a[0].span] + args[1..]
  {
  }

  lemma FrontOn(r: Redirection, front: seq<Redirection>, rs: seq<Redirection>)
    ensures [r] + (front + rs) == ([r] + front) + rs
  {
  }

  lemma RedirsNone(s: string, b: seq<Tok>)
    requires Tokens(s) == b && !Next(b, "<>")
    ensures Took(Redirs(s), [], b)
  {
    PeekNext(s, "<>");
    SkipAgain(s);
  }

  /** The first two tokens are read as one redirection. */
  lemma RedirsMore(s: string, op: Tok, file: Tok, b: seq<Tok>, rs: seq<Redirection>, b': seq<Tok>)
    requires Tokens(s) == [op] + ([file] + b) && IsOp(op.kind) && file.kind == Word
    requires Took(Redirs(Lex(Lex(s).rest).rest), rs, b')
    ensures Took(Redirs(s), [TokRedir(op, file)] + rs, b')
  {
    PeekNext(s, "<>");
    LexNext(s, op, [file] + b);
    LexNext(Lex(s).rest, file, b);
  }

  lemma AfterTwo(s: string, op: Tok, file: Tok, b: seq<Tok>)
    requires Tokens(s) == [op] + ([file] + b)
    ensures Tokens(Lex(Lex(s).rest).rest) == b
  {
    LexNext(s, op, [file] + b);
    LexNext(Lex(s).rest, file, b);
  }

  lemma {:induction false} TakeRedirs(s: string, a: seq<Tok>, b: seq<Tok>, rs: seq<Redirection>)
    requires Tokens(s) == a + b && DRedirs(a, rs) && !Next(b, "<>")
    ensures Took(Redirs(s), rs, b)
    decreases |a|
  {
    if a == [] {
      assert a + b == b;
      RedirsNone(s, b);
    } else {
      TwoOff(a, b);
      AfterTwo(s, a[0], a[1], a[2..] + b);
      TakeRedirs(Lex(Lex(s).rest).rest, a[2..], b, rs[1..]);
      RedirsMore(s, a[0], a[1], a[2..] + b, rs[1..], b);
      assert rs == [rs[0]] + rs[1..];
    }
  }

  /** The redirections at the front of a simple command. */
  lemma {:induction false} TakeFront(s: string, a: seq<Tok>, b: seq<Tok>, args: seq<Span>, rs: seq<Redirection>)
    returns (a': seq<Tok>, front: seq<Redirection>, rs': seq<Redirection>)
    requires Tokens(s) == a + b && DSimple(a, args, rs) && AfterExec(b)
    ensures |a'| <= |a| && rs == front + rs' && Took(Redirs(s), front, a' + b) && DSimple(a', args, rs')
    ensures a' != [] ==> a'[0].kind == Word
    decreases |a|
  {
    if a == [] || a[0].kind == Word {
      a', front, rs' := a, [], rs;
      WordNext(a, b);
      RedirsNone(s, a + b);
    } else {
      SimpleOp(a, args, rs);
      TwoOff(a, b);
      AfterTwo(s, a[0], a[1], a[2..] + b);
      a', front, rs' := TakeFront(Lex(Lex(s).rest).rest, a[2..], b, args, rs[1..]);
      RedirsMore(s, a[0], a[1], a[2..] + b, front, a' + b);
      FrontOn(TokRedir(a[0], a[1]), front, rs');
      front := [TokRedir(a[0], a[1])] + front;
    }
  }

  lemma WordNext(a: seq<Tok>, b: seq<Tok>)
    requires AfterExec(b) && (a != [] ==> a[0].kind == Word)
    ensures !Next(a + b, "<>") && !Next(a + b, "(") && (a != [] ==> !Next(a + b, "|)&;"))
  {
    if a != [] { assert (a + b)[0] == a[0]; } else { assert a + b == b; }
  }

  /** The words and redirections a of a simple command, from a word on, lie ahead, and b after them. */
  ghost predicate IsRest(s: string, a: seq<Tok>, b: seq<Tok>, args: seq<Span>, rs: seq<Redirection>) {
    Tokens(s) == a + b && DSimple(a, args, rs) && AfterExec(b) && (a != [] ==> a[0].kind == Word)
  }

  predicate TookArgs(s: string, argc: nat, args: seq<Span>, rs: seq<Redirection>, b: seq<Tok>) {
    Took(Args(s, argc), (args, rs), b)
  }

  lemma ArgsNone(s: string, b: seq<Tok>, argc: nat)
    requires Tokens(s) == b && AfterExec(b)
    ensures Took(Args(s, argc), ([], []), b)
  {
    PeekNext(s, "|)&;");
    SkipAgain(s);
  }

  lemma ArgsMore(s: string, t: Tok, b: seq<Tok>, argc: nat, rs: seq<Redirection>, more: (seq<Span>, seq<Redirection>),
                 b': seq<Tok>)
    requires Tokens(s) == [t] + b && t.kind == Word && argc + 1 < MAXARGS
    requires Redirs(Lex(s).rest).Ok? && Redirs(Lex(s).rest).v == rs &&
             Took(Args(Redirs(Lex(s).rest).rest, argc + 1), more, b')
    ensures Took(Args(s, argc), ([t.span] + more.0, rs + more.1), b')
  {
    PeekNext(s, "|)&;");
    assert ([t] + b)[0] == t;
    LexNext(s, t, b);
  }

  /** The loop of parseexec(). */
  lemma {:induction false} TakeArgs(s: string, a: seq<Tok>, b: seq<Tok>, args: seq<Span>, rs: seq<Redirection>,
                                    argc: nat)
    requires IsRest(s, a, b, args, rs) && argc + |args| < MAXARGS
    ensures TookArgs(s, argc, args, rs, b)
    decreases |a|
  {
    if a == [] {
      TakeNone(s, a, b, args, rs, argc);
    } else {
      var s2, a', args', rs' := TakeArg(s, a, b, args, rs, argc);
      TakeArgs(s2, a', b, args', rs', argc + 1);
    }
  }

  lemma TakeNone(s: string, a: seq<Tok>, b: seq<Tok>, args: seq<Span>, rs: seq<Redirection>, argc: nat)
    requires IsRest(s, a, b, args, rs) && a == []
    ensures TookArgs(s, argc, args, rs, b)
  {
    assert a + b == b;
    ArgsNone(s, b, argc);
  }

  /** The first word of a simple command and the redirections after it. */
  lemma TakeArg(s: string, a: seq<Tok>, b: seq<Tok>, args: seq<Span>, rs: seq<Redirection>, argc: nat)
    returns (s2: string, a': seq<Tok>, args': seq<Span>, rs': seq<Redirection>)
    requires IsRest(s, a, b, args, rs) && a != [] && argc + |args| < MAXARGS
    ensures IsRest(s2, a', b, args', rs') && |a'| < |a| && |args| == |args'| + 1
    ensures TookArgs(s2, argc + 1, args', rs', b) ==> TookArgs(s, argc, args, rs, b)
  {
    SimpleWord(a, args, rs);
    FirstOff(a, b);
    LexNext(s, a[0], a[1..] + b);
    var s1, front := Lex(s).rest, [];
    args' := args[1..];
    a', front, rs' := TakeFront(s1, a[1..], b, args', rs);
    s2 := Redirs(s1).rest;
    if TookArgs(s2, argc + 1, args', rs', b) {
      TookMore(s, a[0], a[1..] + b, argc, s1, s2, front, args', rs', b, args, rs);
    }
  }

  lemma TookMore(s: string, t: Tok, b: seq<Tok>, argc: nat, s1: string, s2: string, front: seq<Redirection>,
                 args1: seq<Span>, rs1: seq<Redirection>, b': seq<Tok>, args: seq<Span>, rs: seq<Redirection>)
    requires Tokens(s) == [t] + b && t.kind == Word && argc + 1 < MAXARGS && s1 == Lex(s).rest
    requires Redirs(s1).Ok? && Redirs(s1).v == front && s2 == Redirs(s1).rest &&
             Took(Args(s2, argc + 1), (args1, rs1), b')
    requires args == [t.span] + args1 && rs == front + rs1
    ensures Took(Args(s, argc), (args, rs), b')
  {
    ArgsMore(s, t, b, argc, front, (args1, rs1), b');
  }

  // ---------------------------------------------------------------- complete

  lemma TakeSimple(s: string, a: seq<Tok>, b: seq<Tok>, c: Cmd, args: seq<Span>, rs: seq<Redirection>)
    requires Tokens(s) == a + b && IsSimple(a, c, args, rs) && AfterExec(b)
    ensures Took(ParseExec(s), c, b)
  {
    var a', front, rs' := TakeFront(s, a, b, args, rs);
    TakeArgs(Redirs(s).rest, a', b, args, rs', 0);
    NoParen(a, args, rs, b);
    ExecSimple(s, a + b, front, (args, rs'), b);
  }

  lemma NoParen(a: seq<Tok>, args: seq<Span>, rs: seq<Redirection>, b: seq<Tok>)
    requires DSimple(a, args, rs) && AfterExec(b)
    ensures !Next(a + b, "(")
  {
    if a != [] { assert (a + b)[0] == a[0]; } else { assert a + b == b; }
  }

  lemma ExecSimple(s: string, ab: seq<Tok>, front: seq<Redirection>, more: (seq<Span>, seq<Redirection>), b: seq<Tok>)
    requires Tokens(s) == ab && !Next(ab, "(") && Redirs(s).Ok? && Redirs(s).v == front &&
             Took(Args(Redirs(s).rest, 0), more, b)
    ensures Took(ParseExec(s), Wrap(Exec(more.0), front + more.1), b)
  {
    PeekNext(s, "(");
  }

  lemma ExecBlock(s: string, d: Cmd, rs: seq<Redirection>, b: seq<Tok>)
    requires Peek(s, "(") && ParseLine(Lex(s).rest).Ok? && ParseLine(Lex(s).rest).v == d &&
             Peek(ParseLine(Lex(s).rest).rest, ")")
    requires Took(Redirs(Lex(ParseLine(Lex(s).rest).rest).rest), rs, b)
    ensures Took(ParseExec(s), Wrap(d, rs), b)
  {
  }

  lemma {:induction false} TakeExec(s: string, a: seq<Tok>, b: seq<Tok>, c: Cmd)
    requires Tokens(s) == a + b && DExec(a, c) && AfterExec(b)
    ensures Took(ParseExec(s), c, b)
    decreases |a|, 1
  {
    if args, rs :| IsSimple(a, c, args, rs) {
      TakeSimple(s, a, b, c, args, rs);
    } else {
      var i: nat, d, rs :| IsBlock(a, c, i, d, rs);
      TakeBlock(s, a, b, c, i, d, rs);
    }
  }

  lemma {:induction false} TakeBlock(s: string, a: seq<Tok>, b: seq<Tok>, c: Cmd, i: nat, d: Cmd, rs: seq<Redirection>)
    requires Tokens(s) == a + b && IsBlock(a, c, i, d, rs) && AfterExec(b)
    ensures Took(ParseExec(s), c, b)
    decreases |a|, 0
  {
    var inner, tail := a[1..i], a[i + 1..] + b;
    BlockSplit(a, b, i);
    PeekNext(s, "(");
    LexNext(s, a[0], inner + ([a[i]] + tail));
    TakeLine(Lex(s).rest, inner, [a[i]] + tail, d);
    var rest := ParseLine(Lex(s).rest).rest;
    PeekNext(rest, ")");
    LexNext(rest, a[i], tail);
    TakeRedirs(Lex(rest).rest, a[i + 1..], b, rs);
    ExecBlock(s, d, rs, b);
  }

  lemma BlockSplit(a: seq<Tok>, b: seq<Tok>, i: nat)
    requires 1 <= i < |a|
    ensures a + b == [a[0]] + (a[1..i] + ([a[i]] + (a[i + 1..] + b)))
  {
    assert a == [a[0]] + (a[1..i] + ([a[i]] + a[i + 1..]));
  }

  lemma PipeEnds(s: string, c: Cmd, b: seq<Tok>)
    requires Took(ParseExec(s), c, b) && !Next(b, "|")
    ensures Took(ParsePipe(s), c, b)
  {
    PeekNext(ParseExec(s).rest, "|");
    SkipAgain(ParseExec(s).rest);
  }

  lemma PipeGoesOn(s: string, l: Cmd, bar: Tok, b: seq<Tok>, r: Cmd, b': seq<Tok>)
    requires Took(ParseExec(s), l, [bar] + b) && bar.kind == Sym('|') && Tokens(Lex(ParseExec(s).rest).rest) == b
    requires Took(ParsePipe(Lex(ParseExec(s).rest).rest), r, b')
    ensures Took(ParsePipe(s), Pipe(l, r), b')
  {
    PeekNext(ParseExec(s).rest, "|");
  }

  lemma {:induction false} TakePipe(s: string, a: seq<Tok>, b: seq<Tok>, c: Cmd)
    requires Tokens(s) == a + b && DPipe(a, c) && AfterPipe(b)
    ensures Took(ParsePipe(s), c, b)
    decreases |a|, 2
  {
    if DExec(a, c) {
      TakeExec(s, a, b, c);
      PipeEnds(s, c, b);
    } else {
      var i: nat :| IsPiped(a, c, i);
      var tail := a[i + 1..] + b;
      Split(a, b, i);
      TakeExec(s, a[..i], [a[i]] + tail, c.left);
      var rest := ParseExec(s).rest;
      LexNext(rest, a[i], tail);
      TakePipe(Lex(rest).rest, a[i + 1..], b, c.right);
      PipeGoesOn(s, c.left, a[i], tail, c.right, b);
    }
  }

  /** The & loop of parseline() comes to command c with the tokens b left. */
  predicate LoopAt(s: string, c: Cmd, r: string) {
    ParsePipe(s).Ok? && Backs(ParsePipe(s).v, ParsePipe(s).rest) == Backs(c, r)
  }

  lemma {:induction false} TakeBack(s: string, a: seq<Tok>, b: seq<Tok>, c: Cmd) returns (r: string)
    requires Tokens(s) == a + b && DBack(a, c) && AfterPipe(b)
    ensures LoopAt(s, c, r) && Tokens(r) == b
    decreases |a|, 3
  {
    if DPipe(a, c) {
      TakePipe(s, a, b, c);
      r := ParsePipe(s).rest;
    } else {
      var n := |a| - 1;
      assert a + b == a[..n] + ([a[n]] + b);
      var r0 := TakeBack(s, a[..n], [a[n]] + b, c.cmd);
      PeekNext(r0, "&");
      LexNext(r0, a[n], b);
      r := Lex(r0).rest;
    }
  }

  /** ... and stops there. */
  lemma BackEnds(s: string, c: Cmd, r: string, b: seq<Tok>)
    requires LoopAt(s, c, r) && Tokens(r) == b && AfterBack(b)
    ensures ParsePipe(s).Ok? && Backs(ParsePipe(s).v, ParsePipe(s).rest) == (c, Skip(r)) && Tokens(Skip(r)) == b
  {
    PeekNext(r, "&");
    SkipAgain(r);
  }

  lemma {:induction false} TakeLine(s: string, a: seq<Tok>, b: seq<Tok>, c: Cmd)
    requires Tokens(s) == a + b && DLine(a, c) && AfterLine(b)
    ensures Took(ParseLine(s), c, b)
    decreases |a|, 4
  {
    if DBack(a, c) {
      var r := TakeBack(s, a, b, c);
      BackEnds(s, c, r, b);
      PeekNext(Skip(r), ";");
      SkipAgain(Skip(r));
    } else {
      var i: nat :| IsListed(a, c, i);
      var tail := a[i + 1..] + b;
      Split(a, b, i);
      var r := TakeBack(s, a[..i], [a[i]] + tail, c.left);
      BackEnds(s, c.left, r, [a[i]] + tail);
      PeekNext(Skip(r), ";");
      LexNext(Skip(r), a[i], tail);
      TakeLine(Lex(Skip(r)).rest, a[i + 1..], b, c.right);
    }
  }

  // ---------------------------------------------------------------- exactly

  lemma NothingLeft(s: string)
    ensures Tokens(s) == [] <==> Skip(s) == ""
  {
  }

  /** ACCEPTS EXACTLY.  The parser returns c for a line exactly if the grammar derives c from its
      tokens; in every other case it panics. */
  lemma AcceptsExactly(s: string, c: Cmd)
    ensures ParseCmd(s) == Ok(c, "") <==> DLine(Tokens(s), c)
  {
    if ParseCmd(s) == Ok(c, "") {
      var a := FromLine(s);
      NothingLeft(ParseLine(s).rest);
      assert a + [] == a;
    }
    if DLine(Tokens(s), c) {
      assert Tokens(s) + [] == Tokens(s);
      TakeLine(s, Tokens(s), [], c);
      NothingLeft(ParseLine(s).rest);
    }
  }

  /** UNAMBIGUOUS.  No line is two different commands. */
  lemma Unambiguous(s: string, c: Cmd, d: Cmd)
    requires DLine(Tokens(s), c) && DLine(Tokens(s), d)
    ensures c == d
  {
    AcceptsExactly(s, c);
    AcceptsExactly(s, d);
  }
}
