/** The parser of user/sh.c in its own form: a cursor that gettoken() and peek() advance, loops for
    white space, arguments and redirections, and the NULs written into the line at the end. */
module ShellParser {
  import opened Prelude
  import opened ShellGrammar
  import opened ShellTokens
  import ShellDerive
  import ShellAccepts

  lemma SkipStep(s: string, i: nat)
    requires i < |s| && IsWhite(s[i])
    ensures Skip(s[i..]) == Skip(s[i + 1..])
  {
    assert s[i..][1..] == s[i + 1..];
  }

  lemma WordStep(s: string, i: nat)
    requires i < |s| && IsWordChar(s[i])
    ensures WordEnd(s[i..]) == WordEnd(s[i + 1..])
  {
    assert s[i..][1..] == s[i + 1..];
  }

  class Parser {
    const s: string
    var pos: nat                      // *ps

    constructor (line: string)
      ensures s == line && pos == 0
    {
      s, pos := line, 0;
    }

    /** The text from the cursor on. */
    ghost function Left(): string
      reads this
      requires pos <= |s|
    {
      s[pos..]
    }

    /** The white space loop of gettoken() and peek(). */
    method SkipWhite()
      requires pos <= |s|
      modifies this
      ensures pos <= |s| && Left() == Skip(old(Left()))
    {
      while pos < |s| && IsWhite(s[pos])
        invariant pos <= |s| && Skip(Left()) == Skip(old(Left()))
      {
        SkipStep(s, pos);
        pos := pos + 1;
      }
    }

    method SkipWord()
      requires pos <= |s|
      modifies this
      ensures pos <= |s| && Left() == WordEnd(old(Left()))
    {
      while pos < |s| && !IsWhite(s[pos]) && !IsSymbol(s[pos])
        invariant pos <= |s| && WordEnd(Left()) == WordEnd(old(Left()))
      {
        WordStep(s, pos);
        pos := pos + 1;
      }
    }

    /** The switch of gettoken() at a character that is there. */
    method TakeToken() returns (kind: Kind)
      requires pos < |s| && !IsWhite(s[pos])
      modifies this
      ensures pos <= |s| && kind == LexAt(old(Left())).kind
      ensures |Left()| == LexAt(old(Left())).eq && Skip(Left()) == LexAt(old(Left())).rest
    {
      ghost var t := Left();
      if s[pos] == '>' {
        kind := Sym('>');
        pos := pos + 1;
        if pos < |s| && s[pos] == '>' {
          kind := Append;
          pos := pos + 1;
          assert Left() == t[2..];
        } else {
          assert Left() == t[1..];
        }
      } else if IsSymbol(s[pos]) {
        kind := Sym(s[pos]);
        pos := pos + 1;
        assert Left() == t[1..];
      } else {
        kind := Word;
        SkipWord();
      }
    }

    /** gettoken(); q and eq are counted from the end of the line. */
    method Gettoken() returns (kind: Kind, q: nat, eq: nat)
      requires pos <= |s|
      modifies this
      ensures pos <= |s| && Token(kind, q, eq, Left()) == Lex(old(Left()))
    {
      SkipWhite();
      q := |s| - pos;
      if pos == |s| {
        kind := End;
        eq := |s| - pos;
      } else {
        kind := TakeToken();
        eq := |s| - pos;
        SkipWhite();
      }
    }

    /** peek(), which moves the cursor past white space. */
    method PeekAt(toks: string) returns (r: bool)
      requires pos <= |s|
      modifies this
      ensures pos <= |s| && Left() == Skip(old(Left())) && r == Peek(old(Left()), toks)
      ensures r ==> Peek(Left(), toks) && Lex(Left()) == Lex(old(Left())) && Left() != ""
    {
      ghost var before := Left();
      SkipWhite();
      SkipTwice(before);
      r := pos < |s| && s[pos] in toks;
    }

    /** parseredirs(): wraps cmd in what follows; false stands for the panic. */
    method Parseredirs(cmd: Cmd) returns (ok: bool, r: Cmd)
      requires pos <= |s|
      modifies this
      ensures pos <= |s| && (ok <==> Redirs(old(Left())).Ok?)
      ensures ok ==> Left() == Redirs(old(Left())).rest && r == Wrap(cmd, Redirs(old(Left())).v)
    {
      ghost var rs: seq<Redirection> := [];
      RedirsStart(Left());
      r := cmd;
      while true
        invariant pos <= |s| && r == Wrap(cmd, rs)
        invariant RedirsFrom(old(Left()), rs, Left())
        decreases |s| - pos
      {
        ghost var before := Left();
        var more := PeekAt("<>");
        RedirsSkip(before);
        if !more {
          RedirsStop(old(Left()), rs, before);
          return true, r;
        }
        var tok, a, b := Gettoken();
        ghost var mid := Left();
        var k, q, eq := Gettoken();
        RedirsOne(old(Left()), rs, before);
        if k != Word {
          return false, r;
        }
        r := Redir(r, Span(q, eq), ModeOf(tok));
        WrapSnoc(cmd, rs, Redirection(Span(q, eq), ModeOf(tok)));
        rs := rs + [Redirection(Span(q, eq), ModeOf(tok))];
      }
    }

    /** One turn of the loop of parseexec(), up to the test of its first gettoken(): Stop at the end
        of the command, Bad for a panic, or the next argument. */
    method Nextarg(args: seq<Span>, ghost s0: string, ghost rs: seq<Redirection>) returns (t: Turn, arg: Span)
      requires pos <= |s| && ArgsFrom(s0, args, rs, Left())
      modifies this
      ensures pos <= |s| && (t == Bad ==> Args(s0, 0).Panic?) && (t == Stop ==> Args(s0, 0) == Ok((args, rs), Left()))
      ensures t == More ==> var k := Lex(old(Left()));
                k.kind == Word && !Peek(old(Left()), "|)&;") && |args| + 1 < MAXARGS && arg == Span(k.q, k.eq) &&
                Left() == k.rest
      ensures t == More ==> |Left()| < |old(Left())|
    {
      ghost var before := Left();
      var stop := PeekAt("|)&;");
      if stop {
        ArgsStop(s0, args, rs, before);
        return Stop, Span(0, 0);
      }
      LexSkip(before);
      var k, q, eq := Gettoken();
      if k == End {
        ArgsStop(s0, args, rs, before);
        return Stop, Span(0, 0);
      }
      if k != Word || |args| + 1 >= MAXARGS {
        return Bad, Span(0, 0);
      }
      return More, Span(q, eq);
    }

    /** The loop of parseexec(); cmd is the command built so far around the empty exec node. */
    method Parseargs(cmd: Cmd, ghost rs0: seq<Redirection>) returns (ok: bool, args: seq<Span>, r: Cmd)
      requires pos <= |s| && cmd == Wrap(Exec([]), rs0)
      modifies this
      ensures pos <= |s| && (ok <==> Args(old(Left()), 0).Ok?)
      ensures ok ==> Args(old(Left()), 0).rest == Left() && args == Args(old(Left()), 0).v.0
      ensures ok ==> r == Wrap(Exec([]), rs0 + Args(old(Left()), 0).v.1)
    {
      ghost var s0, rs := Left(), [];
      args, r := [], cmd;
      ArgsStart(s0);
      assert rs0 + [] == rs0;
      while true
        invariant pos <= |s| && r == Wrap(Exec([]), rs0 + rs) && ArgsFrom(s0, args, rs, Left())
        decreases |s| - pos
      {
        ghost var before := Left();
        var t, arg := Nextarg(args, s0, rs);
        if t != More {
          return t == Stop, args, r;
        }
        ghost var mid := Left();
        var good;
        good, r := Parseredirs(r);
        if !good {
          ArgsPanic(s0, args, rs, before);
          return false, args, r;
        }
        ArgsOne(s0, args, rs, before);
        MoreRedirs(rs0, rs, Redirs(mid).v);
        args := args + [arg];
        rs := rs + Redirs(mid).v;
      }
    }

    /** parseexec() */
    method Parseexec() returns (ok: bool, r: Cmd)
      requires pos <= |s|
      modifies this
      ensures pos <= |s| && (ok <==> ParseExec(old(Left())).Ok?)
      ensures ok ==> Left() == ParseExec(old(Left())).rest && r == ParseExec(old(Left())).v
      decreases |s| - pos, 1
    {
      ghost var before := Left();
      var block := PeekAt("(");
      ExecSkip(before);
      if block {
        ok, r := Parseblock();
        return;
      }
      ok, r := Parseredirs(Exec([]));
      if !ok {
        return;
      }
      var args;
      ok, args, r := Parseargs(r, Redirs(Skip(before)).v);
      if ok {
        FillWrap(Redirs(Skip(before)).v + Args(Redirs(Skip(before)).rest, 0).v.1, args);
        r := Fill(r, args);          // cmd->argv, through the pointer kept from execcmd()
      }
    }

    /** parseblock() */
    method Parseblock() returns (ok: bool, r: Cmd)
      requires pos <= |s|
      modifies this
      ensures pos <= |s| && (ok <==> ParseBlock(old(Left())).Ok?)
      ensures ok ==> Left() == ParseBlock(old(Left())).rest && r == ParseBlock(old(Left())).v
      decreases |s| - pos, 0
    {
      var open := PeekAt("(");
      if !open {
        return false, Exec([]);
      }
      var k, q, eq := Gettoken();
      ok, r := Parseline();
      if !ok {
        return;
      }
      var close := PeekAt(")");
      if !close {
        return false, r;
      }
      k, q, eq := Gettoken();
      ok, r := Parseredirs(r);
    }

    /** parsepipe() */
    method Parsepipe() returns (ok: bool, r: Cmd)
      requires pos <= |s|
      modifies this
      ensures pos <= |s| && (ok <==> ParsePipe(old(Left())).Ok?)
      ensures ok ==> Left() == ParsePipe(old(Left())).rest && r == ParsePipe(old(Left())).v
      decreases |s| - pos, 2
    {
      ok, r := Parseexec();
      if !ok {
        return;
      }
      var bar := PeekAt("|");
      if bar {
        var k, q, eq := Gettoken();
        var right;
        ok, right := Parsepipe();
        r := Pipe(r, right);
      }
    }

    /** parseline() */
    method Parseline() returns (ok: bool, r: Cmd)
      requires pos <= |s|
      modifies this
      ensures pos <= |s| && (ok <==> ParseLine(old(Left())).Ok?)
      ensures ok ==> Left() == ParseLine(old(Left())).rest && r == ParseLine(old(Left())).v
      decreases |s| - pos, 3
    {
      ok, r := Parsepipe();
      if !ok {
        return;
      }
      r := Parsebacks(r);
      var semi := PeekAt(";");
      if semi {
        var k, q, eq := Gettoken();
        var right;
        ok, right := Parseline();
        r := List(r, right);
      }
    }

    /** The & loop of parseline(). */
    method Parsebacks(cmd: Cmd) returns (r: Cmd)
      requires pos <= |s|
      modifies this
      ensures pos <= |s| && (r, Left()) == Backs(cmd, old(Left()))
    {
      r := cmd;
      while true
        invariant pos <= |s| && Backs(r, Left()) == Backs(cmd, old(Left()))
        decreases |s| - pos
      {
        var amp := PeekAt("&");
        if !amp {
          return;
        }
        var k, q, eq := Gettoken();
        r := Back(r);
      }
    }

    /** parsecmd() up to nulterminate(). */
    method Parsewhole() returns (ok: bool, r: Cmd)
      requires pos == 0
      modifies this
      ensures ok <==> ParseCmd(s).Ok?
      ensures ok ==> r == ParseCmd(s).v && ParseLine(s).Ok? && ParseLine(s).v == r
    {
      assert Left() == s;
      ok, r := Parseline();
      if !ok {
        return;
      }
      var left := PeekAt("");
      ok := pos == |s|;
    }

    /** parsecmd(): terminates on every line.  It returns the one command that the grammar derives
        from the tokens of the line, with every string reading back as its token, and panics exactly
        on the lines that the grammar does not derive. */
    method Parsecmd(buf: array<char>) returns (ok: bool, r: Cmd)
      requires pos == 0 && NoNul(s) && buf[..] == s + ['\0']
      modifies this, buf
      ensures ok ==> ShellDerive.DLine(ShellDerive.Tokens(s), r) && Strings(s, buf[..], r)
      ensures !ok ==> forall c :: !ShellDerive.DLine(ShellDerive.Tokens(s), c)
    {
      ok, r := Parsewhole();
      Derived(s);
      if ok {
        LineTokens(s, s);
        TokensEnd(s, r);
        Nulterminate(buf, |s|, r);
        TerminatedStrings(s, buf[..]);
      }
    }
  }

  lemma Derived(s: string)
    ensures ParseCmd(s).Ok? ==> ShellDerive.DLine(ShellDerive.Tokens(s), ParseCmd(s).v)
    ensures ParseCmd(s).Panic? ==> forall c :: !ShellDerive.DLine(ShellDerive.Tokens(s), c)
  {
    if ParseCmd(s).Ok? {
      ShellAccepts.AcceptsExactly(s, ParseCmd(s).v);
    } else {
      forall c ensures !ShellDerive.DLine(ShellDerive.Tokens(s), c) { ShellAccepts.AcceptsExactly(s, c); }
    }
  }

  lemma SkipTwice(s: string)
    ensures Skip(Skip(s)) == Skip(s)
  {
    var t := Skip(s);
  }

  lemma WrapSnoc(c: Cmd, rs: seq<Redirection>, x: Redirection)
    ensures Wrap(c, rs + [x]) == Redir(Wrap(c, rs), x.file, x.mode)
  {
    assert (rs + [x])[..|rs|] == rs;
  }

  /** After the redirections rs the text that is left is s1. */
  ghost predicate RedirsFrom(s: string, rs: seq<Redirection>, s1: string) {
    match Redirs(s1)
    case Panic => Redirs(s).Panic?
    case Ok(more, rest) => Redirs(s) == Ok(rs + more, rest)
  }

  lemma RedirsStart(s: string)
    ensures RedirsFrom(s, [], s)
  {
    if Redirs(s).Ok? { assert [] + Redirs(s).v == Redirs(s).v; }
  }

  lemma RedirsSkip(s: string)
    ensures Redirs(Skip(s)) == Redirs(s)
  {
    SkipTwice(s);
  }

  lemma RedirsStop(s: string, rs: seq<Redirection>, s1: string)
    requires RedirsFrom(s, rs, s1) && !Peek(s1, "<>")
    ensures Redirs(s) == Ok(rs, Skip(s1))
  {
    assert rs + [] == rs;
  }

  lemma RedirsOne(s: string, rs: seq<Redirection>, s1: string)
    requires RedirsFrom(s, rs, s1) && Peek(s1, "<>")
    ensures var op := Lex(s1);
            var f := Lex(op.rest);
            if f.kind != Word then Redirs(s).Panic?
            else RedirsFrom(s, rs + [Redirection(Span(f.q, f.eq), ModeOf(op.kind))], f.rest)
  {
    var op := Lex(s1);
    var f := Lex(op.rest);
    if f.kind == Word && Redirs(f.rest).Ok? {
      var x := Redirection(Span(f.q, f.eq), ModeOf(op.kind));
      assert rs + ([x] + Redirs(f.rest).v) == (rs + [x]) + Redirs(f.rest).v;
    }
  }

  lemma LexSkip(s: string)
    ensures Lex(Skip(s)) == Lex(s)
  {
    SkipTwice(s);
  }

  lemma ExecSkip(s: string)
    ensures ParseExec(Skip(s)) == ParseExec(s) && ParseBlock(Skip(s)) == ParseBlock(s) && Redirs(Skip(s)) == Redirs(s)
  {
    SkipTwice(s);
  }

  /** The exec node inside a chain of redirections gets its arguments. */
  function Fill(c: Cmd, args: seq<Span>): Cmd {
    match c
    case Exec(_) => Exec(args)
    case Redir(d, file, mode) => Redir(Fill(d, args), file, mode)
    case _ => c
  }

  lemma {:induction false} FillWrap(rs: seq<Redirection>, args: seq<Span>)
    ensures Fill(Wrap(Exec([]), rs), args) == Wrap(Exec(args), rs)
  {
    if rs != [] { FillWrap(rs[..|rs| - 1], args); }
  }

  lemma {:induction false} WrapWrap(c: Cmd, rs: seq<Redirection>, ts: seq<Redirection>)
    ensures Wrap(Wrap(c, rs), ts) == Wrap(c, rs + ts)
  {
    if ts == [] {
      assert rs + ts == rs;
    } else {
      WrapWrap(c, rs, ts[..|ts| - 1]);
      assert (rs + ts)[..|rs + ts| - 1] == rs + ts[..|ts| - 1];
    }
  }

  /** After the arguments args and the redirections rs the text that is left is s1. */
  ghost predicate ArgsFrom(s: string, args: seq<Span>, rs: seq<Redirection>, s1: string) {
    Joins(Args(s, 0), args, rs, Args(s1, |args|))
  }

  /** What was read so far and the result for the remaining text make up the whole result. */
  ghost predicate Joins(all: Res<(seq<Span>, seq<Redirection>)>, args: seq<Span>, rs: seq<Redirection>,
                        part: Res<(seq<Span>, seq<Redirection>)>) {
    match part
    case Panic => all.Panic?
    case Ok(more, rest) => all == Ok((args + more.0, rs + more.1), rest)
  }

  lemma JoinStep(all: Res<(seq<Span>, seq<Redirection>)>, args: seq<Span>, rs: seq<Redirection>,
                 part: Res<(seq<Span>, seq<Redirection>)>,
                 x: Span, ts: seq<Redirection>, r: Res<(seq<Span>, seq<Redirection>)>)
    requires Joins(all, args, rs, part)
    requires part == if r.Panic? then Panic else Ok(([x] + r.v.0, ts + r.v.1), r.rest)
    ensures Joins(all, args + [x], rs + ts, r)
  {
    if r.Ok? { assert args + ([x] + r.v.0) == (args + [x]) + r.v.0 && rs + (ts + r.v.1) == (rs + ts) + r.v.1; }
  }

  lemma ArgsStart(s: string)
    ensures ArgsFrom(s, [], [], s)
  {
    if Args(s, 0).Ok? { assert [] + Args(s, 0).v.0 == Args(s, 0).v.0 && [] + Args(s, 0).v.1 == Args(s, 0).v.1; }
  }

  lemma ArgsStop(s: string, args: seq<Span>, rs: seq<Redirection>, s1: string)
    requires ArgsFrom(s, args, rs, s1) && (Peek(s1, "|)&;") || Lex(s1).kind == End)
    ensures Args(s, 0) == Ok((args, rs), if Peek(s1, "|)&;") then Skip(s1) else Lex(s1).rest)
  {
    assert args + [] == args && rs + [] == rs;
  }

  lemma ArgsUnfold(s: string, argc: nat)
    requires GoesOn(s, argc)
    ensures var t := Lex(s);
            var r := Args(Redirs(t.rest).rest, argc + 1);
            Args(s, argc) == if r.Panic? then Panic
            else Ok(([Span(t.q, t.eq)] + r.v.0, Redirs(t.rest).v + r.v.1), r.rest)
  {
  }

  lemma ArgsPanic(s: string, args: seq<Span>, rs: seq<Redirection>, s1: string)
    requires ArgsFrom(s, args, rs, s1) && !Peek(s1, "|)&;") && Lex(s1).kind == Word && Redirs(Lex(s1).rest).Panic?
    ensures Args(s, 0).Panic?
  {
  }

  /** One more argument and its redirections, wherever they come from. */
  lemma ArgsJoined(s: string, args: seq<Span>, rs: seq<Redirection>, s1: string, x: Span, ts: seq<Redirection>,
                   s2: string)
    requires ArgsFrom(s, args, rs, s1)
    requires var r := Args(s2, |args| + 1);
             Args(s1, |args|) == if r.Panic? then Panic else Ok(([x] + r.v.0, ts + r.v.1), r.rest)
    ensures ArgsFrom(s, args + [x], rs + ts, s2)
  {
    assert |args + [x]| == |args| + 1;
    JoinStep(Args(s, 0), args, rs, Args(s1, |args|), x, ts, Args(s2, |args| + 1));
  }

  lemma ArgsOne(s: string, args: seq<Span>, rs: seq<Redirection>, s1: string)
    requires ArgsFrom(s, args, rs, s1) && GoesOn(s1, |args|)
    ensures var t := Lex(s1);
            ArgsFrom(s, args + [Span(t.q, t.eq)], rs + Redirs(t.rest).v, Redirs(t.rest).rest)
  {
    var t := Lex(s1);
    ArgsUnfold(s1, |args|);
    ArgsJoined(s, args, rs, s1, Span(t.q, t.eq), Redirs(t.rest).v, Redirs(t.rest).rest);
  }

  lemma MoreRedirs(rs0: seq<Redirection>, rs: seq<Redirection>, ts: seq<Redirection>)
    ensures Wrap(Wrap(Exec([]), rs0 + rs), ts) == Wrap(Exec([]), rs0 + (rs + ts))
  {
    WrapWrap(Exec([]), rs0 + rs, ts);
    assert (rs0 + rs) + ts == rs0 + (rs + ts);
  }

  datatype Turn = Stop | Bad | More
}
