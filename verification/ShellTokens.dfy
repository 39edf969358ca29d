/** Every token the parser records is a word of the line, and nulterminate() cuts the line up
    exactly into those words. */
module ShellTokens {
  import opened Prelude
  import opened ShellGrammar
  import opened ShellPrint

  predicate Suffix(r: string, s: string) { |r| <= |s| && r == s[|s| - |r|..] }

  /** A maximal run of word characters at its right end. */
  predicate IsToken(s: string, p: Span) {
    && p.eq < p.q <= |s|
    && (forall i :: |s| - p.q <= i < |s| - p.eq ==> IsWordChar(s[i]))
    && (p.eq > 0 ==> !IsWordChar(s[|s| - p.eq]))
  }

  predicate AllTokens(s: string, ps: seq<Span>) { forall i :: 0 <= i < |ps| ==> IsToken(s, ps[i]) }

  predicate AllFiles(s: string, rs: seq<Redirection>) { forall i :: 0 <= i < |rs| ==> IsToken(s, rs[i].file) }

  predicate CmdTokens(s: string, c: Cmd) {
    match c
    case Exec(args) => AllTokens(s, args)
    case Redir(d, file, mode) => CmdTokens(s, d) && IsToken(s, file)
    case Pipe(l, r) => CmdTokens(s, l) && CmdTokens(s, r)
    case List(l, r) => CmdTokens(s, l) && CmdTokens(s, r)
    case Back(d) => CmdTokens(s, d)
  }

  // ---------------------------------------------------------------- the parser records tokens

  lemma TailSuffix(s: string, k: nat, whole: string)
    requires Suffix(s, whole) && k <= |s|
    ensures Suffix(s[k..], whole)
  {
  }

  lemma {:induction false} SkipSuffix(s: string, whole: string)
    requires Suffix(s, whole)
    ensures Suffix(Skip(s), whole)
  {
    if s != "" && IsWhite(s[0]) {
      TailSuffix(s, 1, whole);
      SkipSuffix(s[1..], whole);
    }
  }

  lemma {:induction false} WordEndSuffix(s: string, whole: string)
    requires Suffix(s, whole)
    ensures Suffix(WordEnd(s), whole)
    ensures forall i :: |whole| - |s| <= i < |whole| - |WordEnd(s)| ==> IsWordChar(whole[i])
  {
    if s != "" && IsWordChar(s[0]) {
      TailSuffix(s, 1, whole);
      WordEndSuffix(s[1..], whole);
      assert whole[|whole| - |s|] == s[0];
    }
  }

  lemma LexToken(s: string, whole: string)
    requires Suffix(s, whole)
    ensures Suffix(Lex(s).rest, whole) && (Lex(s).kind == Word ==> IsToken(whole, Span(Lex(s).q, Lex(s).eq)))
  {
    var t := Skip(s);
    SkipSuffix(s, whole);
    if t != "" {
      if t[0] == '>' {
        var k := if |t| > 1 && t[1] == '>' then 2 else 1;
        TailSuffix(t, k, whole);
        SkipSuffix(t[k..], whole);
      } else if IsSymbol(t[0]) {
        TailSuffix(t, 1, whole);
        SkipSuffix(t[1..], whole);
      } else {
        WordEndSuffix(t, whole);
        SkipSuffix(WordEnd(t), whole);
        var e := WordEnd(t);
        if e != "" { assert whole[|whole| - |e|] == e[0]; }
      }
    } else {
      assert Suffix("", whole);
    }
  }

  lemma TokensCat(s: string, p: Span, ps: seq<Span>)
    requires IsToken(s, p) && AllTokens(s, ps)
    ensures AllTokens(s, [p] + ps)
  {
  }

  lemma FilesCat(s: string, rs: seq<Redirection>, ts: seq<Redirection>)
    requires AllFiles(s, rs) && AllFiles(s, ts)
    ensures AllFiles(s, rs + ts)
  {
  }

  lemma {:induction false} RedirsTokens(s: string, whole: string)
    requires Suffix(s, whole)
    ensures Redirs(s).Ok? ==> Suffix(Redirs(s).rest, whole) && AllFiles(whole, Redirs(s).v)
    decreases |s|
  {
    if !Peek(s, "<>") {
      SkipSuffix(s, whole);
    } else {
      var op := Lex(s);
      LexToken(s, whole);
      LexToken(op.rest, whole);
      var f := Lex(op.rest);
      if f.kind == Word {
        RedirsTokens(f.rest, whole);
        if Redirs(f.rest).Ok? { FilesCat(whole, [Redirection(Span(f.q, f.eq), ModeOf(op.kind))], Redirs(f.rest).v); }
      }
    }
  }

  ghost predicate ArgsTokensIn(r: Res<(seq<Span>, seq<Redirection>)>, whole: string) {
    r.Ok? ==> Suffix(r.rest, whole) && AllTokens(whole, r.v.0) && AllFiles(whole, r.v.1)
  }

  /** One turn of the loop of parseexec(). */
  lemma ArgsTurn(s: string, argc: nat, whole: string, r: Res<(seq<Span>, seq<Redirection>)>)
    requires Suffix(s, whole) && !Peek(s, "|)&;") && Lex(s).kind == Word && argc + 1 < MAXARGS &&
             Redirs(Lex(s).rest).Ok?
    requires r == Args(Redirs(Lex(s).rest).rest, argc + 1) && ArgsTokensIn(r, whole)
    ensures ArgsTokensIn(Args(s, argc), whole)
  {
    var t := Lex(s);
    LexToken(s, whole);
    RedirsTokens(t.rest, whole);
    var rs := Redirs(t.rest).v;
    if r.Ok? {
      TokensCat(whole, Span(t.q, t.eq), r.v.0);
      FilesCat(whole, rs, r.v.1);
      assert Args(s, argc) == Ok(([Span(t.q, t.eq)] + r.v.0, rs + r.v.1), r.rest);
    }
  }

  /** The loop goes on with another argument. */
  predicate GoesOn(s: string, argc: nat) {
    !Peek(s, "|)&;") && Lex(s).kind == Word && argc + 1 < MAXARGS && Redirs(Lex(s).rest).Ok?
  }

  lemma ArgsEnd(s: string, argc: nat, whole: string)
    requires Suffix(s, whole) && !GoesOn(s, argc)
    ensures ArgsTokensIn(Args(s, argc), whole)
  {
    SkipSuffix(s, whole);
    LexToken(s, whole);
  }

  lemma {:induction false} ArgsTokens(s: string, argc: nat, whole: string)
    requires Suffix(s, whole)
    ensures ArgsTokensIn(Args(s, argc), whole)
    decreases |s|
  {
    if GoesOn(s, argc) {
      var rest := Redirs(Lex(s).rest).rest;
      LexToken(s, whole);
      RedirsTokens(Lex(s).rest, whole);
      ArgsTokens(rest, argc + 1, whole);
      ArgsTurn(s, argc, whole, Args(rest, argc + 1));
    } else {
      ArgsEnd(s, argc, whole);
    }
  }

  lemma {:induction false} WrapTokens(c: Cmd, rs: seq<Redirection>, whole: string)
    requires CmdTokens(whole, c) && AllFiles(whole, rs)
    ensures CmdTokens(whole, Wrap(c, rs))
  {
    if rs != [] { WrapTokens(c, rs[..|rs| - 1], whole); }
  }

  ghost predicate Sound(r: Res<Cmd>, whole: string) {
    r.Ok? ==> Suffix(r.rest, whole) && CmdTokens(whole, r.v)
  }

  lemma {:induction false} ExecTokens(s: string, whole: string)
    requires Suffix(s, whole)
    ensures Sound(ParseExec(s), whole)
    decreases |s|, 1
  {
    if Peek(s, "(") {
      BlockTokens(s, whole);
    } else {
      RedirsTokens(s, whole);
      if Redirs(s).Ok? {
        var rs, rest := Redirs(s).v, Redirs(s).rest;
        ArgsTokens(rest, 0, whole);
        if Args(rest, 0).Ok? { WrapTokens(Exec(Args(rest, 0).v.0), rs + Args(rest, 0).v.1, whole); }
      }
    }
  }

  lemma {:induction false} BlockTokens(s: string, whole: string)
    requires Suffix(s, whole)
    ensures Sound(ParseBlock(s), whole)
    decreases |s|, 0
  {
    if Peek(s, "(") {
      LexToken(s, whole);
      var r := ParseLine(Lex(s).rest);
      LineTokens(Lex(s).rest, whole);
      if r.Ok? && Peek(r.rest, ")") {
        LexToken(r.rest, whole);
        RedirsTokens(Lex(r.rest).rest, whole);
        if Redirs(Lex(r.rest).rest).Ok? { WrapTokens(r.v, Redirs(Lex(r.rest).rest).v, whole); }
      }
    }
  }

  lemma {:induction false} PipeTokens(s: string, whole: string)
    requires Suffix(s, whole)
    ensures Sound(ParsePipe(s), whole)
    decreases |s|, 2
  {
    ExecTokens(s, whole);
    var r := ParseExec(s);
    if r.Ok? {
      SkipSuffix(r.rest, whole);
      if Peek(r.rest, "|") {
        LexToken(r.rest, whole);
        PipeTokens(Lex(r.rest).rest, whole);
      }
    }
  }

  lemma {:induction false} BacksTokens(c: Cmd, s: string, whole: string)
    requires Suffix(s, whole) && CmdTokens(whole, c)
    ensures Suffix(Backs(c, s).1, whole) && CmdTokens(whole, Backs(c, s).0)
    decreases |s|
  {
    if Peek(s, "&") {
      LexToken(s, whole);
      BacksTokens(Back(c), Lex(s).rest, whole);
    } else {
      SkipSuffix(s, whole);
    }
  }

  lemma {:induction false} LineTokens(s: string, whole: string)
    requires Suffix(s, whole)
    ensures Sound(ParseLine(s), whole)
    decreases |s|, 3
  {
    PipeTokens(s, whole);
    var r := ParsePipe(s);
    if r.Ok? {
      BacksTokens(r.v, r.rest, whole);
      var (b, rest) := Backs(r.v, r.rest);
      SkipSuffix(rest, whole);
      if Peek(rest, ";") {
        LexToken(rest, whole);
        LineTokens(Lex(rest).rest, whole);
      }
    }
  }

  // ---------------------------------------------------------------- nulterminate()

  /** Where the tokens end, counted from the end of the line. */
  ghost function Ends(ps: seq<Span>): set<nat> { set i | 0 <= i < |ps| :: ps[i].eq }

  ghost function CmdEnds(c: Cmd): set<nat> {
    match c
    case Exec(args) => Ends(args)
    case Redir(d, file, mode) => CmdEnds(d) + {file.eq}
    case Pipe(l, r) => CmdEnds(l) + CmdEnds(r)
    case List(l, r) => CmdEnds(l) + CmdEnds(r)
    case Back(d) => CmdEnds(d)
  }

  /** NULs at the given ends, nothing else changed; n is the length of the line. */
  ghost predicate CutAt(before: seq<char>, after: seq<char>, n: nat, ends: set<nat>) {
    && |after| == |before| == n + 1
    && forall k :: 0 <= k <= n ==> after[k] == if n - k in ends then '\0' else before[k]
  }

  lemma CutTwice(a: seq<char>, b: seq<char>, c: seq<char>, n: nat, e: set<nat>, f: set<nat>)
    requires CutAt(a, b, n, e) && CutAt(b, c, n, f)
    ensures CutAt(a, c, n, e + f)
  {
  }

  method NulOne(buf: array<char>, n: nat, eq: nat)
    requires buf.Length == n + 1 && eq <= n
    modifies buf
    ensures CutAt(old(buf[..]), buf[..], n, {eq})
  {
    buf[n - eq] := '\0';
  }

  method NulArgs(buf: array<char>, n: nat, args: seq<Span>)
    requires buf.Length == n + 1 && forall i :: 0 <= i < |args| ==> args[i].eq <= n
    modifies buf
    ensures CutAt(old(buf[..]), buf[..], n, Ends(args))
  {
    var i := 0;
    while i < |args|
      invariant 0 <= i <= |args| && CutAt(old(buf[..]), buf[..], n, Ends(args[..i]))
    {
      ghost var b := buf[..];
      NulOne(buf, n, args[i].eq);
      CutTwice(old(buf[..]), b, buf[..], n, Ends(args[..i]), {args[i].eq});
      assert Ends(args[..i]) + {args[i].eq} == Ends(args[..i + 1]) by { EndsSnoc(args, i); }
      i := i + 1;
    }
    assert args[..i] == args;
  }

  lemma EndsSnoc(args: seq<Span>, i: nat)
    requires i < |args|
    ensures Ends(args[..i + 1]) == Ends(args[..i]) + {args[i].eq}
  {
    var a, b := args[..i], args[..i + 1];
    assert b == a + [args[i]];
    forall x | x in Ends(b) ensures x in Ends(a) + {args[i].eq} {
      var k :| 0 <= k < |b| && b[k].eq == x;
      if k < i { assert a[k].eq == x; }
    }
    forall x | x in Ends(a) ensures x in Ends(b) {
      var k :| 0 <= k < |a| && a[k].eq == x;
      assert b[k].eq == x;
    }
    assert b[i].eq in Ends(b);
  }

  predicate EndsIn(c: Cmd, n: nat) {
    match c
    case Exec(args) => forall i :: 0 <= i < |args| ==> args[i].eq <= n
    case Redir(d, file, mode) => EndsIn(d, n) && file.eq <= n
    case Pipe(l, r) => EndsIn(l, n) && EndsIn(r, n)
    case List(l, r) => EndsIn(l, n) && EndsIn(r, n)
    case Back(d) => EndsIn(d, n)
  }

  /** nulterminate() on the buffer that holds the line of length n and its NUL. */
  method Nulterminate(buf: array<char>, n: nat, c: Cmd)
    requires buf.Length == n + 1 && EndsIn(c, n)
    modifies buf
    ensures CutAt(old(buf[..]), buf[..], n, CmdEnds(c))
    decreases c
  {
    match c
    case Exec(args) =>
      NulArgs(buf, n, args);
    case Redir(d, file, mode) =>
      Nulterminate(buf, n, d);
      ghost var b := buf[..];
      NulOne(buf, n, file.eq);
      CutTwice(old(buf[..]), b, buf[..], n, CmdEnds(d), {file.eq});
    case Pipe(l, r) =>
      Nulterminate(buf, n, l);
      ghost var b := buf[..];
      Nulterminate(buf, n, r);
      CutTwice(old(buf[..]), b, buf[..], n, CmdEnds(l), CmdEnds(r));
    case List(l, r) =>
      Nulterminate(buf, n, l);
      ghost var b := buf[..];
      Nulterminate(buf, n, r);
      CutTwice(old(buf[..]), b, buf[..], n, CmdEnds(l), CmdEnds(r));
    case Back(d) =>
      Nulterminate(buf, n, d);
  }

  // ---------------------------------------------------------------- the strings afterwards

  /** The C string that starts at index i. */
  function CString(b: seq<char>, i: nat): string
    decreases |b| - i
  {
    if i >= |b| || b[i] == '\0' then "" else [b[i]] + CString(b, i + 1)
  }

  lemma {:induction false} CStringIs(b: seq<char>, i: nat, e: nat)
    requires i <= e < |b| && b[e] == '\0' && forall k :: i <= k < e ==> b[k] != '\0'
    ensures CString(b, i) == b[i..e]
    decreases e - i
  {
    if i < e { CStringIs(b, i + 1, e); }
  }

  /** No token loses a character, and the one that ends here is cut off. */
  lemma TokenString(s: string, after: seq<char>, ends: set<nat>, p: Span)
    requires NoNul(s) && IsToken(s, p) && p.eq in ends && CutAt(s + ['\0'], after, |s|, ends)
    requires forall x :: x in ends && 0 < x <= |s| ==> !IsWordChar(s[|s| - x])
    ensures CString(after, |s| - p.q) == Text(s, p)
  {
    var n := |s|;
    forall k | n - p.q <= k < n - p.eq ensures after[k] == s[k] && after[k] != '\0' {
      assert IsWordChar(s[n - (n - k)]);
    }
    CStringIs(after, n - p.q, n - p.eq);
    assert after[n - p.q..n - p.eq] == s[n - p.q..n - p.eq];
  }

  ghost predicate Strings(s: string, after: seq<char>, c: Cmd) {
    match c
    case Exec(args) => forall i :: 0 <= i < |args| ==>
      args[i].q <= |s| && CString(after, |s| - args[i].q) == Text(s, args[i])
    case Redir(d, file, mode) => Strings(s, after, d) && file.q <= |s| && CString(after, |s| - file.q) == Text(s, file)
    case Pipe(l, r) => Strings(s, after, l) && Strings(s, after, r)
    case List(l, r) => Strings(s, after, l) && Strings(s, after, r)
    case Back(d) => Strings(s, after, d)
  }

  lemma {:induction false} EndsAreStops(s: string, c: Cmd, x: nat)
    requires CmdTokens(s, c) && x in CmdEnds(c) && x > 0
    ensures x <= |s| && !IsWordChar(s[|s| - x])
  {
    match c
    case Exec(args) =>
      var i :| 0 <= i < |args| && args[i].eq == x;
      assert IsToken(s, args[i]);
    case Redir(d, file, mode) => if x != file.eq { EndsAreStops(s, d, x); }
    case Pipe(l, r) => if x in CmdEnds(l) { EndsAreStops(s, l, x); } else { EndsAreStops(s, r, x); }
    case List(l, r) => if x in CmdEnds(l) { EndsAreStops(s, l, x); } else { EndsAreStops(s, r, x); }
    case Back(d) => EndsAreStops(s, d, x);
  }

  lemma {:induction false} StringsOf(s: string, after: seq<char>, ends: set<nat>, c: Cmd)
    requires NoNul(s) && CmdTokens(s, c) && CmdEnds(c) <= ends && CutAt(s + ['\0'], after, |s|, ends)
    requires forall x :: x in ends && 0 < x <= |s| ==> !IsWordChar(s[|s| - x])
    ensures Strings(s, after, c)
  {
    match c
    case Exec(args) =>
      forall i | 0 <= i < |args| ensures args[i].q <= |s| && CString(after, |s| - args[i].q) == Text(s, args[i]) {
        assert IsToken(s, args[i]);
        assert args[i].eq in Ends(args);
        TokenString(s, after, ends, args[i]);
      }
    case Redir(d, file, mode) =>
      StringsOf(s, after, ends, d);
      TokenString(s, after, ends, file);
    case Pipe(l, r) => StringsOf(s, after, ends, l); StringsOf(s, after, ends, r);
    case List(l, r) => StringsOf(s, after, ends, l); StringsOf(s, after, ends, r);
    case Back(d) => StringsOf(s, after, ends, d);
  }

  lemma {:induction false} TokensEnd(s: string, c: Cmd)
    requires CmdTokens(s, c)
    ensures EndsIn(c, |s|)
  {
    match c
    case Exec(args) => forall i | 0 <= i < |args| ensures args[i].eq <= |s| { assert IsToken(s, args[i]); }
    case Redir(d, file, mode) => TokensEnd(s, d);
    case Pipe(l, r) => TokensEnd(s, l); TokensEnd(s, r);
    case List(l, r) => TokensEnd(s, l); TokensEnd(s, r);
    case Back(d) => TokensEnd(s, d);
  }

  /** NULTERMINATE.  After parsing a line and terminating its tokens in place, every argument and
      every file name reads back, as a C string, exactly the token it was parsed from. */
  lemma TerminatedStrings(s: string, after: seq<char>)
    requires NoNul(s) && ParseLine(s).Ok? && CutAt(s + ['\0'], after, |s|, CmdEnds(ParseLine(s).v))
    ensures EndsIn(ParseLine(s).v, |s|) && Strings(s, after, ParseLine(s).v)
  {
    var c := ParseLine(s).v;
    LineTokens(s, s);
    TokensEnd(s, c);
    forall x | x in CmdEnds(c) && 0 < x <= |s| ensures !IsWordChar(s[|s| - x]) { EndsAreStops(s, c, x); }
    StringsOf(s, after, CmdEnds(c), c);
  }
}
