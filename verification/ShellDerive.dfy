/** The grammar of the shell, apart from any way to parse it: which token lists are which commands.
    The parser accepts exactly these lists and builds exactly these commands. */
module ShellDerive {
  import opened ShellGrammar

  datatype Tok = Tok(kind: Kind, span: Span)

  /** All tokens of a line. */
  function Tokens(s: string): seq<Tok>
    decreases |s|
  {
    var t := Lex(s);
    if t.kind == End then [] else [Tok(t.kind, Span(t.q, t.eq))] + Tokens(t.rest)
  }

  // ---------------------------------------------------------------- the grammar

  predicate IsOp(k: Kind) { k == Sym('<') || k == Sym('>') || k == Append }

  function TokRedir(op: Tok, file: Tok): Redirection { Redirection(file.span, ModeOf(op.kind)) }

  /** (op word)* */
  ghost predicate DRedirs(a: seq<Tok>, rs: seq<Redirection>) {
    if a == [] then rs == []
    else
      && |a| >= 2 && IsOp(a[0].kind) && a[1].kind == Word
      && rs != [] && rs[0] == TokRedir(a[0], a[1]) && DRedirs(a[2..], rs[1..])
  }

  /** (word | op word)* */
  ghost predicate DSimple(a: seq<Tok>, args: seq<Span>, rs: seq<Redirection>) {
    if a == [] then args == [] && rs == []
    else if a[0].kind == Word then args != [] && args[0] == a[0].span && DSimple(a[1..], args[1..], rs)
    else
      && |a| >= 2 && IsOp(a[0].kind) && a[1].kind == Word
      && rs != [] && rs[0] == TokRedir(a[0], a[1]) && DSimple(a[2..], args, rs[1..])
  }

  ghost predicate IsSimple(a: seq<Tok>, c: Cmd, args: seq<Span>, rs: seq<Redirection>) {
    DSimple(a, args, rs) && |args| < MAXARGS && c == Wrap(Exec(args), rs)
  }

  /** '(' line ')' (op word)* with the closing parenthesis at i */
  ghost predicate IsBlock(a: seq<Tok>, c: Cmd, i: nat, d: Cmd, rs: seq<Redirection>)
    decreases |a|, 0
  {
    && 1 <= i < |a| && a[0].kind == Sym('(') && a[i].kind == Sym(')')
    && DLine(a[1..i], d) && DRedirs(a[i + 1..], rs) && c == Wrap(d, rs)
  }

  ghost predicate DExec(a: seq<Tok>, c: Cmd)
    decreases |a|, 1
  {
    || (exists args, rs :: IsSimple(a, c, args, rs))
    || (exists i: nat, d, rs :: IsBlock(a, c, i, d, rs))
  }

  /** exec '|' pipe with the bar at i */
  ghost predicate IsPiped(a: seq<Tok>, c: Cmd, i: nat)
    decreases |a|, 2
  {
    i < |a| && a[i].kind == Sym('|') && c.Pipe? && DExec(a[..i], c.left) && DPipe(a[i + 1..], c.right)
  }

  /** exec | exec '|' pipe */
  ghost predicate DPipe(a: seq<Tok>, c: Cmd)
    decreases |a|, 3
  {
    DExec(a, c) || exists i: nat :: IsPiped(a, c, i)
  }

  /** pipe '&'* */
  ghost predicate DBack(a: seq<Tok>, c: Cmd)
    decreases |a|, 4
  {
    DPipe(a, c) || (a != [] && a[|a| - 1].kind == Sym('&') && c.Back? && DBack(a[..|a| - 1], c.cmd))
  }

  /** back ';' line with the semicolon at i */
  ghost predicate IsListed(a: seq<Tok>, c: Cmd, i: nat)
    decreases |a|, 5
  {
    i < |a| && a[i].kind == Sym(';') && c.List? && DBack(a[..i], c.left) && DLine(a[i + 1..], c.right)
  }

  /** back | back ';' line */
  ghost predicate DLine(a: seq<Tok>, c: Cmd)
    decreases |a|, 6
  {
    DBack(a, c) || exists i: nat :: IsListed(a, c, i)
  }

  // ---------------------------------------------------------------- tokens and peeking

  lemma SkipAgain(s: string)
    ensures Skip(Skip(s)) == Skip(s) && Lex(Skip(s)) == Lex(s) && Tokens(Skip(s)) == Tokens(s)
  {
  }

  /** The character a token starts with, as far as peek() asks for it. */
  predicate Starts(k: Kind, toks: string) {
    match k
    case Sym(c) => c in toks
    case Append => '>' in toks
    case _ => false
  }

  predicate Symbols(toks: string) { forall i :: 0 <= i < |toks| ==> IsSymbol(toks[i]) }

  predicate Next(b: seq<Tok>, toks: string) { b != [] && Starts(b[0].kind, toks) }

  lemma PeekNext(s: string, toks: string)
    requires Symbols(toks)
    ensures Peek(s, toks) <==> Next(Tokens(s), toks)
  {
  }

  lemma LexNext(s: string, t: Tok, b: seq<Tok>)
    requires Tokens(s) == [t] + b
    ensures Lex(s).kind == t.kind != End && Span(Lex(s).q, Lex(s).eq) == t.span && Tokens(Lex(s).rest) == b
  {
    var k := Lex(s);
    assert Tokens(s)[0] == Tok(k.kind, Span(k.q, k.eq)) && Tokens(s)[1..] == Tokens(k.rest);
    assert ([t] + b)[0] == t && ([t] + b)[1..] == b;
  }
}
