/** Printing a command tree and parsing it back. */
module ShellPrint {
  import opened ShellGrammar

  datatype Tree =
    | Run(words: seq<string>)
    | Redirect(cmd: Tree, file: string, mode: Mode)
    | Piped(left: Tree, right: Tree)
    | Then(left: Tree, right: Tree)
    | Background(cmd: Tree)

  /** The text of a token of line s. */
  function Text(s: string, p: Span): string {
    if p.eq <= p.q <= |s| then s[|s| - p.q..|s| - p.eq] else ""
  }

  function Texts(s: string, ps: seq<Span>): (r: seq<string>)
    ensures |r| == |ps|
  {
    if ps == [] then [] else [Text(s, ps[0])] + Texts(s, ps[1..])
  }

  /** What a parsed command of line s says. */
  function Meaning(s: string, c: Cmd): Tree {
    match c
    case Exec(args) => Run(Texts(s, args))
    case Redir(d, file, mode) => Redirect(Meaning(s, d), Text(s, file), mode)
    case Pipe(l, r) => Piped(Meaning(s, l), Meaning(s, r))
    case List(l, r) => Then(Meaning(s, l), Meaning(s, r))
    case Back(d) => Background(Meaning(s, d))
  }

  predicate Plain(w: string) { w != "" && forall i :: 0 <= i < |w| ==> IsWordChar(w[i]) }

  /** Words are plain, and no command has more than the shell can take. */
  predicate Printable(t: Tree) {
    match t
    case Run(ws) => |ws| < MAXARGS && forall i :: 0 <= i < |ws| ==> Plain(ws[i])
    case Redirect(d, file, mode) => Printable(d) && Plain(file)
    case Piped(l, r) => Printable(l) && Printable(r)
    case Then(l, r) => Printable(l) && Printable(r)
    case Background(d) => Printable(d)
  }

  function PrintWords(ws: seq<string>): string {
    if ws == [] then "" else ws[0] + (" " + PrintWords(ws[1..]))
  }

  function PrintMode(m: Mode): string {
    match m
    case Read => "<"
    case Write => ">"
    case Extend => ">>"
  }

  function Paren(t: Tree): string
    decreases t, 1
  {
    "(" + Print(t) + ")"
  }

  /** The canonical form: every subcommand in parentheses. */
  function Print(t: Tree): string
    decreases t, 0
  {
    match t
    case Run(ws) => PrintWords(ws)
    case Redirect(d, file, mode) => Paren(d) + (PrintMode(mode) + file)
    case Piped(l, r) => Paren(l) + ("|" + Paren(r))
    case Then(l, r) => Paren(l) + (";" + Paren(r))
    case Background(d) => Paren(d) + "&"
  }

  // ---------------------------------------------------------------- tokens

  /** The text does not go on with a word, white space or a redirection. */
  predicate Stops(s: string) { s == "" || s[0] in ")|&;" }

  lemma {:induction false} WordEndOf(w: string, rest: string)
    requires forall i :: 0 <= i < |w| ==> IsWordChar(w[i])
    requires rest == "" || !IsWordChar(rest[0])
    ensures WordEnd(w + rest) == rest
  {
    if w == "" {
      assert w + rest == rest;
    } else {
      assert (w + rest)[1..] == w[1..] + rest;
      WordEndOf(w[1..], rest);
    }
  }

  lemma LexWord(w: string, rest: string)
    requires Plain(w) && (rest == "" || !IsWordChar(rest[0]))
    ensures Lex(w + rest) == Token(Word, |w + rest|, |rest|, Skip(rest))
    ensures Text(w + rest, Span(|w + rest|, |rest|)) == w
    ensures Skip(w + rest) == w + rest && (w + rest)[0] == w[0]
  {
    WordEndOf(w, rest);
    assert (w + rest)[0] == w[0];
  }

  lemma LexSymbol(c: char, rest: string)
    requires IsSymbol(c) && c != '>'
    ensures Lex([c] + rest) == Token(Sym(c), |rest| + 1, |rest|, Skip(rest)) && Skip([c] + rest) == [c] + rest
  {
    assert ([c] + rest)[1..] == rest;
  }

  // ---------------------------------------------------------------- longer lines

  lemma LongerText(pre: string, s: string, p: Span)
    requires p.q <= |s|
    ensures Text(pre + s, p) == Text(s, p)
  {
  }

  predicate SpansIn(ps: seq<Span>, n: nat) { forall i :: 0 <= i < |ps| ==> ps[i].q <= n }

  predicate TokensIn(c: Cmd, n: nat) {
    match c
    case Exec(args) => SpansIn(args, n)
    case Redir(d, file, mode) => TokensIn(d, n) && file.q <= n
    case Pipe(l, r) => TokensIn(l, n) && TokensIn(r, n)
    case List(l, r) => TokensIn(l, n) && TokensIn(r, n)
    case Back(d) => TokensIn(d, n)
  }

  lemma {:induction false} LongerTexts(pre: string, s: string, ps: seq<Span>)
    requires SpansIn(ps, |s|)
    ensures Texts(pre + s, ps) == Texts(s, ps)
  {
    if ps != [] {
      LongerText(pre, s, ps[0]);
      LongerTexts(pre, s, ps[1..]);
    }
  }

  /** Tokens near the end of a line mean the same in a longer line with that end. */
  lemma {:induction false} LongerLine(pre: string, s: string, c: Cmd)
    requires TokensIn(c, |s|)
    ensures Meaning(pre + s, c) == Meaning(s, c) && TokensIn(c, |pre + s|)
  {
    match c
    case Exec(args) => LongerTexts(pre, s, args);
    case Redir(d, file, mode) => LongerLine(pre, s, d); LongerText(pre, s, file);
    case Pipe(l, r) => LongerLine(pre, s, l); LongerLine(pre, s, r);
    case List(l, r) => LongerLine(pre, s, l); LongerLine(pre, s, r);
    case Back(d) => LongerLine(pre, s, d);
  }

  // ---------------------------------------------------------------- simple commands

  lemma NoRedirs(s: string)
    requires s == "" || (!IsWhite(s[0]) && s[0] != '<' && s[0] != '>')
    ensures Redirs(s) == Ok([], s)
  {
  }

  /** Text that starts with neither white space, a redirection nor a block. */
  predicate Clean(s: string) { s == "" || (!IsWhite(s[0]) && s[0] !in "(<>") }

  lemma NotPeeked(w: string, rest: string, toks: string)
    requires Plain(w) && (forall c :: c in toks ==> IsSymbol(c))
    ensures !Peek(w + rest, toks) && Clean(w + rest)
  {
    assert (w + rest)[0] == w[0];
    assert IsWordChar(w[0]);
  }

  lemma OneWord(w: string, s1: string, argc: nat)
    requires Plain(w) && Clean(s1) && argc + 1 < MAXARGS && Args(s1, argc + 1).Ok?
    ensures var s, r := w + (" " + s1), Args(s1, argc + 1);
            Args(s, argc) == Ok(([Span(|s|, |s1| + 1)] + r.v.0, r.v.1), r.rest) && Text(s, Span(|s|, |s1| + 1)) == w
  {
    var s := w + (" " + s1);
    NotPeeked(w, " " + s1, "|)&;");
    LexWord(w, " " + s1);
    assert (" " + s1)[1..] == s1;
    assert Lex(s).rest == s1;
    NoRedirs(s1);
    var r := Args(s1, argc + 1);
    assert [] + r.v.1 == r.v.1;
  }

  /** The words of a simple command come back as its arguments. */
  ghost predicate ArgsBack(s: string, argc: nat, ws: seq<string>, rest: string) {
    var r := Args(s, argc);
    r.Ok? && r.rest == rest && r.v.1 == [] && SpansIn(r.v.0, |s|) && Texts(s, r.v.0) == ws
  }

  lemma NoWords(argc: nat, rest: string)
    requires Stops(rest)
    ensures ArgsBack(rest, argc, [], rest) && Clean(rest)
  {
    if rest != "" { assert Skip(rest) == rest && Peek(rest, "|)&;"); }
  }

  lemma WordsStep(w: string, ws: seq<string>, s1: string, argc: nat, rest: string)
    requires Plain(w) && Clean(s1) && argc + 1 < MAXARGS && ArgsBack(s1, argc + 1, ws, rest)
    ensures ArgsBack(w + (" " + s1), argc, [w] + ws, rest) && Clean(w + (" " + s1))
  {
    OneWord(w, s1, argc);
    NotPeeked(w, " " + s1, "");
    MoreTexts(w, s1, Args(s1, argc + 1).v.0);
  }

  lemma PrintCons(ws: seq<string>, rest: string)
    requires ws != []
    ensures PrintWords(ws) + rest == ws[0] + (" " + (PrintWords(ws[1..]) + rest)) && [ws[0]] + ws[1..] == ws
  {
  }

  lemma {:induction false} WordsBack(ws: seq<string>, argc: nat, rest: string, s: string)
    requires argc + |ws| < MAXARGS && (forall i :: 0 <= i < |ws| ==> Plain(ws[i])) && Stops(rest) &&
             s == PrintWords(ws) + rest
    ensures ArgsBack(s, argc, ws, rest) && Clean(s)
  {
    if ws == [] {
      assert s == rest;
      NoWords(argc, rest);
    } else {
      var s1 := PrintWords(ws[1..]) + rest;
      WordsBack(ws[1..], argc + 1, rest, s1);
      PrintCons(ws, rest);
      WordsStep(ws[0], ws[1..], s1, argc, rest);
    }
  }

  lemma MoreTexts(w: string, s1: string, ps: seq<Span>)
    requires SpansIn(ps, |s1|)
    ensures var s := w + (" " + s1);
            var qs := [Span(|s|, |s1| + 1)] + ps;
            SpansIn(qs, |s|) && Texts(s, qs) == [Text(s, qs[0])] + Texts(s1, ps)
  {
    var s := w + (" " + s1);
    LongerTexts(w + " ", s1, ps);
    assert (w + " ") + s1 == s;
    assert ([Span(|s|, |s1| + 1)] + ps)[1..] == ps;
  }

  // ---------------------------------------------------------------- whole commands

  /** A parser result that is tree t and leaves `rest`. */
  predicate Yields(s: string, r: Res<Cmd>, t: Tree, rest: string) {
    r.Ok? && r.rest == rest && TokensIn(r.v, |s|) && Meaning(s, r.v) == t
  }

  lemma RunBack(ws: seq<string>, rest: string, s: string)
    requires |ws| < MAXARGS && (forall i :: 0 <= i < |ws| ==> Plain(ws[i])) && Stops(rest) && s == PrintWords(ws) + rest
    ensures Yields(s, ParseExec(s), Run(ws), rest)
  {
    WordsBack(ws, 0, rest, s);
    NoRedirs(s);
    var more := Args(s, 0).v;
    assert [] + more.1 == [];
    assert ParseExec(s) == Ok(Exec(more.0), rest);
  }

  lemma BlockParse(inner: string, tail: string, c: Cmd, rs: seq<Redirection>, rest: string)
    requires ParseLine(inner) == Ok(c, ")" + tail) && Skip(inner) == inner && Skip(tail) == tail &&
             Redirs(tail) == Ok(rs, rest)
    ensures ParseExec("(" + inner) == Ok(Wrap(c, rs), rest)
  {
    LexSymbol('(', inner);
    LexSymbol(')', tail);
  }

  /** A block followed by something else than a redirection. */
  lemma BlockBack(t: Tree, tail: string, inner: string, s: string)
    requires Stops(tail) && inner == Print(t) + (")" + tail) && s == "(" + inner
    requires Yields(inner, ParseLine(inner), t, ")" + tail) && Skip(inner) == inner
    ensures Yields(s, ParseExec(s), t, tail)
  {
    var c := ParseLine(inner).v;
    NoRedirs(tail);
    BlockParse(inner, tail, c, [], tail);
    LongerLine("(", inner, c);
  }

  lemma LexMode(m: Mode, f: string, rest: string)
    requires Plain(f)
    ensures var s := PrintMode(m) + (f + rest);
            Peek(s, "<>") && Lex(s).rest == f + rest && ModeOf(Lex(s).kind) == m && Skip(s) == s
  {
    var s := PrintMode(m) + (f + rest);
    assert (f + rest)[0] == f[0] && IsWordChar(f[0]);
    assert Skip(f + rest) == f + rest;
    assert s[|PrintMode(m)|..] == f + rest;
    assert s[0] == PrintMode(m)[0];
    if m != Read { assert s[1] == if m == Write then f[0] else '>'; }
  }

  /** One redirection and then none. */
  lemma OneRedir(m: Mode, f: string, rest: string)
    requires Plain(f) && Stops(rest)
    ensures var s := PrintMode(m) + (f + rest);
            Redirs(s) == Ok([Redirection(Span(|f + rest|, |rest|), m)], rest) &&
            Text(f + rest, Span(|f + rest|, |rest|)) == f
  {
    var s := PrintMode(m) + (f + rest);
    LexMode(m, f, rest);
    LexWord(f, rest);
    assert Skip(rest) == rest;
    NoRedirs(rest);
    assert [Redirection(Span(|f + rest|, |rest|), m)] + [] == [Redirection(Span(|f + rest|, |rest|), m)];
  }

  lemma WrapOne(c: Cmd, x: Redirection)
    ensures Wrap(c, [x]) == Redir(c, x.file, x.mode)
  {
    assert [x][..0] == [];
  }

  lemma RedirectBack(t: Tree, m: Mode, f: string, rest: string, tail: string, inner: string, s: string)
    requires Plain(f) && Stops(rest) && tail == PrintMode(m) + (f + rest) && inner == Print(t) + (")" + tail) &&
             s == "(" + inner
    requires Yields(inner, ParseLine(inner), t, ")" + tail) && Skip(inner) == inner
    ensures Yields(s, ParseExec(s), Redirect(t, f, m), rest)
  {
    LexMode(m, f, rest);
    OneRedir(m, f, rest);
    var c := ParseLine(inner).v;
    var x := Redirection(Span(|f + rest|, |rest|), m);
    BlockParse(inner, tail, c, [x], rest);
    WrapOne(c, x);
    LongerLine("(", inner, c);
    FileText(t, m, f, rest, x.file, s);
  }

  lemma FileText(t: Tree, m: Mode, f: string, rest: string, p: Span, s: string)
    requires s == "(" + (Print(t) + (")" + (PrintMode(m) + (f + rest)))) && p.q <= |f + rest|
    ensures Text(s, p) == Text(f + rest, p) && p.q <= |s|
  {
    var pre := "(" + (Print(t) + (")" + PrintMode(m)));
    assert s == pre + (f + rest);
    LongerText(pre, f + rest, p);
  }

  predicate Closed(rest: string) { rest == "" || rest[0] == ')' }

  lemma PipeEnd(s: string, t: Tree, rest: string)
    requires Yields(s, ParseExec(s), t, rest) && Stops(rest) && (rest == "" || rest[0] != '|')
    ensures Yields(s, ParsePipe(s), t, rest)
  {
    assert Skip(rest) == rest;
    assert !Peek(rest, "|");
  }

  lemma LineEnd(s: string, t: Tree, rest: string)
    requires Yields(s, ParsePipe(s), t, rest) && Closed(rest)
    ensures Yields(s, ParseLine(s), t, rest)
  {
    assert Skip(rest) == rest;
    assert !Peek(rest, "&") && !Peek(rest, ";");
  }

  lemma PipedBack(pre: string, s2: string, s: string, l: Tree, r: Tree, rest: string)
    requires s == pre + s2 && Skip(s2) == s2
    requires Yields(s, ParseExec(s), l, "|" + s2) && Yields(s2, ParsePipe(s2), r, rest)
    ensures Yields(s, ParsePipe(s), Piped(l, r), rest)
  {
    LexSymbol('|', s2);
    LongerLine(pre, s2, ParsePipe(s2).v);
  }

  lemma ThenBack(pre: string, s2: string, s: string, l: Tree, r: Tree, rest: string)
    requires s == pre + s2 && Skip(s2) == s2
    requires Yields(s, ParsePipe(s), l, ";" + s2) && Yields(s2, ParseLine(s2), r, rest)
    ensures Yields(s, ParseLine(s), Then(l, r), rest)
  {
    LexSymbol(';', s2);
    assert !Peek(";" + s2, "&");
    LongerLine(pre, s2, ParseLine(s2).v);
  }

  lemma BackgroundBack(s: string, t: Tree, rest: string)
    requires Yields(s, ParsePipe(s), t, "&" + rest) && Closed(rest)
    ensures Yields(s, ParseLine(s), Background(t), rest)
  {
    LexSymbol('&', rest);
    assert Skip(rest) == rest;
    assert !Peek(rest, "&") && !Peek(rest, ";");
    var c := ParsePipe(s).v;
    assert Backs(Back(c), rest) == (Back(c), rest);
    assert Backs(c, "&" + rest) == Backs(Back(c), rest);
  }

  lemma PrintStart(t: Tree, x: string)
    requires Printable(t) && x != "" && !IsWhite(x[0])
    ensures Skip(Print(t) + x) == Print(t) + x
  {
    if t.Run? {
      if t.words == [] {
        assert Print(t) + x == x;
      } else {
        assert Print(t)[0] == t.words[0][0];
      }
    } else {
      assert (Print(t) + x)[0] == '(';
    }
  }

  lemma Regroup(p: string, b: string, rest: string)
    ensures ("(" + p + ")") + b + rest == "(" + (p + (")" + (b + rest)))
    ensures ("(" + p + ")") + rest == "(" + (p + (")" + rest))
  {
  }

  lemma Regroup2(a: string, c: string, b: string, rest: string)
    ensures a + (c + b) + rest == a + (c + (b + rest)) == (a + c) + (b + rest)
  {
  }

  /** A printed block is parsed as that block. */
  lemma {:induction false} ParenBack(t: Tree, tail: string, s: string)
    requires Printable(t) && Stops(tail) && s == Paren(t) + tail
    ensures Yields(s, ParseExec(s), t, tail) && Skip(s) == s
    decreases t, 3
  {
    var inner := Print(t) + (")" + tail);
    RoundTripIn(t, ")" + tail);
    PrintStart(t, ")" + tail);
    Regroup(Print(t), "", tail);
    assert s == "(" + inner;
    BlockBack(t, tail, inner, s);
  }

  lemma {:induction false} RedirectIn(d: Tree, f: string, m: Mode, rest: string, s: string)
    requires Printable(d) && Plain(f) && Closed(rest) && s == Print(Redirect(d, f, m)) + rest
    ensures Yields(s, ParseLine(s), Redirect(d, f, m), rest)
    decreases Redirect(d, f, m), 0
  {
    var tail := PrintMode(m) + (f + rest);
    var inner := Print(d) + (")" + tail);
    RoundTripIn(d, ")" + tail);
    PrintStart(d, ")" + tail);
    Regroup(Print(d), PrintMode(m) + f, rest);
    assert (PrintMode(m) + f) + rest == tail;
    RedirectBack(d, m, f, rest, tail, inner, s);
    PipeEnd(s, Redirect(d, f, m), rest);
    LineEnd(s, Redirect(d, f, m), rest);
  }

  lemma {:induction false} PipedIn(l: Tree, r: Tree, rest: string, s: string)
    requires Printable(l) && Printable(r) && Closed(rest) && s == Print(Piped(l, r)) + rest
    ensures Yields(s, ParseLine(s), Piped(l, r), rest)
    decreases Piped(l, r), 0
  {
    var s2 := Paren(r) + rest;
    Regroup2(Paren(l), "|", Paren(r), rest);
    ParenBack(l, "|" + s2, s);
    ParenBack(r, rest, s2);
    PipeEnd(s2, r, rest);
    PipedBack(Paren(l) + "|", s2, s, l, r, rest);
    LineEnd(s, Piped(l, r), rest);
  }

  lemma {:induction false} ThenIn(l: Tree, r: Tree, rest: string, s: string)
    requires Printable(l) && Printable(r) && Closed(rest) && s == Print(Then(l, r)) + rest
    ensures Yields(s, ParseLine(s), Then(l, r), rest)
    decreases Then(l, r), 0
  {
    var s2 := Paren(r) + rest;
    Regroup2(Paren(l), ";", Paren(r), rest);
    ParenBack(l, ";" + s2, s);
    PipeEnd(s, l, ";" + s2);
    ParenBack(r, rest, s2);
    PipeEnd(s2, r, rest);
    LineEnd(s2, r, rest);
    ThenBack(Paren(l) + ";", s2, s, l, r, rest);
  }

  lemma {:induction false} BackgroundIn(d: Tree, rest: string, s: string)
    requires Printable(d) && Closed(rest) && s == Print(Background(d)) + rest
    ensures Yields(s, ParseLine(s), Background(d), rest)
    decreases Background(d), 0
  {
    assert s == Paren(d) + ("&" + rest);
    ParenBack(d, "&" + rest, s);
    PipeEnd(s, d, "&" + rest);
    BackgroundBack(s, d, rest);
  }

  lemma RunIn(ws: seq<string>, rest: string, s: string)
    requires Printable(Run(ws)) && Closed(rest) && s == PrintWords(ws) + rest
    ensures Yields(s, ParseLine(s), Run(ws), rest)
  {
    RunBack(ws, rest, s);
    PipeEnd(s, Run(ws), rest);
    LineEnd(s, Run(ws), rest);
  }

  /** ROUND TRIP.  In any context that ends it, a printed tree is parsed as itself. */
  lemma {:induction false} RoundTripIn(t: Tree, rest: string)
    requires Printable(t) && Closed(rest)
    ensures Yields(Print(t) + rest, ParseLine(Print(t) + rest), t, rest)
    decreases t, 2
  {
    match t
    case Run(ws) => RunIn(ws, rest, Print(t) + rest);
    case Redirect(d, f, m) => RedirectIn(d, f, m, rest, Print(t) + rest);
    case Piped(l, r) => PipedIn(l, r, rest, Print(t) + rest);
    case Then(l, r) => ThenIn(l, r, rest, Print(t) + rest);
    case Background(d) => BackgroundIn(d, rest, Print(t) + rest);
  }

  /** ROUND TRIP for a whole line. */
  lemma RoundTrip(t: Tree)
    requires Printable(t)
    ensures ParseCmd(Print(t)).Ok? && Meaning(Print(t), ParseCmd(Print(t)).v) == t
  {
    RoundTripIn(t, "");
    assert Print(t) + "" == Print(t);
  }
}
