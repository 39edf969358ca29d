/** The lexer and the recursive-descent parser of user/sh.c on the text still to be read.
    Pointers into the line are kept as the number of characters left at that point, so a token
    is a pair of such numbers.  The line contains no NUL, as strlen() sees it. */
module ShellGrammar {

  const MAXARGS: nat := 10

  predicate IsWhite(c: char) { c in [' ', '\t', '\r', '\n', '\U{000B}'] }
  predicate IsSymbol(c: char) { c in ['<', '|', '>', '&', ';', '(', ')'] }
  predicate IsWordChar(c: char) { !IsWhite(c) && !IsSymbol(c) }

  /** Past white space. */
  function Skip(s: string): (r: string)
    ensures |r| <= |s| && (r == "" || !IsWhite(r[0]))
  {
    if s == "" then "" else if IsWhite(s[0]) then Skip(s[1..]) else s
  }

  /** Past the characters of a word. */
  function WordEnd(s: string): (r: string)
    ensures |r| <= |s| && (r == "" || !IsWordChar(r[0]))
    ensures s != "" && IsWordChar(s[0]) ==> |r| < |s|
  {
    if s == "" then "" else if IsWordChar(s[0]) then WordEnd(s[1..]) else s
  }

  datatype Kind = End | Sym(c: char) | Append | Word
  datatype Token = Token(kind: Kind, q: nat, eq: nat, rest: string)

  /** A token at the front of t, which does not start with white space. */
  function LexAt(t: string): (k: Token)
    requires t != "" && !IsWhite(t[0])
    ensures k.kind != End && |k.rest| < |t|
  {
    if t[0] == '>' then
      if |t| > 1 && t[1] == '>' then Token(Append, |t|, |t| - 2, Skip(t[2..]))
      else Token(Sym('>'), |t|, |t| - 1, Skip(t[1..]))
    else if IsSymbol(t[0]) then Token(Sym(t[0]), |t|, |t| - 1, Skip(t[1..]))
    else Token(Word, |t|, |WordEnd(t)|, Skip(WordEnd(t)))
  }

  /** gettoken() */
  function Lex(s: string): (k: Token)
    ensures |k.rest| <= |s| && (k.kind != End ==> |k.rest| < |s|)
  {
    if Skip(s) == "" then Token(End, 0, 0, "") else LexAt(Skip(s))
  }

  /** peek(): is the next character one of toks? */
  predicate Peek(s: string, toks: string) {
    Skip(s) != "" && Skip(s)[0] in toks
  }

  // ---------------------------------------------------------------- command trees

  datatype Span = Span(q: nat, eq: nat)
  datatype Mode = Read | Write | Extend
  datatype Redirection = Redirection(file: Span, mode: Mode)

  datatype Cmd =
    | Exec(args: seq<Span>)
    | Redir(cmd: Cmd, file: Span, mode: Mode)
    | Pipe(left: Cmd, right: Cmd)
    | List(left: Cmd, right: Cmd)
    | Back(cmd: Cmd)

  /** redircmd() applied for each redirection in turn: the last one is outermost. */
  function Wrap(c: Cmd, rs: seq<Redirection>): Cmd {
    if rs == [] then c else Redir(Wrap(c, rs[..|rs| - 1]), rs[|rs| - 1].file, rs[|rs| - 1].mode)
  }

  datatype Res<T> = Ok(v: T, rest: string) | Panic

  function ModeOf(k: Kind): Mode {
    match k
    case Sym(c) => if c == '<' then Read else Write
    case _ => Extend
  }

  /** parseredirs(): the redirections that follow. */
  function Redirs(s: string): (r: Res<seq<Redirection>>)
    ensures r.Ok? ==> |r.rest| <= |s|
    decreases |s|
  {
    if !Peek(s, "<>") then Ok([], Skip(s))
    else
      var op := Lex(s);
      var f := Lex(op.rest);
      if f.kind != Word then Panic
      else match Redirs(f.rest)
        case Panic => Panic
        case Ok(rs, rest) => Ok([Redirection(Span(f.q, f.eq), ModeOf(op.kind))] + rs, rest)
  }

  /** The loop of parseexec(): arguments, with redirections among them. */
  function Args(s: string, argc: nat): (r: Res<(seq<Span>, seq<Redirection>)>)
    ensures r.Ok? ==> |r.rest| <= |s|
    decreases |s|
  {
    if Peek(s, "|)&;") then Ok(([], []), Skip(s))
    else
      var t := Lex(s);
      if t.kind == End then Ok(([], []), t.rest)
      else if t.kind != Word then Panic
      else if argc + 1 >= MAXARGS then Panic
      else match Redirs(t.rest)
        case Panic => Panic
        case Ok(rs, rest) =>
          match Args(rest, argc + 1)
          case Panic => Panic
          case Ok(more, rest') => Ok(([Span(t.q, t.eq)] + more.0, rs + more.1), rest')
  }

  function ParseExec(s: string): (r: Res<Cmd>)
    ensures r.Ok? ==> |r.rest| <= |s|
    decreases |s|, 1
  {
    if Peek(s, "(") then ParseBlock(s)
    else match Redirs(s)
      case Panic => Panic
      case Ok(rs, rest) =>
        match Args(rest, 0)
        case Panic => Panic
        case Ok(more, rest') => Ok(Wrap(Exec(more.0), rs + more.1), rest')
  }

  function ParseBlock(s: string): (r: Res<Cmd>)
    ensures r.Ok? ==> |r.rest| <= |s|
    decreases |s|, 0
  {
    if !Peek(s, "(") then Panic
    else match ParseLine(Lex(s).rest)
      case Panic => Panic
      case Ok(c, rest) =>
        if !Peek(rest, ")") then Panic
        else match Redirs(Lex(rest).rest)
          case Panic => Panic
          case Ok(rs, rest') => Ok(Wrap(c, rs), rest')
  }

  function ParsePipe(s: string): (r: Res<Cmd>)
    ensures r.Ok? ==> |r.rest| <= |s|
    decreases |s|, 2
  {
    match ParseExec(s)
    case Panic => Panic
    case Ok(c, rest) =>
      if !Peek(rest, "|") then Ok(c, Skip(rest))
      else match ParsePipe(Lex(rest).rest)
        case Panic => Panic
        case Ok(d, rest') => Ok(Pipe(c, d), rest')
  }

  /** The & loop of parseline(). */
  function Backs(c: Cmd, s: string): (r: (Cmd, string))
    ensures |r.1| <= |s|
    decreases |s|
  {
    if Peek(s, "&") then Backs(Back(c), Lex(s).rest) else (c, Skip(s))
  }

  function ParseLine(s: string): (r: Res<Cmd>)
    ensures r.Ok? ==> |r.rest| <= |s|
    decreases |s|, 3
  {
    match ParsePipe(s)
    case Panic => Panic
    case Ok(c, rest) =>
      var (b, rest1) := Backs(c, rest);
      if !Peek(rest1, ";") then Ok(b, Skip(rest1))
      else match ParseLine(Lex(rest1).rest)
        case Panic => Panic
        case Ok(d, rest2) => Ok(List(b, d), rest2)
  }

  /** parsecmd() up to nulterminate(). */
  function ParseCmd(s: string): Res<Cmd> {
    match ParseLine(s)
    case Panic => Panic
    case Ok(c, rest) => if Skip(rest) == "" then Ok(c, "") else Panic
  }
}
