/** The line loop of user/grep.c: a 1024-byte buffer filled by reads of any size. */
module GrepLines {
  import opened Prelude
  import opened GrepMatch

  const BUFSIZE: nat := 1024

  /** The lines completed by s when `cur` has been read of the first one, without their newlines. */
  function Lines(cur: string, s: string): seq<string>
    decreases |s|
  {
    if s == "" then [] else if s[0] == '\n' then [cur] + Lines("", s[1..]) else Lines(cur + [s[0]], s[1..])
  }

  /** What has been read of the next line after s. */
  function Last(cur: string, s: string): string
    decreases |s|
  {
    if s == "" then cur else if s[0] == '\n' then Last("", s[1..]) else Last(cur + [s[0]], s[1..])
  }

  /** The lines that are hits, each with its newline. */
  ghost function Output(hit: string -> bool, ls: seq<string>): string {
    if ls == [] then "" else Output(hit, ls[..|ls| - 1]) + Hit(hit, ls[|ls| - 1])
  }

  ghost function Hit(hit: string -> bool, line: string): string { if hit(line) then line + "\n" else "" }

  /** The lines grep looks for. */
  ghost function Finder(re: string): string -> bool { line => Occurs(re, line) }

  /** Every line with its newline fits in the buffer next to the final NUL. */
  predicate Short(ls: seq<string>) { forall i :: 0 <= i < |ls| ==> |ls[i]| + 1 < BUFSIZE }

  predicate OneLine(s: string) { forall i :: 0 <= i < |s| ==> s[i] != '\n' }

  // ---------------------------------------------------------------- reading on

  lemma {:induction false} LinesCat(cur: string, s: string, t: string)
    ensures Lines(cur, s + t) == Lines(cur, s) + Lines(Last(cur, s), t)
    decreases |s|
  {
    if s == "" {
      assert s + t == t;
    } else {
      assert (s + t)[1..] == s[1..] + t && (s + t)[0] == s[0];
      if s[0] == '\n' { LinesCat("", s[1..], t); } else { LinesCat(cur + [s[0]], s[1..], t); }
    }
  }

  lemma {:induction false} LastCat(cur: string, s: string, t: string)
    ensures Last(cur, s + t) == Last(Last(cur, s), t)
    decreases |s|
  {
    if s == "" {
      assert s + t == t;
    } else {
      assert (s + t)[1..] == s[1..] + t && (s + t)[0] == s[0];
      if s[0] == '\n' { LastCat("", s[1..], t); } else { LastCat(cur + [s[0]], s[1..], t); }
    }
  }

  /** Text without a newline just makes the current line longer. */
  lemma {:induction false} NoNewline(cur: string, s: string)
    requires OneLine(s)
    ensures Lines(cur, s) == [] && Last(cur, s) == cur + s
    decreases |s|
  {
    if s != "" {
      NoNewline(cur + [s[0]], s[1..]);
      assert cur + [s[0]] + s[1..] == cur + s;
    } else {
      assert cur + s == cur;
    }
  }

  lemma {:induction false} LastOneLine(cur: string, s: string)
    requires OneLine(cur)
    ensures OneLine(Last(cur, s))
    decreases |s|
  {
    if s != "" {
      if s[0] == '\n' { LastOneLine("", s[1..]); } else { LastOneLine(cur + [s[0]], s[1..]); }
    }
  }

  /** A line and its newline. */
  lemma LineAndNewline(line: string, u: string)
    requires OneLine(line)
    ensures Lines("", line + "\n" + u) == [line] + Lines("", u) && Last("", line + "\n" + u) == Last("", u)
  {
    NoNewline("", line);
    assert line + "\n" + u == line + ("\n" + u) && "" + line == line;
    LinesCat("", line, "\n" + u);
    LastCat("", line, "\n" + u);
    assert ("\n" + u)[1..] == u;
    assert [] + Lines(line, "\n" + u) == Lines(line, "\n" + u);
  }

  lemma {:induction false} OutputCat(hit: string -> bool, a: seq<string>, b: seq<string>)
    ensures Output(hit, a + b) == Output(hit, a) + Output(hit, b)
    decreases |b|
  {
    if b == [] {
      assert a + b == a;
    } else {
      var c, x := b[..|b| - 1], b[|b| - 1];
      OutputCat(hit, a, c);
      assert (a + b)[..|a + b| - 1] == a + c && (a + b)[|a + b| - 1] == x;
      Assoc(Output(hit, a), Output(hit, c), Hit(hit, x));
    }
  }

  lemma Assoc(a: string, b: string, c: string)
    ensures a + (b + c) == (a + b) + c
  {
  }

  // ---------------------------------------------------------------- lines that do not fit

  /** The lines before the first one that does not fit. */
  function Fitting(ls: seq<string>): seq<string> {
    if ls == [] || |ls[0]| + 1 >= BUFSIZE then [] else [ls[0]] + Fitting(ls[1..])
  }

  lemma {:induction false} FittingCat(a: seq<string>, b: seq<string>)
    requires Short(a)
    ensures Fitting(a + b) == a + Fitting(b)
  {
    if a == [] {
      assert a + b == b && a + Fitting(b) == Fitting(b);
    } else {
      assert (a + b)[0] == a[0] && (a + b)[1..] == a[1..] + b;
      FittingCat(a[1..], b);
      assert a == [a[0]] + a[1..];
      assert [a[0]] + (a[1..] + Fitting(b)) == a + Fitting(b);
    }
  }

  /** All lines fit exactly when none is dropped. */
  lemma {:induction false} FittingAll(ls: seq<string>)
    ensures Fitting(ls) == ls <==> Short(ls)
  {
    if ls != [] && |ls[0]| + 1 < BUFSIZE {
      FittingAll(ls[1..]);
      assert ls == [ls[0]] + ls[1..];
      if Fitting(ls) == ls { assert Fitting(ls[1..]) == Fitting(ls)[1..] == ls[1..]; }
      if Short(ls[1..]) {
        forall i | 0 <= i < |ls| ensures |ls[i]| + 1 < BUFSIZE { if i > 0 { assert ls[i] == ls[1..][i - 1]; } }
      }
      if Short(ls) { ShortRest(ls); }
    }
  }

  lemma ShortRest(ls: seq<string>)
    requires ls != [] && Short(ls)
    ensures Short(ls[1..])
  {
  }

  lemma {:induction false} FittingPrefix(ls: seq<string>)
    ensures |Fitting(ls)| <= |ls| && Fitting(ls) == ls[..|Fitting(ls)|]
  {
    if ls != [] && |ls[0]| + 1 < BUFSIZE {
      FittingPrefix(ls[1..]);
      assert ls[..|Fitting(ls)|] == [ls[0]] + ls[1..][..|Fitting(ls[1..])|];
    }
  }

  predicate NoHit(hit: string -> bool, ls: seq<string>, n: nat) {
    forall i :: n <= i < |ls| ==> !hit(ls[i])
  }

  lemma {:induction false} NothingOut(hit: string -> bool, ls: seq<string>)
    ensures Output(hit, ls) == "" <==> NoHit(hit, ls, 0)
  {
    if ls != [] {
      var b, x := ls[..|ls| - 1], ls[|ls| - 1];
      NothingOut(hit, b);
      assert |Output(hit, ls)| == |Output(hit, b)| + |Hit(hit, x)|;
      assert forall i :: 0 <= i < |b| ==> b[i] == ls[i];
    }
  }

  /** EXACTLY WHEN OUTPUT IS MISSING.  Stopping at the first line that does not fit loses nothing
      exactly if no line from there on is a hit. */
  lemma LostExactly(hit: string -> bool, ls: seq<string>)
    ensures Output(hit, Fitting(ls)) == Output(hit, ls) <==> NoHit(hit, ls, |Fitting(ls)|)
  {
    FittingPrefix(ls);
    var n := |Fitting(ls)|;
    var a, b := ls[..n], ls[n..];
    assert ls == a + b;
    OutputCat(hit, a, b);
    assert |Output(hit, ls)| == |Output(hit, a)| + |Output(hit, b)|;
    NothingOut(hit, b);
    assert NoHit(hit, b, 0) <==> NoHit(hit, ls, n) by {
      assert forall i :: 0 <= i < |b| ==> b[i] == ls[n + i];
      assert forall i :: n <= i < |ls| ==> ls[i] == b[i - n];
    }
    if Output(hit, b) == "" { assert Output(hit, a) + "" == Output(hit, a); }
  }

  /** For a caller who does not know the pattern: nothing is ever lost exactly if every line with
      its newline has at most 1023 bytes. */
  lemma LosesNothing(ls: seq<string>)
    ensures (forall re {:trigger Finder(re)} :: Output(Finder(re), Fitting(ls)) == Output(Finder(re), ls)) <==>
              Short(ls)
  {
    FittingAll(ls);
    FittingPrefix(ls);
    LostExactly(Finder(""), ls);
    if |Fitting(ls)| < |ls| { EmptyOccurs(ls[|Fitting(ls)|]); }
    assert |Fitting(ls)| == |ls| ==> ls[..|ls|] == ls;
  }

  /** The empty pattern occurs in every line. */
  lemma EmptyOccurs(t: string)
    ensures Finder("")(t)
  {
    HereEnd(t[0..]);
  }

  /** It does happen: of a line of 1023 times the letter a, which the pattern "a" matches, nothing
      is written. */
  lemma LostLine(line: string)
    requires |line| == 1023 && forall i :: 0 <= i < |line| ==> line[i] == 'a'
    ensures Lines("", line + "\n") == [line] && Finder("a")(line)
    ensures Output(Finder("a"), Fitting(Lines("", line + "\n"))) == "" && Output(Finder("a"), [line]) == line + "\n"
  {
    LineAndNewline(line, "");
    assert line + "\n" + "" == line + "\n" && Lines("", "") == [] && [line] + [] == [line];
    MatchHereIff("a", line[0..]);
    assert MatchHere("a"[1..], line[0..][1..]);
    assert [line][..0] == [] && "" + (line + "\n") == line + "\n";
  }

  /** Lines completed out of a buffer of text are no longer than it. */
  lemma {:induction false} LineLengths(cur: string, s: string)
    ensures forall i :: 0 <= i < |Lines(cur, s)| ==> |Lines(cur, s)[i]| + 1 <= |cur| + |s|
    decreases |s|
  {
    if s != "" {
      if s[0] == '\n' { LineLengths("", s[1..]); } else { LineLengths(cur + [s[0]], s[1..]); }
    }
  }

  /** A full buffer that is all one line: that line does not fit. */
  lemma {:induction false} NoMoreLines(cur: string, t: string)
    requires |cur| + 1 >= BUFSIZE
    ensures Fitting(Lines(cur, t)) == []
    decreases |t|
  {
    if t != "" {
      if t[0] == '\n' { assert Lines(cur, t)[0] == cur; } else { NoMoreLines(cur + [t[0]], t[1..]); }
    }
  }

  // ---------------------------------------------------------------- the inner loop

  /** strchr(p, '\n') in the text of length m that ends with a NUL. */
  method Strchr(buf: array<char>, p: nat, m: nat) returns (q: nat)
    requires p <= m < buf.Length && buf[m] == '\0' && forall i :: p <= i < m ==> buf[i] != '\0'
    ensures p <= q <= m && OneLine(buf[p..q]) && (q < m ==> buf[q] == '\n')
  {
    q := p;
    while buf[q] != '\n' && buf[q] != '\0'
      invariant p <= q <= m && OneLine(buf[p..q])
      decreases m - q
    {
      q := q + 1;
    }
  }

  /** One line, from p to the newline at q. */
  method PutLine(re: string, buf: array<char>, p: nat, q: nat) returns (out: string)
    requires p <= q < buf.Length && buf[q] == '\n'
    modifies buf
    ensures out == Hit(Finder(re), old(buf[p..q])) && forall i :: q < i < buf.Length ==> buf[i] == old(buf[i])
  {
    out := "";
    var line := buf[p..q];
    buf[q] := '\0';
    var found := Match(re, line);
    if found {
      buf[q] := '\n';
      out := buf[p..q + 1];
      assert out == line + "\n";
    }
  }

  /** What is written so far and what is still to be scanned make up the text s. */
  ghost predicate Scanned(hit: string -> bool, s: string, out: string, p: nat)
    requires p <= |s|
  {
    Output(hit, Lines("", s)) == out + Output(hit, Lines("", s[p..])) && Last("", s) == Last("", s[p..])
  }

  lemma ScanStep(hit: string -> bool, s: string, out: string, p: nat, q: nat)
    requires p <= q < |s| && Scanned(hit, s, out, p) && OneLine(s[p..q]) && s[q] == '\n'
    ensures Scanned(hit, s, out + Hit(hit, s[p..q]), q + 1)
  {
    var line, left := s[p..q], s[q + 1..];
    assert s[p..] == line + "\n" + left;
    LineAndNewline(line, left);
    OutputCat(hit, [line], Lines("", left));
    OutputOne(hit, line);
    Assoc(out, Hit(hit, line), Output(hit, Lines("", left)));
  }

  lemma OutputOne(hit: string -> bool, line: string)
    ensures Output(hit, [line]) == Hit(hit, line)
  {
    assert [line][..0] == [];
    assert "" + Hit(hit, line) == Hit(hit, line);
  }

  lemma ScanStop(hit: string -> bool, s: string, out: string, p: nat)
    requires p <= |s| && Scanned(hit, s, out, p) && OneLine(s[p..])
    ensures out == Output(hit, Lines("", s)) && s[p..] == Last("", s)
  {
    NoNewline("", s[p..]);
    assert out + "" == out && "" + s[p..] == s[p..];
  }

  lemma ScanStart(hit: string -> bool, s: string)
    ensures Scanned(hit, s, "", 0)
  {
    assert s[0..] == s && "" + Output(hit, Lines("", s)) == Output(hit, Lines("", s));
  }

  /** The lines in buf[..m]: the matching ones are written out, p is where the rest starts. */
  method Scan(re: string, buf: array<char>, m: nat) returns (p: nat, out: string)
    requires m < buf.Length && buf[m] == '\0' && NoNul(buf[..m])
    modifies buf
    ensures p <= m && out == Output(Finder(re), Lines("", old(buf[..m]))) && buf[p..m] == Last("", old(buf[..m]))
  {
    ghost var s, hit := buf[..m], Finder(re);
    p, out := 0, "";
    ScanStart(hit, s);
    while true
      invariant p <= m && buf[m] == '\0' && (forall i :: p <= i < m ==> buf[i] == s[i]) && Scanned(hit, s, out, p)
      decreases m - p
    {
      var q := Strchr(buf, p, m);
      assert buf[p..q] == s[p..q];
      if q == m {
        assert s[p..m] == s[p..];
        ScanStop(hit, s, out, p);
        return;
      }
      ScanStep(hit, s, out, p, q);
      var line := PutLine(re, buf, p, q);
      out := out + line;
      p := q + 1;
    }
  }

  // ---------------------------------------------------------------- grep()

  /** The bytes a read() returns: at least one if there are any and there is room, else none. */
  function ReadSize(want: nat, left: nat, room: nat): (n: nat)
    ensures n <= left && n <= room && (n == 0 <==> left == 0 || room == 0)
  {
    var most := if left < room then left else room;
    if most == 0 then 0 else if want == 0 then 1 else if want < most then want else most
  }

  /** read(fd, buf + m, n) */
  method Read(buf: array<char>, m: nat, chunk: string)
    requires m + |chunk| < buf.Length
    modifies buf
    ensures buf[..m + |chunk|] == old(buf[..m]) + chunk && buf[m + |chunk|] == '\0'
  {
    var i := 0;
    while i < |chunk|
      invariant 0 <= i <= |chunk| && buf[..m] == old(buf[..m]) && buf[m..m + i] == chunk[..i]
    {
      buf[m + i] := chunk[i];
      i := i + 1;
    }
    buf[m + |chunk|] := '\0';
    assert buf[..m + |chunk|] == buf[..m] + buf[m..m + |chunk|];
  }

  /** memmove(buf, buf + p, n) */
  method Shift(buf: array<char>, p: nat, n: nat)
    requires p + n <= buf.Length
    modifies buf
    ensures buf[..n] == old(buf[p..p + n])
  {
    var i := 0;
    while i < n
      invariant 0 <= i <= n && buf[..i] == old(buf[p..p + i])
      invariant forall k :: p + i <= k < buf.Length ==> buf[k] == old(buf[k])
    {
      buf[i] := buf[p + i];
      i := i + 1;
    }
  }

  /** After the text `read`: its complete lines are dealt with, the rest is in the buffer. */
  ghost predicate Caught(hit: string -> bool, read: string, out: string, held: string) {
    out == Output(hit, Lines("", read)) && held == Last("", read) && Short(Lines("", read))
  }

  lemma CaughtMore(hit: string -> bool, read: string, out: string, held: string, chunk: string)
    requires Caught(hit, read, out, held) && |held| + |chunk| < BUFSIZE
    ensures Caught(hit, read + chunk, out + Output(hit, Lines("", held + chunk)), Last("", held + chunk))
  {
    LastOneLine("", read);
    NoNewline("", held);
    assert "" + held == held;
    LinesCat("", read, chunk);
    LastCat("", read, chunk);
    LinesCat("", held, chunk);
    LastCat("", held, chunk);
    assert [] + Lines(held, chunk) == Lines(held, chunk);
    OutputCat(hit, Lines("", read), Lines(held, chunk));
    LineLengths(held, chunk);
    ShortCat(Lines("", read), Lines(held, chunk));
  }

  lemma ShortCat(a: seq<string>, b: seq<string>)
    requires Short(a) && Short(b)
    ensures Short(a + b)
  {
  }

  lemma CaughtAll(hit: string -> bool, read: string, out: string, held: string, left: string)
    requires Caught(hit, read, out, held) && (left == "" || |held| + 1 >= BUFSIZE)
    ensures out == Output(hit, Fitting(Lines("", read + left)))
  {
    LinesCat("", read, left);
    if left != "" { NoMoreLines(held, left); }
    FittingCat(Lines("", read), Lines(held, left));
    assert Lines("", read) + [] == Lines("", read);
  }

  /** The current line consists of characters that were read. */
  lemma {:induction false} LastChars(cur: string, s: string)
    requires (forall i :: 0 <= i < |s| ==> s[i] != '\0') && (forall i :: 0 <= i < |cur| ==> cur[i] != '\0')
    ensures forall i :: 0 <= i < |Last(cur, s)| ==> Last(cur, s)[i] != '\0'
    decreases |s|
  {
    if s != "" {
      if s[0] == '\n' { LastChars("", s[1..]); } else { LastChars(cur + [s[0]], s[1..]); }
    }
  }

  ghost predicate CaughtTo(hit: string -> bool, input: string, pos: nat, out: string, held: string)
    requires pos <= |input|
  {
    Caught(hit, input[..pos], out, held)
  }

  lemma CaughtStart(hit: string -> bool, input: string)
    ensures CaughtTo(hit, input, 0, "", "")
  {
    assert input[..0] == "";
  }

  lemma CaughtNext(hit: string -> bool, input: string, pos: nat, n: nat, out: string, held: string)
    requires pos + n <= |input| && CaughtTo(hit, input, pos, out, held) && |held| + n < BUFSIZE
    ensures var text := held + input[pos..pos + n];
            CaughtTo(hit, input, pos + n, out + Output(hit, Lines("", text)), Last("", text))
  {
    assert input[..pos] + input[pos..pos + n] == input[..pos + n];
    CaughtMore(hit, input[..pos], out, held, input[pos..pos + n]);
  }

  lemma CaughtFit(hit: string -> bool, input: string, pos: nat, out: string, held: string)
    requires pos <= |input| && CaughtTo(hit, input, pos, out, held)
    requires pos == |input| || |held| + 1 >= BUFSIZE
    ensures out == Output(hit, Fitting(Lines("", input)))
  {
    assert input[..pos] + input[pos..] == input;
    CaughtAll(hit, input[..pos], out, held, input[pos..]);
  }

  lemma CaughtEnd(hit: string -> bool, input: string, pos: nat, out: string, held: string, ls: seq<string>)
    requires pos <= |input| && CaughtTo(hit, input, pos, out, held) && ls == Lines("", input)
    requires pos == |input| || |held| + 1 >= BUFSIZE
    ensures out == Output(hit, Fitting(ls)) && (out == Output(hit, ls) <==> NoHit(hit, ls, |Fitting(ls)|))
  {
    CaughtFit(hit, input, pos, out, held);
    LostExactly(hit, ls);
  }

  lemma NoNulNext(input: string, pos: nat, n: nat, held: string)
    requires pos + n <= |input| && NoNul(input) && NoNul(held)
    ensures NoNul(held + input[pos..pos + n])
  {
  }

  /** One turn of the outer loop: n is the new m. */
  method Turn(re: string, buf: array<char>, m: nat, chunk: string) returns (n: nat, out: string)
    requires m + |chunk| < buf.Length && NoNul(buf[..m] + chunk)
    modifies buf
    ensures n <= m + |chunk| && out == Output(Finder(re), Lines("", old(buf[..m]) + chunk))
    ensures buf[..n] == Last("", old(buf[..m]) + chunk) && NoNul(buf[..n])
  {
    ghost var text := buf[..m] + chunk;
    Read(buf, m, chunk);
    assert forall i :: 0 <= i < m + |chunk| ==> buf[i] == text[i];
    var p;
    p, out := Scan(re, buf, m + |chunk|);
    n := m + |chunk| - p;
    LastChars("", text);
    Shift(buf, p, n);
  }

  /** GREP.  On input without NULs the output is exactly the lines the pattern occurs in before the
      first one that does not fit in the buffer, whatever sizes the reads return.  So all lines the
      pattern occurs in are written exactly if it occurs in none from that line on; for all
      patterns, exactly if every line with its newline has at most 1023 bytes (LosesNothing). */
  method Grep(re: string, input: string, wants: seq<nat>) returns (out: string)
    requires NoNul(input)
    ensures out == Output(Finder(re), Fitting(Lines("", input)))
    ensures out == Output(Finder(re), Lines("", input)) <==>
            NoHit(Finder(re), Lines("", input), |Fitting(Lines("", input))|)
  {
    var buf := new char[BUFSIZE](i => '\0');
    var m: nat, pos: nat, turn: nat := 0, 0, 0;
    out := "";
    ghost var hit := Finder(re);
    assert buf[..0] == "";
    CaughtStart(hit, input);
    while true
      invariant m < BUFSIZE && pos <= |input| && NoNul(buf[..m]) && CaughtTo(hit, input, pos, out, buf[..m])
      decreases |input| - pos
    {
      var n := ReadSize(if turn < |wants| then wants[turn] else 1, |input| - pos, BUFSIZE - m - 1);
      if n == 0 {
        CaughtEnd(hit, input, pos, out, buf[..m], Lines("", input));
        return;
      }
      turn := turn + 1;
      var chunk := input[pos..pos + n];
      CaughtNext(hit, input, pos, n, out, buf[..m]);
      NoNulNext(input, pos, n, buf[..m]);
      var more;
      m, more := Turn(re, buf, m, chunk);
      out := out + more;
      pos := pos + n;
    }
  }
}
