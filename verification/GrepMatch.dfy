/** The matcher of user/grep.c, and what a pattern means independently of how it is matched. */
module GrepMatch {

  // ---------------------------------------------------------------- the meaning of a pattern

  /** One character, '.' for any, repeated or not. */
  datatype Item = Item(c: char, star: bool)

  /** The items of a pattern after ^, and whether it ends in $. */
  datatype Pattern = Pattern(items: seq<Item>, atEnd: bool)

  function Cons(x: Item, p: Pattern): Pattern { Pattern([x] + p.items, p.atEnd) }

  /** A star after a character repeats it; $ is special only as the last character. */
  function Parse(re: string): Pattern {
    if re == "" then Pattern([], false)
    else if |re| > 1 && re[1] == '*' then Cons(Item(re[0], true), Parse(re[2..]))
    else if re == "$" then Pattern([], true)
    else Cons(Item(re[0], false), Parse(re[1..]))
  }

  predicate Fits(c: char, x: char) { c == '.' || c == x }

  predicate AllFit(c: char, t: string) { forall i :: 0 <= i < |t| ==> Fits(c, t[i]) }

  /** The texts that a sequence of items describes. */
  ghost predicate Describes(items: seq<Item>, t: string)
    decreases |items|, 1
  {
    if items == [] then t == ""
    else if items[0].star then exists k: nat :: Splits(items, t, k)
    else t != "" && Fits(items[0].c, t[0]) && Describes(items[1..], t[1..])
  }

  /** The first k characters are repetitions of the first item, the rest is described by the others. */
  ghost predicate Splits(items: seq<Item>, t: string, k: nat)
    requires items != []
    decreases |items|, 0
  {
    k <= |t| && AllFit(items[0].c, t[..k]) && Describes(items[1..], t[k..])
  }

  /** Some prefix of the text, the whole text if the pattern ends in $, is described by it. */
  ghost predicate Prefixed(p: Pattern, t: string, n: nat) {
    n <= |t| && Describes(p.items, t[..n]) && (p.atEnd ==> n == |t|)
  }

  ghost predicate Here(p: Pattern, t: string) { exists n: nat :: Prefixed(p, t, n) }

  /** The pattern occurs in the text: at its start if it begins with ^, else anywhere. */
  ghost predicate Occurs(re: string, t: string) {
    if re != "" && re[0] == '^' then Here(Parse(re[1..]), t)
    else exists k: nat :: k <= |t| && Here(Parse(re), t[k..])
  }

  // ---------------------------------------------------------------- the matcher

  function MatchHere(re: string, t: string): bool
    decreases |re|, |t|, 1
  {
    if re == "" then true
    else if |re| > 1 && re[1] == '*' then MatchStar(re[0], re[2..], t)
    else if re == "$" then t == ""
    else t != "" && Fits(re[0], t[0]) && MatchHere(re[1..], t[1..])
  }

  function MatchStar(c: char, re: string, t: string): bool
    decreases |re| + 1, |t|, 0
  {
    MatchHere(re, t) || (t != "" && Fits(c, t[0]) && MatchStar(c, re, t[1..]))
  }

  // ---------------------------------------------------------------- soundness and completeness

  lemma HereCons(x: Item, p: Pattern, t: string)
    requires !x.star
    ensures Here(Cons(x, p), t) <==> t != "" && Fits(x.c, t[0]) && Here(p, t[1..])
  {
    var q := Cons(x, p);
    assert q.items[1..] == p.items;
    if Here(q, t) {
      var n: nat :| Prefixed(q, t, n);
      assert t[..n][1..] == t[1..][..n - 1];
      assert Prefixed(p, t[1..], n - 1);
    }
    if t != "" && Fits(x.c, t[0]) && Here(p, t[1..]) {
      var n: nat :| Prefixed(p, t[1..], n);
      assert t[..n + 1][1..] == t[1..][..n];
      assert Prefixed(q, t, n + 1);
    }
  }

  /** A starred item first: k repetitions and then the rest of the pattern. */
  lemma HereStar(c: char, p: Pattern, t: string)
    ensures Here(Cons(Item(c, true), p), t) <==> Repeated(c, p, t)
  {
    var q := Cons(Item(c, true), p);
    assert q.items[1..] == p.items;
    if Here(q, t) {
      var n: nat :| Prefixed(q, t, n);
      assert q.items[0].star && Describes(q.items, t[..n]);
      var k: nat :| Splits(q.items, t[..n], k);
      assert t[..n][..k] == t[..k] && t[..n][k..] == t[k..][..n - k];
      assert Prefixed(p, t[k..], n - k);
      assert Repeats(c, p, t, k);
    }
    if k: nat :| Repeats(c, p, t, k) {
      var n: nat :| Prefixed(p, t[k..], n);
      assert t[..k + n][..k] == t[..k] && t[..k + n][k..] == t[k..][..n];
      assert Splits(q.items, t[..k + n], k);
      assert Prefixed(q, t, k + n);
    }
  }

  ghost predicate Repeats(c: char, p: Pattern, t: string, k: nat) {
    k <= |t| && AllFit(c, t[..k]) && Here(p, t[k..])
  }

  ghost predicate Repeated(c: char, p: Pattern, t: string) { exists k: nat :: Repeats(c, p, t, k) }

  /** No repetition, or one and then more. */
  lemma RepeatsStep(c: char, p: Pattern, t: string)
    ensures Repeated(c, p, t) <==> Here(p, t) || (t != "" && Fits(c, t[0]) && Repeated(c, p, t[1..]))
  {
    assert t[0..] == t;
    if k: nat :| Repeats(c, p, t, k) {
      if k > 0 {
        assert t[..k][0] == t[0];
        assert t[1..][..k - 1] == t[..k][1..] && t[1..][k - 1..] == t[k..];
        assert Repeats(c, p, t[1..], k - 1);
      }
    }
    if Here(p, t) { assert Repeats(c, p, t, 0); }
    if t != "" && Fits(c, t[0]) && Repeated(c, p, t[1..]) {
      var k: nat :| Repeats(c, p, t[1..], k);
      assert t[..k + 1] == [t[0]] + t[1..][..k] && t[k + 1..] == t[1..][k..];
      assert Repeats(c, p, t, k + 1);
    }
  }

  lemma HereEnd(t: string)
    ensures Here(Pattern([], true), t) <==> t == ""
    ensures Here(Pattern([], false), t)
  {
    assert t[..0] == "";
    assert Prefixed(Pattern([], false), t, 0);
    if t == "" { assert Prefixed(Pattern([], true), t, 0); }
  }

  /** SOUND AND COMPLETE.  matchhere() finds a match exactly if there is one. */
  lemma {:induction false} MatchHereIff(re: string, t: string)
    ensures MatchHere(re, t) <==> Here(Parse(re), t)
    decreases |re|, |t|, 1
  {
    HereEnd(t);
    if re != "" {
      if |re| > 1 && re[1] == '*' {
        var p := Parse(re[2..]);
        MatchStarIff(re[0], re[2..], t);
        HereStar(re[0], p, t);
        assert MatchStar(re[0], re[2..], t) <==> Repeated(re[0], p, t);
        assert Parse(re) == Cons(Item(re[0], true), p);
      } else if re == "$" {
        assert Parse(re) == Pattern([], true);
      } else {
        HereCons(Item(re[0], false), Parse(re[1..]), t);
        if t != "" { MatchHereIff(re[1..], t[1..]); }
      }
    }
  }

  lemma {:induction false} MatchStarIff(c: char, re: string, t: string)
    ensures MatchStar(c, re, t) <==> Repeated(c, Parse(re), t)
    decreases |re| + 1, |t|, 0
  {
    MatchHereIff(re, t);
    RepeatsStep(c, Parse(re), t);
    if t != "" { MatchStarIff(c, re, t[1..]); }
  }

  // ---------------------------------------------------------------- the loops

  /** matchhere() */
  method Matchhere(re: string, t: string) returns (r: bool)
    ensures r == MatchHere(re, t)
    decreases |re|, |t|, 1
  {
    if re == "" {
      return true;
    }
    if |re| > 1 && re[1] == '*' {
      r := Matchstar(re[0], re[2..], t);
      return;
    }
    if re == "$" {
      return t == "";
    }
    if t != "" && (re[0] == '.' || re[0] == t[0]) {
      r := Matchhere(re[1..], t[1..]);
      return;
    }
    return false;
  }

  /** matchstar(): tries every number of repetitions, the smallest first. */
  method Matchstar(c: char, re: string, text: string) returns (r: bool)
    ensures r == MatchStar(c, re, text)
    decreases |re| + 1, |text|, 0
  {
    var t := text;
    while true
      invariant |t| <= |text| && MatchStar(c, re, t) == MatchStar(c, re, text)
      decreases |t|
    {
      var here := Matchhere(re, t);
      if here {
        return true;
      }
      if !(t != "" && (t[0] == c || c == '.')) {
        return false;
      }
      t := t[1..];
    }
  }

  /** match(): at the start for ^, else at every position including the end. */
  method Match(re: string, text: string) returns (r: bool)
    ensures r <==> Occurs(re, text)
  {
    if re != "" && re[0] == '^' {
      MatchHereIff(re[1..], text);
      r := Matchhere(re[1..], text);
      return;
    }
    var i := 0;
    while i <= |text|
      invariant 0 <= i <= |text| + 1 && forall k: nat :: k < i ==> !Here(Parse(re), text[k..])
    {
      MatchHereIff(re, text[i..]);
      var here := Matchhere(re, text[i..]);
      if here {
        return true;
      }
      i := i + 1;
    }
    return false;
  }
}
