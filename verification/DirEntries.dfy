/** Directory entries: 14-byte names and the finite map a directory stands for. */
module DirEntries {
  import opened Prelude

  const DIRSIZ: nat := 14

  type Name = s: string | |s| == DIRSIZ witness seq(DIRSIZ, i => '\0')
  datatype Ent = Ent(inum: nat, name: Name)

  /** The part of a name that directories distinguish. */
  function Cut(s: string): string { if |s| <= DIRSIZ then s else s[..DIRSIZ] }

  function Char(s: string, i: nat): char { if i < |s| then s[i] else '\0' }

  /** strncpy(de.name, s, DIRSIZ): cut or padded with NULs. */
  function Pad(s: string): Name {
    seq(DIRSIZ, i requires 0 <= i < DIRSIZ => Char(s, i))
  }

  /** strncmp(s, t, n) == 0 from position i on. */
  predicate Same(s: string, t: string, i: nat, n: nat)
    requires i <= n
    decreases n - i
  {
    i == n || (Char(s, i) == Char(t, i) && (Char(s, i) == '\0' || Same(s, t, i + 1, n)))
  }

  predicate Namecmp(s: string, t: string) { Same(s, t, 0, DIRSIZ) }

  lemma {:induction false} SameIff(s: string, t: string, i: nat)
    requires NoNul(s) && NoNul(t) && i <= DIRSIZ && i <= |s| && i <= |t|
    ensures Same(s, Pad(t), i, DIRSIZ) <==> Cut(s)[i..] == Cut(t)[i..]
    decreases DIRSIZ - i
  {
    if i < DIRSIZ {
      if i < |s| && i < |t| {
        SameIff(s, t, i + 1);
        assert Cut(s)[i..] == [s[i]] + Cut(s)[i + 1..];
        assert Cut(t)[i..] == [t[i]] + Cut(t)[i + 1..];
      } else if i < |s| {
        assert Cut(s)[i..][0] == s[i];
      } else if i < |t| {
        assert Cut(t)[i..][0] == t[i];
      }
    }
  }

  /** namecmp() against a stored name compares the cut names. */
  lemma NamecmpIff(s: string, t: string)
    requires NoNul(s) && NoNul(t)
    ensures Namecmp(s, Pad(t)) <==> Cut(s) == Cut(t)
  {
    SameIff(s, t, 0);
  }

  // ---------------------------------------------------------------- a directory as a map

  /** The stored name was written by dirlink(). */
  ghost predicate Stored(e: Ent, s: string) { NoNul(s) && e.name == Pad(s) }

  /** Entry k is in use and matches s. */
  predicate Matches(e: Ent, s: string) { e.inum != 0 && Namecmp(s, e.name) }

  /** Every entry in use has a proper name, and no two have the same. */
  ghost predicate ProperEnt(e: Ent) { e.inum != 0 ==> exists s :: Stored(e, s) }

  ghost predicate Proper(ents: seq<Ent>) {
    && (forall k: nat {:trigger ProperEnt(ents[k])} :: k < |ents| ==> ProperEnt(ents[k]))
    && (forall j, k :: 0 <= j < k < |ents| && ents[j].inum != 0 && ents[k].inum != 0 ==> ents[j].name != ents[k].name)
  }

  lemma MatchesStored(e: Ent, s: string)
    requires ProperEnt(e) && NoNul(s)
    ensures Matches(e, s) <==> e.inum != 0 && e.name == Pad(s)
  {
    if e.inum != 0 {
      var t :| Stored(e, t);
      NamecmpIff(s, t);
      PadCut(s, t);
    }
  }

  /** Stored names are equal exactly if the cut names are. */
  lemma PadCut(s: string, t: string)
    requires NoNul(s) && NoNul(t)
    ensures Pad(s) == Pad(t) <==> Cut(s) == Cut(t)
  {
    if Pad(s) == Pad(t) { PadInjective(s, t); }
    if Cut(s) == Cut(t) {
      forall i | 0 <= i < DIRSIZ ensures Pad(s)[i] == Pad(t)[i] {
        if i < |Cut(s)| { assert s[i] == Cut(s)[i] && t[i] == Cut(t)[i]; }
      }
    }
  }

  lemma PadAt(s: string, i: nat)
    requires NoNul(s) && i < DIRSIZ
    ensures Pad(s)[i] == '\0' <==> i >= |Cut(s)|
  {
  }

  lemma PadInjective(s: string, t: string)
    requires NoNul(s) && NoNul(t) && Pad(s) == Pad(t)
    ensures Cut(s) == Cut(t)
  {
    var a, b := |Cut(s)|, |Cut(t)|;
    if a < DIRSIZ { PadAt(s, a); PadAt(t, a); }
    if b < DIRSIZ { PadAt(s, b); PadAt(t, b); }
    forall i | 0 <= i < a ensures Cut(s)[i] == Cut(t)[i] { assert Pad(s)[i] == s[i] && Pad(t)[i] == t[i]; }
  }

  /** What the directory maps name s to; by the cut name only. */
  function Find(ents: seq<Ent>, s: string): (r: Option<nat>)
    ensures r.Some? ==> r.value < |ents| && Matches(ents[r.value], s)
    ensures r.None? ==> forall k :: 0 <= k < |ents| ==> !Matches(ents[k], s)
  {
    if ents == [] then None
    else
      var r := Find(ents[..|ents| - 1], s);
      if r.Some? then r else if Matches(ents[|ents| - 1], s) then Some(|ents| - 1) else None
  }

  function Inum(ents: seq<Ent>, s: string): nat {
    match Find(ents, s)
    case None => 0
    case Some(k) => ents[k].inum
  }

  /** With distinct names it does not matter which matching entry is found. */
  lemma FindIs(ents: seq<Ent>, s: string, k: nat)
    requires Proper(ents) && NoNul(s) && k < |ents| && Matches(ents[k], s)
    ensures Find(ents, s) == Some(k)
  {
    assert Find(ents, s).Some?;
    var j := Find(ents, s).value;
    assert ProperEnt(ents[j]) && ProperEnt(ents[k]);
    MatchesStored(ents[j], s);
    MatchesStored(ents[k], s);
  }

  // ---------------------------------------------------------------- changing one entry

  /** dirlink() into slot k, free or just past the end. */
  function Linked(ents: seq<Ent>, k: nat, s: string, inum: nat): seq<Ent>
    requires k <= |ents|
  {
    if k < |ents| then ents[k := Ent(inum, Pad(s))] else ents + [Ent(inum, Pad(s))]
  }

  lemma LinkedProper(ents: seq<Ent>, k: nat, s: string, inum: nat)
    requires Proper(ents) && NoNul(s) && inum != 0 && Find(ents, s) == None
    requires k == |ents| || (k < |ents| && ents[k].inum == 0)
    ensures Proper(Linked(ents, k, s, inum))
  {
    var r := Linked(ents, k, s, inum);
    assert Stored(r[k], s);
    forall j: nat | j < |r| ensures ProperEnt(r[j]) && (j != k && r[j].inum != 0 ==> r[j].name != r[k].name) {
      if j != k {
        assert ProperEnt(ents[j]);
        MatchesStored(ents[j], s);
      }
    }
  }

  /** dirlink() adds exactly one binding to the map. */
  lemma LinkedMap(ents: seq<Ent>, k: nat, s: string, inum: nat, t: string)
    requires Proper(ents) && NoNul(s) && NoNul(t) && inum != 0 && Find(ents, s) == None
    requires k == |ents| || (k < |ents| && ents[k].inum == 0)
    ensures Inum(Linked(ents, k, s, inum), t) == if Cut(t) == Cut(s) then inum else Inum(ents, t)
  {
    var r := Linked(ents, k, s, inum);
    LinkedProper(ents, k, s, inum);
    NamecmpIff(t, s);
    if Cut(t) == Cut(s) {
      FindIs(r, t, k);
    } else {
      SameMap(ents, r, k, t);
    }
  }

  /** unlink() clears slot k: exactly that binding goes. */
  lemma ClearedMap(ents: seq<Ent>, k: nat, s: string, t: string)
    requires Proper(ents) && NoNul(s) && NoNul(t) && k < |ents| && Matches(ents[k], s)
    ensures Proper(ents[k := Ent(0, Pad(""))]) &&
            Inum(ents[k := Ent(0, Pad(""))], t) == if Cut(t) == Cut(s) then 0 else Inum(ents, t)
  {
    var r := ents[k := Ent(0, Pad(""))];
    forall j: nat | j < |r| ensures ProperEnt(r[j]) { if j != k { assert ProperEnt(ents[j]); } }
    assert ProperEnt(ents[k]);
    MatchesStored(ents[k], s);
    if Cut(t) == Cut(s) {
      PadCut(s, t);
      forall j: nat | j < |r| ensures !Matches(r[j], t) {
        assert ProperEnt(r[j]);
        MatchesStored(r[j], t);
      }
    } else {
      PadCut(s, t);
      MatchesStored(ents[k], t);
      SameMap(ents, r, k, t);
    }
  }

  /** A change of slot k that t does not match before or after. */
  lemma SameMap(ents: seq<Ent>, r: seq<Ent>, k: nat, t: string)
    requires Proper(ents) && Proper(r) && NoNul(t) && |ents| <= |r| <= |ents| + 1 && (|r| > |ents| ==> k == |ents|)
    requires forall j :: 0 <= j < |ents| && j != k ==> r[j] == ents[j]
    requires k < |ents| ==> !Matches(ents[k], t)
    requires k < |r| ==> !Matches(r[k], t)
    ensures Inum(r, t) == Inum(ents, t)
  {
    if Find(ents, t).Some? { FindIs(r, t, Find(ents, t).value); }
  }
}
