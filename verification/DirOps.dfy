/** What link(), create() and unlink() do to the tree and to the link counts. */
module DirOps {
  import opened Prelude
  import opened DirEntries
  import opened DirTree

  /** Slot k of directory dp is free for a new entry. */
  predicate Vacant(ents: seq<Ent>, k: nat) { k == |ents| || (k < |ents| && ents[k].inum == 0) }

  predicate Plain(kind: Kind) { kind == File || kind == Device }

  lemma CountLinked(ents: seq<Ent>, k: nat, s: string, inum: nat, i: nat)
    requires Vacant(ents, k) && i != 0
    ensures CountIn(Linked(ents, k, s, inum), i) == CountIn(ents, i) + One(inum == i && Pad(s) != Pad("."))
  {
    if k < |ents| { CountUpdate(ents, k, Ent(inum, Pad(s)), i); } else { CountSnoc(ents, Ent(inum, Pad(s)), i); }
  }

  /** dp gets entry (s, ip) in slot k and m more links; ip becomes `n`. */
  function Entered(nodes: seq<Node>, ip: nat, n: Node, dp: nat, k: nat, s: string, m: int): seq<Node>
    requires ip < |nodes| && dp < |nodes| && k <= |nodes[dp].ents|
  {
    nodes[ip := n][dp := Node(nodes[dp].kind, nodes[dp].nlink + m, Linked(nodes[dp].ents, k, s, ip))]
  }

  /** What a new entry needs: a linked directory, a name it does not have, a vacant slot. */
  ghost predicate CanEnter(nodes: seq<Node>, at: map<nat, Place>, ip: nat, dp: nat, k: nat, s: string) {
    && Inv(nodes, at) && 1 <= ip < |nodes| && dp < |nodes| && ip != dp && Live(nodes[dp])
    && NoNul(s) && Find(nodes[dp].ents, s) == None && Vacant(nodes[dp].ents, k)
  }

  /** Every linked directory has "." and "..", so a name it does not have is neither. */
  lemma FreshName(nodes: seq<Node>, at: map<nat, Place>, ip: nat, dp: nat, k: nat, s: string)
    requires CanEnter(nodes, at, ip, dp, k, s)
    ensures Pad(s) != Pad(".") && k >= 2 && dp != 0 && DirOk(dp, nodes[dp].ents, |nodes|)
  {
    assert NodeOk(dp, nodes, at);
    var e := nodes[dp].ents[0];
    assert ProperEnt(e);
    MatchesStored(e, s);
  }

  lemma EnteredDir(nodes: seq<Node>, at: map<nat, Place>, ip: nat, dp: nat, k: nat, s: string)
    requires CanEnter(nodes, at, ip, dp, k, s)
    ensures DirOk(dp, Linked(nodes[dp].ents, k, s, ip), |nodes|)
  {
    FreshName(nodes, at, ip, dp, k, s);
    LinkedProper(nodes[dp].ents, k, s, ip);
  }

  // ---------------------------------------------------------------- link() and create() of a file

  /** ip has one link more than before: an old file, or a new one that was free. */
  ghost predicate OneMore(before: Node, n: Node) {
    && Plain(n.kind) && n.nlink == before.nlink + 1 && (before.kind == Free || before.kind == n.kind)
  }

  lemma FileCounts(nodes: seq<Node>, at: map<nat, Place>, ip: nat, n: Node, dp: nat, k: nat, s: string, i: nat)
    requires CanEnter(nodes, at, ip, dp, k, s) && OneMore(nodes[ip], n) && 1 <= i < |nodes|
    ensures var r := Entered(nodes, ip, n, dp, k, s, 0); r[i].nlink == Total(r, i)
  {
    FreshName(nodes, at, ip, dp, k, s);
    var mid := nodes[ip := n];
    TotalUpdate(nodes, ip, n, i);
    TotalUpdate(mid, dp, Node(nodes[dp].kind, nodes[dp].nlink, Linked(nodes[dp].ents, k, s, ip)), i);
    CountLinked(nodes[dp].ents, k, s, ip, i);
    assert nodes[i].nlink == Total(nodes, i);
  }

  lemma FileSlots(nodes: seq<Node>, at: map<nat, Place>, ip: nat, n: Node, dp: nat, k: nat, s: string, d: nat)
    requires CanEnter(nodes, at, ip, dp, k, s) && OneMore(nodes[ip], n) && d < |nodes| && Live(nodes[d])
    ensures var r := Entered(nodes, ip, n, dp, k, s, 0); SlotsOk(d, r, at) && HangsOk(d, r, at)
  {
    var r := Entered(nodes, ip, n, dp, k, s, 0);
    assert NodeOk(d, nodes, at);
    forall j: nat | 2 <= j < |r[d].ents| ensures SlotOk(d, j, r, at) {
      if !(d == dp && j == k) { assert SlotOk(d, j, nodes, at); }
    }
  }

  /** LINK and CREATE of a file keep the tree and the counts. */
  lemma FileOk(nodes: seq<Node>, at: map<nat, Place>, ip: nat, n: Node, dp: nat, k: nat, s: string)
    requires CanEnter(nodes, at, ip, dp, k, s) && OneMore(nodes[ip], n)
    ensures Inv(Entered(nodes, ip, n, dp, k, s, 0), at)
  {
    var r := Entered(nodes, ip, n, dp, k, s, 0);
    assert NodeOk(ip, nodes, at);
    EnteredDir(nodes, at, ip, dp, k, s);
    forall i: nat | 1 <= i < |r| ensures r[i].nlink == Total(r, i) { FileCounts(nodes, at, ip, n, dp, k, s, i); }
    forall d: nat | d < |r| ensures NodeOk(d, r, at) {
      assert NodeOk(d, nodes, at);
      if Live(r[d]) { FileSlots(nodes, at, ip, n, dp, k, s, d); }
    }
  }

  // ---------------------------------------------------------------- create() of a directory

  function NewDir(ip: nat, dp: nat): Node { Node(Dir, 1, [Ent(ip, Pad(".")), Ent(dp, Pad(".."))]) }

  lemma DotsDiffer()
    ensures Pad(".") != Pad("..") && NoNul(".") && NoNul("..") && NoNul("")
  {
    PadCut(".", "..");
  }

  lemma NewDirCount(ip: nat, dp: nat, i: nat)
    ensures CountIn(NewDir(ip, dp).ents, i) == One(i == dp)
  {
    DotsDiffer();
    CountSnoc([], Ent(ip, Pad(".")), i);
    CountSnoc([Ent(ip, Pad("."))], Ent(dp, Pad("..")), i);
    assert [] + [Ent(ip, Pad("."))] == [Ent(ip, Pad("."))];
    assert NewDir(ip, dp).ents == [Ent(ip, Pad("."))] + [Ent(dp, Pad(".."))];
  }

  lemma DirCounts(nodes: seq<Node>, at: map<nat, Place>, ip: nat, dp: nat, k: nat, s: string, i: nat)
    requires CanEnter(nodes, at, ip, dp, k, s) && nodes[ip].kind == Free && 1 <= i < |nodes|
    ensures var r := Entered(nodes, ip, NewDir(ip, dp), dp, k, s, 1); r[i].nlink == Total(r, i)
  {
    FreshName(nodes, at, ip, dp, k, s);
    var mid := nodes[ip := NewDir(ip, dp)];
    assert NodeOk(ip, nodes, at);
    NewDirCount(ip, dp, i);
    TotalUpdate(nodes, ip, NewDir(ip, dp), i);
    TotalUpdate(mid, dp, Node(nodes[dp].kind, nodes[dp].nlink + 1, Linked(nodes[dp].ents, k, s, ip)), i);
    CountLinked(nodes[dp].ents, k, s, ip, i);
    assert nodes[i].nlink == Total(nodes, i);
  }

  lemma NewDirOk(ip: nat, dp: nat, size: nat)
    requires ip != 0 && dp != 0 && ip < size && dp < size
    ensures DirOk(ip, NewDir(ip, dp).ents, size)
  {
    DotsDiffer();
    var e := NewDir(ip, dp).ents;
    assert Stored(e[0], ".") && Stored(e[1], "..");
  }

  lemma DirSlots(nodes: seq<Node>, at: map<nat, Place>, ip: nat, dp: nat, k: nat, s: string, d: nat)
    requires CanEnter(nodes, at, ip, dp, k, s) && nodes[ip].kind == Free && d < |nodes| && d != ip && Live(nodes[d])
    ensures var r := Entered(nodes, ip, NewDir(ip, dp), dp, k, s, 1);
            SlotsOk(d, r, at[ip := Place(dp, k)]) && HangsOk(d, r, at[ip := Place(dp, k)])
  {
    var r, at' := Entered(nodes, ip, NewDir(ip, dp), dp, k, s, 1), at[ip := Place(dp, k)];
    assert NodeOk(d, nodes, at);
    assert NodeOk(ip, nodes, at) && NodeOk(ROOT, nodes, at);
    forall j: nat | 2 <= j < |r[d].ents| ensures SlotOk(d, j, r, at') {
      if !(d == dp && j == k) { assert SlotOk(d, j, nodes, at); }
    }
  }

  /** CREATE of a directory keeps the tree and the counts. */
  lemma DirCreated(nodes: seq<Node>, at: map<nat, Place>, ip: nat, dp: nat, k: nat, s: string)
    requires CanEnter(nodes, at, ip, dp, k, s) && nodes[ip].kind == Free
    ensures Inv(Entered(nodes, ip, NewDir(ip, dp), dp, k, s, 1), at[ip := Place(dp, k)])
  {
    var r, at' := Entered(nodes, ip, NewDir(ip, dp), dp, k, s, 1), at[ip := Place(dp, k)];
    FreshName(nodes, at, ip, dp, k, s);
    EnteredDir(nodes, at, ip, dp, k, s);
    NewDirOk(ip, dp, |nodes|);
    forall i: nat | 1 <= i < |r| ensures r[i].nlink == Total(r, i) { DirCounts(nodes, at, ip, dp, k, s, i); }
    forall d: nat | d < |r| ensures NodeOk(d, r, at') {
      assert NodeOk(d, nodes, at);
      if d != ip && Live(nodes[d]) { DirSlots(nodes, at, ip, dp, k, s, d); }
    }
  }

  // ---------------------------------------------------------------- unlink()

  function Blank(): Ent { Ent(0, Pad("")) }

  /** dp loses slot k and m links; ip loses one link. */
  function Removed(nodes: seq<Node>, ip: nat, dp: nat, k: nat, m: int): seq<Node>
    requires ip < |nodes| && dp < |nodes| && k < |nodes[dp].ents|
  {
    nodes[dp := Node(nodes[dp].kind, nodes[dp].nlink - m, nodes[dp].ents[k := Blank()])]
         [ip := Node(nodes[ip].kind, nodes[ip].nlink - 1, nodes[ip].ents)]
  }

  /** Slot k of the linked directory dp, called s, which is neither "." nor "..", names ip. */
  ghost predicate Named(nodes: seq<Node>, at: map<nat, Place>, ip: nat, dp: nat, k: nat, s: string) {
    && Inv(nodes, at) && ip < |nodes| && dp < |nodes| && Live(nodes[dp]) && NoNul(s) && Pad(s) != Pad(".") &&
       Pad(s) != Pad("..")
    && k < |nodes[dp].ents| && Matches(nodes[dp].ents[k], s) && nodes[dp].ents[k].inum == ip
  }

  lemma NamedFacts(nodes: seq<Node>, at: map<nat, Place>, ip: nat, dp: nat, k: nat, s: string)
    requires Named(nodes, at, ip, dp, k, s)
    ensures k >= 2 && dp != 0 && 1 <= ip < |nodes| && nodes[ip].kind != Free && nodes[dp].ents[k].name == Pad(s)
    ensures nodes[ip].nlink >= 1 && DirOk(dp, nodes[dp].ents[k := Blank()], |nodes|)
    ensures nodes[ip].kind == Dir ==> ip != ROOT && ip in at && at[ip] == Place(dp, k) && Live(nodes[ip])
  {
    assert NodeOk(dp, nodes, at);
    var e := nodes[dp].ents;
    assert ProperEnt(e[k]);
    MatchesStored(e[k], s);
    assert SlotOk(dp, k, nodes, at);
    ClearedMap(e, k, s, "");
    CountUpdate(e, k, Blank(), ip);
    TotalUpdate(nodes, dp, nodes[dp], ip);
    assert nodes[ip].nlink == Total(nodes, ip);
  }

  lemma NotItself(nodes: seq<Node>, at: map<nat, Place>, ip: nat, dp: nat, k: nat, s: string)
    requires Named(nodes, at, ip, dp, k, s)
    ensures ip != dp
  {
    NamedFacts(nodes, at, ip, dp, k, s);
    assert NodeOk(ip, nodes, at);
  }

  /** The "unlink: nlink < 1" panic is unreachable, and removing a file keeps the tree and the counts. */
  lemma FileCountsDown(nodes: seq<Node>, at: map<nat, Place>, ip: nat, dp: nat, k: nat, s: string, i: nat)
    requires Named(nodes, at, ip, dp, k, s) && nodes[ip].kind != Dir && 1 <= i < |nodes|
    ensures var r := Removed(nodes, ip, dp, k, 0); r[i].nlink == Total(r, i)
  {
    NamedFacts(nodes, at, ip, dp, k, s);
    NotItself(nodes, at, ip, dp, k, s);
    var n := Node(nodes[dp].kind, nodes[dp].nlink, nodes[dp].ents[k := Blank()]);
    TotalUpdate(nodes, dp, n, i);
    TotalUpdate(nodes[dp := n], ip, Node(nodes[ip].kind, nodes[ip].nlink - 1, nodes[ip].ents), i);
    CountUpdate(nodes[dp].ents, k, Blank(), i);
    assert nodes[i].nlink == Total(nodes, i);
  }

  lemma FileSlotsDown(nodes: seq<Node>, at: map<nat, Place>, ip: nat, dp: nat, k: nat, s: string, d: nat)
    requires Named(nodes, at, ip, dp, k, s) && nodes[ip].kind != Dir && d < |nodes| && Live(nodes[d])
    ensures var r := Removed(nodes, ip, dp, k, 0); SlotsOk(d, r, at) && HangsOk(d, r, at)
  {
    var r := Removed(nodes, ip, dp, k, 0);
    NamedFacts(nodes, at, ip, dp, k, s);
    assert NodeOk(d, nodes, at);
    forall j: nat | 2 <= j < |r[d].ents| ensures SlotOk(d, j, r, at) {
      if !(d == dp && j == k) { assert SlotOk(d, j, nodes, at); }
    }
  }

  /** UNLINK of a file keeps the tree and the counts. */
  lemma FileRemoved(nodes: seq<Node>, at: map<nat, Place>, ip: nat, dp: nat, k: nat, s: string)
    requires Named(nodes, at, ip, dp, k, s) && nodes[ip].kind != Dir
    ensures Inv(Removed(nodes, ip, dp, k, 0), at)
  {
    var r := Removed(nodes, ip, dp, k, 0);
    NamedFacts(nodes, at, ip, dp, k, s);
    NotItself(nodes, at, ip, dp, k, s);
    forall i: nat | 1 <= i < |r| ensures r[i].nlink == Total(r, i) { FileCountsDown(nodes, at, ip, dp, k, s, i); }
    forall d: nat | d < |r| ensures NodeOk(d, r, at) {
      assert NodeOk(d, nodes, at);
      if Live(r[d]) { FileSlotsDown(nodes, at, ip, dp, k, s, d); }
    }
  }

  /** Only the entry in its parent names an empty directory. */
  lemma OnlyParent(nodes: seq<Node>, at: map<nat, Place>, ip: nat, dp: nat, k: nat, s: string, q: nat)
    requires Named(nodes, at, ip, dp, k, s) && nodes[ip].kind == Dir && IsEmpty(nodes[ip].ents) && q < |nodes| &&
             Live(nodes[q])
    ensures forall j: nat :: j < |nodes[q].ents| && !(q == dp && j == k) ==> !Counted(nodes[q].ents[j], ip)
  {
    NamedFacts(nodes, at, ip, dp, k, s);
    assert NodeOk(q, nodes, at);
    forall j: nat | j < |nodes[q].ents| && !(q == dp && j == k) ensures !Counted(nodes[q].ents[j], ip) {
      if j >= 2 { assert SlotOk(q, j, nodes, at); }
    }
  }

  lemma EmptyDirLinks(nodes: seq<Node>, at: map<nat, Place>, ip: nat, dp: nat, k: nat, s: string)
    requires Named(nodes, at, ip, dp, k, s) && nodes[ip].kind == Dir && IsEmpty(nodes[ip].ents)
    ensures nodes[ip].nlink == 1
  {
    NamedFacts(nodes, at, ip, dp, k, s);
    forall q: nat | q < |nodes| && q != dp ensures Share(nodes[q], ip) == 0 {
      if Live(nodes[q]) {
        OnlyParent(nodes, at, ip, dp, k, s, q);
        CountNone(nodes[q].ents, ip);
      }
    }
    OnlyParent(nodes, at, ip, dp, k, s, dp);
    CountOnly(nodes[dp].ents, k, ip);
    TotalOnly(nodes, dp, ip);
    assert nodes[ip].nlink == Total(nodes, ip);
  }

  /** An empty directory names, apart from itself, only its parent. */
  lemma EmptyDirCount(nodes: seq<Node>, at: map<nat, Place>, ip: nat, dp: nat, k: nat, s: string, i: nat)
    requires Named(nodes, at, ip, dp, k, s) && nodes[ip].kind == Dir && IsEmpty(nodes[ip].ents) && 1 <= i < |nodes|
    ensures CountIn(nodes[ip].ents, i) == One(i == dp)
  {
    NamedFacts(nodes, at, ip, dp, k, s);
    assert NodeOk(ip, nodes, at);
    DotsDiffer();
    var e := nodes[ip].ents;
    if i == dp { CountOnly(e, 1, i); } else { CountNone(e, i); }
  }

  lemma DirCountsDown(nodes: seq<Node>, at: map<nat, Place>, ip: nat, dp: nat, k: nat, s: string, i: nat)
    requires Named(nodes, at, ip, dp, k, s) && nodes[ip].kind == Dir && IsEmpty(nodes[ip].ents) && 1 <= i < |nodes|
    ensures var r := Removed(nodes, ip, dp, k, 1); r[i].nlink == Total(r, i) && Live(r[dp])
  {
    NamedFacts(nodes, at, ip, dp, k, s);
    NotItself(nodes, at, ip, dp, k, s);
    EmptyDirLinks(nodes, at, ip, dp, k, s);
    EmptyDirCount(nodes, at, ip, dp, k, s, i);
    StillLinked(nodes, at, ip, dp, k, s);
    var n := Node(nodes[dp].kind, nodes[dp].nlink - 1, nodes[dp].ents[k := Blank()]);
    TotalUpdate(nodes, dp, n, i);
    TotalUpdate(nodes[dp := n], ip, Node(nodes[ip].kind, nodes[ip].nlink - 1, nodes[ip].ents), i);
    CountUpdate(nodes[dp].ents, k, Blank(), i);
    assert nodes[i].nlink == Total(nodes, i);
  }

  /** The parent keeps a link: it is the root, or hangs in its own parent. */
  lemma StillLinked(nodes: seq<Node>, at: map<nat, Place>, ip: nat, dp: nat, k: nat, s: string)
    requires Named(nodes, at, ip, dp, k, s) && nodes[ip].kind == Dir && IsEmpty(nodes[ip].ents)
    ensures nodes[dp].nlink >= 2
  {
    NamedFacts(nodes, at, ip, dp, k, s);
    NotItself(nodes, at, ip, dp, k, s);
    assert NodeOk(dp, nodes, at) && NodeOk(ip, nodes, at);
    EmptyDirCount(nodes, at, ip, dp, k, s, dp);
    var none := Node(Free, 0, []);
    var p, j := if dp == ROOT then ROOT else at[dp].p, if dp == ROOT then 1 else at[dp].k;
    assert NodeOk(p, nodes, at);
    DotsDiffer();
    CountUpdate(nodes[p].ents, j, Blank(), dp);
    TotalUpdate(nodes, ip, none, dp);
    TotalUpdate(nodes[ip := none], p, none, dp);
    assert nodes[dp].nlink == Total(nodes, dp);
  }

  lemma DirSlotsDown(nodes: seq<Node>, at: map<nat, Place>, ip: nat, dp: nat, k: nat, s: string, d: nat)
    requires Named(nodes, at, ip, dp, k, s) && nodes[ip].kind == Dir && IsEmpty(nodes[ip].ents) && d < |nodes| &&
             d != ip && Live(nodes[d])
    requires nodes[dp].nlink >= 2
    ensures var r := Removed(nodes, ip, dp, k, 1); SlotsOk(d, r, at - {ip}) && HangsOk(d, r, at - {ip})
  {
    var r, at' := Removed(nodes, ip, dp, k, 1), at - {ip};
    NamedFacts(nodes, at, ip, dp, k, s);
    NotItself(nodes, at, ip, dp, k, s);
    assert NodeOk(d, nodes, at);
    forall j: nat | 2 <= j < |r[d].ents| ensures SlotOk(d, j, r, at') {
      if !(d == dp && j == k) { assert SlotOk(d, j, nodes, at); }
    }
  }

  /** UNLINK of an empty directory keeps the tree and the counts; the directory has no link left. */
  lemma DirRemoved(nodes: seq<Node>, at: map<nat, Place>, ip: nat, dp: nat, k: nat, s: string)
    requires Named(nodes, at, ip, dp, k, s) && nodes[ip].kind == Dir && IsEmpty(nodes[ip].ents)
    ensures Inv(Removed(nodes, ip, dp, k, 1), at - {ip}) && Removed(nodes, ip, dp, k, 1)[ip].nlink == 0
  {
    var r, at' := Removed(nodes, ip, dp, k, 1), at - {ip};
    NamedFacts(nodes, at, ip, dp, k, s);
    NotItself(nodes, at, ip, dp, k, s);
    EmptyDirLinks(nodes, at, ip, dp, k, s);
    StillLinked(nodes, at, ip, dp, k, s);
    forall i: nat | 1 <= i < |r| ensures r[i].nlink == Total(r, i) { DirCountsDown(nodes, at, ip, dp, k, s, i); }
    forall d: nat | d < |r| ensures NodeOk(d, r, at') {
      assert NodeOk(d, nodes, at);
      if d != ip && Live(nodes[d]) { DirSlotsDown(nodes, at, ip, dp, k, s, d); }
    }
  }

  // ---------------------------------------------------------------- iput()

  /** An inode without links is freed with its last reference; no directory notices. */
  lemma FreedOk(nodes: seq<Node>, at: map<nat, Place>, ip: nat)
    requires Inv(nodes, at) && 1 <= ip < |nodes| && nodes[ip].nlink == 0
    ensures Inv(nodes[ip := Node(Free, 0, [])], at)
  {
    var r := nodes[ip := Node(Free, 0, [])];
    forall i: nat | 1 <= i < |r| ensures r[i].nlink == Total(r, i) {
      TotalUpdate(nodes, ip, Node(Free, 0, []), i);
      assert nodes[i].nlink == Total(nodes, i);
    }
    forall d: nat | d < |r| ensures NodeOk(d, r, at) {
      assert NodeOk(d, nodes, at);
      if Live(r[d]) { FreedSlots(nodes, at, ip, d); }
    }
  }

  lemma FreedSlots(nodes: seq<Node>, at: map<nat, Place>, ip: nat, d: nat)
    requires Inv(nodes, at) && 1 <= ip < |nodes| && nodes[ip].nlink == 0 && d < |nodes| && d != ip && Live(nodes[d])
    ensures SlotsOk(d, nodes[ip := Node(Free, 0, [])], at)
  {
    var r := nodes[ip := Node(Free, 0, [])];
    assert NodeOk(d, nodes, at);
    TotalUpdate(nodes, d, nodes[d], ip);
    assert nodes[ip].nlink == Total(nodes, ip);
    forall k: nat | 2 <= k < |r[d].ents| ensures SlotOk(d, k, r, at) {
      assert SlotOk(d, k, nodes, at);
      CountUpdate(nodes[d].ents, k, Blank(), ip);
      if nodes[d].ents[k].inum != 0 { NotDot(d, nodes[d].ents, |nodes|, k); }
    }
  }

  // ---------------------------------------------------------------- one tree

  lemma SlotsFree(nodes: seq<Node>, at: map<nat, Place>, dp: nat, k: nat)
    requires Inv(nodes, at) && dp < |nodes| && Live(nodes[dp]) && Vacant(nodes[dp].ents, k)
    ensures k >= 2
  {
    assert NodeOk(dp, nodes, at);
  }

  lemma RootedFile(nodes: seq<Node>, at: map<nat, Place>, depth: map<nat, nat>, ip: nat, n: Node, dp: nat, k: nat,
                   s: string)
    requires CanEnter(nodes, at, ip, dp, k, s) && Rooted(nodes, depth) && n.kind != Dir
    ensures Rooted(Entered(nodes, ip, n, dp, k, s, 0), depth)
  {
    SlotsFree(nodes, at, dp, k);
    assert NodeOk(dp, nodes, at);
    RootedKept(nodes, Entered(nodes, ip, n, dp, k, s, 0), depth);
  }

  lemma RootedDir(nodes: seq<Node>, at: map<nat, Place>, depth: map<nat, nat>, ip: nat, dp: nat, k: nat, s: string)
    requires CanEnter(nodes, at, ip, dp, k, s) && Rooted(nodes, depth) && nodes[ip].kind == Free
    ensures dp in depth && Rooted(Entered(nodes, ip, NewDir(ip, dp), dp, k, s, 1), depth[ip := depth[dp] + 1])
  {
    SlotsFree(nodes, at, dp, k);
    assert NodeOk(dp, nodes, at);
    assert dp == ROOT || (Parent(nodes, dp) in depth && dp in depth);
    RootedNew(nodes, at, Entered(nodes, ip, NewDir(ip, dp), dp, k, s, 1), depth, ip, dp);
  }

  lemma RootedGone(nodes: seq<Node>, at: map<nat, Place>, depth: map<nat, nat>, ip: nat, dp: nat, k: nat, s: string,
                   m: int)
    requires Named(nodes, at, ip, dp, k, s) && Rooted(nodes, depth) && ip != dp && m >= 0
    ensures Rooted(Removed(nodes, ip, dp, k, m), depth)
  {
    NamedFacts(nodes, at, ip, dp, k, s);
    assert NodeOk(dp, nodes, at);
    RootedKept(nodes, Removed(nodes, ip, dp, k, m), depth);
  }

  // ---------------------------------------------------------------- unlinked parents

  /** What link() and create() find out about a directory dp before they enter ip there. */
  ghost predicate Enters(nodes: seq<Node>, at: map<nat, Place>, ip: nat, dp: nat, k: nat, s: string) {
    && Inv(nodes, at) && 1 <= ip < |nodes| && dp < |nodes| && nodes[dp].kind == Dir && nodes[ip].kind != Dir
    && NoNul(s) && Find(nodes[dp].ents, s) == None && Vacant(nodes[dp].ents, k)
  }

  /** In an unlinked directory the new name does not count, and the link count of ip is one too high. */
  lemma DeadCounts(nodes: seq<Node>, at: map<nat, Place>, ip: nat, n: Node, dp: nat, k: nat, s: string)
    requires Enters(nodes, at, ip, dp, k, s) && OneMore(nodes[ip], n) && nodes[dp].nlink <= 0
    ensures var r := Entered(nodes, ip, n, dp, k, s, 0); r[ip].nlink == Total(r, ip) + 1
  {
    var r := Entered(nodes, ip, n, dp, k, s, 0);
    TotalUpdate(nodes, ip, n, ip);
    TotalUpdate(nodes[ip := n], dp, r[dp], ip);
    assert nodes[ip].nlink == Total(nodes, ip);
  }

  /** EXACTLY WHEN LINK, AND CREATE OF A FILE OR DEVICE, KEEP THE COUNTS.  Neither looks at the link
      count of the directory. */
  lemma FileCountsIff(nodes: seq<Node>, at: map<nat, Place>, ip: nat, n: Node, dp: nat, k: nat, s: string)
    requires Enters(nodes, at, ip, dp, k, s) && OneMore(nodes[ip], n)
    ensures CountsOk(Entered(nodes, ip, n, dp, k, s, 0)) <==> nodes[dp].nlink > 0
  {
    if nodes[dp].nlink > 0 {
      FileOk(nodes, at, ip, n, dp, k, s);
    } else {
      DeadCounts(nodes, at, ip, n, dp, k, s);
    }
  }

  /** A directory created in an unlinked one makes its parent count again, so that the ".." of the
      parent counts as well, at an inode whose link count stays. */
  lemma DeadMkdir(nodes: seq<Node>, at: map<nat, Place>, ip: nat, dp: nat, k: nat, s: string)
    requires Enters(nodes, at, ip, dp, k, s) && nodes[ip].kind == Free && nodes[dp].nlink <= 0
    ensures var r, g := Entered(nodes, ip, NewDir(ip, dp), dp, k, s, 1), Parent(nodes, dp);
            1 <= g < |r| && r[g].nlink < Total(r, g)
  {
    var n, g := NewDir(ip, dp), Parent(nodes, dp);
    var r := Entered(nodes, ip, n, dp, k, s, 1);
    assert NodeOk(dp, nodes, at) && NodeOk(ip, nodes, at);
    DotsDiffer();
    assert nodes[dp].nlink == Total(nodes, dp);
    assert nodes[g].nlink == Total(nodes, g);
    NewDirCount(ip, dp, g);
    DeadMkdirCount(nodes, at, ip, dp, k, s);
    TotalUpdate(nodes, ip, n, g);
    TotalUpdate(nodes[ip := n], dp, r[dp], g);
  }

  lemma DeadMkdirCount(nodes: seq<Node>, at: map<nat, Place>, ip: nat, dp: nat, k: nat, s: string)
    requires Enters(nodes, at, ip, dp, k, s)
    ensures k >= 2 && var g := Parent(nodes, dp);
            CountIn(Linked(nodes[dp].ents, k, s, ip), g) >= 1 + One(ip == g)
  {
    var e, g := nodes[dp].ents, Parent(nodes, dp);
    assert NodeOk(dp, nodes, at) && ProperEnt(e[0]);
    DotsDiffer();
    MatchesStored(e[0], s);
    CountUpdate(e, 1, Blank(), g);
    CountLinked(e, k, s, ip, g);
  }

  /** EXACTLY WHEN CREATE OF A DIRECTORY KEEPS THE COUNTS. */
  lemma DirCountsIff(nodes: seq<Node>, at: map<nat, Place>, ip: nat, dp: nat, k: nat, s: string)
    requires Enters(nodes, at, ip, dp, k, s) && nodes[ip].kind == Free
    ensures CountsOk(Entered(nodes, ip, NewDir(ip, dp), dp, k, s, 1)) <==> nodes[dp].nlink > 0
  {
    if nodes[dp].nlink > 0 {
      DirCreated(nodes, at, ip, dp, k, s);
    } else {
      DeadMkdir(nodes, at, ip, dp, k, s);
    }
  }

  /** No directory has a name for inode i; a ".." left behind in an unlinked directory is no name. */
  ghost predicate Nameless(nodes: seq<Node>, i: nat) {
    forall d: nat, j: nat {:trigger nodes[d].ents[j]} ::
      d < |nodes| && nodes[d].kind == Dir && j < |nodes[d].ents| && (j != 1 || nodes[d].nlink > 0) ==>
        nodes[d].ents[j].inum != i
  }

  /** A free inode has no name. */
  lemma FreeNameless(nodes: seq<Node>, at: map<nat, Place>, i: nat)
    requires Inv(nodes, at) && 1 <= i < |nodes| && nodes[i].kind == Free
    ensures Nameless(nodes, i)
  {
    assert NodeOk(i, nodes, at);
    forall d: nat, j: nat | d < |nodes| && nodes[d].kind == Dir && j < |nodes[d].ents| && (j != 1 || nodes[d].nlink > 0)
      ensures nodes[d].ents[j].inum != i
    {
      assert NodeOk(d, nodes, at);
      if j == 1 {
        NotCounted(nodes, at, d, j, i);
      } else if j >= 2 && Live(nodes[d]) {
        assert SlotOk(d, j, nodes, at);
      }
    }
  }

  lemma NotCounted(nodes: seq<Node>, at: map<nat, Place>, d: nat, j: nat, i: nat)
    requires Inv(nodes, at) && 1 <= i < |nodes| && nodes[i].nlink <= 0
    requires d < |nodes| && Live(nodes[d]) && 1 <= j < |nodes[d].ents|
    ensures nodes[d].ents[j].inum != i
  {
    assert NodeOk(d, nodes, at);
    CountUpdate(nodes[d].ents, j, Blank(), i);
    TotalUpdate(nodes, d, nodes[d], i);
    assert nodes[i].nlink == Total(nodes, i);
  }

  /** THE LOST FILE.  Once iput() has freed the unlinked directory, the file created there keeps its
      link without a name anywhere, so that no iput() will free it. */
  lemma LostFile(nodes: seq<Node>, at: map<nat, Place>, ip: nat, kind: Kind, dp: nat, k: nat, s: string)
    requires Enters(nodes, at, ip, dp, k, s) && nodes[ip].kind == Free && Plain(kind) && nodes[dp].nlink <= 0
    ensures var r := Entered(nodes, ip, Node(kind, 1, []), dp, k, s, 0)[dp := Node(Free, 0, [])];
            r[ip] == Node(kind, 1, []) && Nameless(r, ip)
  {
    FreeNameless(nodes, at, ip);
  }
}
