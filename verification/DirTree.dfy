/** Inodes, directories and link counts. */
module DirTree {
  import opened Prelude
  import opened DirEntries

  const ROOT: nat := 1

  datatype Kind = Free | File | Device | Dir
  datatype Node = Node(kind: Kind, nlink: int, ents: seq<Ent>)

  /** A directory that is still linked. */
  predicate Live(n: Node) { n.kind == Dir && n.nlink > 0 }

  // ---------------------------------------------------------------- counting

  predicate Counted(e: Ent, i: nat) { e.inum == i && e.name != Pad(".") }

  function CountIn(ents: seq<Ent>, i: nat): nat {
    if ents == [] then 0 else CountIn(ents[..|ents| - 1], i) + One(Counted(ents[|ents| - 1], i))
  }

  function Share(n: Node, i: nat): nat { if Live(n) then CountIn(n.ents, i) else 0 }

  /** How many entries other than "." of linked directories name inode i. */
  function Total(nodes: seq<Node>, i: nat): nat {
    if nodes == [] then 0 else Total(nodes[..|nodes| - 1], i) + Share(nodes[|nodes| - 1], i)
  }

  lemma {:induction false} CountUpdate(ents: seq<Ent>, k: nat, e: Ent, i: nat)
    requires k < |ents|
    ensures CountIn(ents[k := e], i) == CountIn(ents, i) - One(Counted(ents[k], i)) + One(Counted(e, i))
    ensures CountIn(ents, i) >= One(Counted(ents[k], i))
    decreases |ents|
  {
    if k < |ents| - 1 {
      CountUpdate(ents[..|ents| - 1], k, e, i);
      assert ents[k := e][..|ents| - 1] == ents[..|ents| - 1][k := e];
    } else {
      assert ents[k := e][..|ents| - 1] == ents[..|ents| - 1];
    }
  }

  lemma CountSnoc(ents: seq<Ent>, e: Ent, i: nat)
    ensures CountIn(ents + [e], i) == CountIn(ents, i) + One(Counted(e, i))
  {
    assert (ents + [e])[..|ents|] == ents;
  }

  lemma {:induction false} CountNone(ents: seq<Ent>, i: nat)
    requires forall k :: 0 <= k < |ents| ==> !Counted(ents[k], i)
    ensures CountIn(ents, i) == 0
  {
    if ents != [] { CountNone(ents[..|ents| - 1], i); }
  }

  /** Exactly entry k names i. */
  lemma CountOnly(ents: seq<Ent>, k: nat, i: nat)
    requires k < |ents| && Counted(ents[k], i) && forall j :: 0 <= j < |ents| && j != k ==> !Counted(ents[j], i)
    ensures CountIn(ents, i) == 1
  {
    var e := Ent(i + 1, Pad(""));
    CountUpdate(ents, k, e, i);
    CountNone(ents[k := e], i);
  }

  lemma {:induction false} TotalUpdate(nodes: seq<Node>, d: nat, n: Node, i: nat)
    requires d < |nodes|
    ensures Total(nodes[d := n], i) == Total(nodes, i) - Share(nodes[d], i) + Share(n, i)
    ensures Total(nodes, i) >= Share(nodes[d], i)
    decreases |nodes|
  {
    if d < |nodes| - 1 {
      TotalUpdate(nodes[..|nodes| - 1], d, n, i);
      assert nodes[d := n][..|nodes| - 1] == nodes[..|nodes| - 1][d := n];
    } else {
      assert nodes[d := n][..|nodes| - 1] == nodes[..|nodes| - 1];
    }
  }

  lemma {:induction false} TotalNone(nodes: seq<Node>, i: nat)
    requires forall d :: 0 <= d < |nodes| ==> Share(nodes[d], i) == 0
    ensures Total(nodes, i) == 0
  {
    if nodes != [] { TotalNone(nodes[..|nodes| - 1], i); }
  }

  lemma TotalOnly(nodes: seq<Node>, d: nat, i: nat)
    requires d < |nodes| && forall q :: 0 <= q < |nodes| && q != d ==> Share(nodes[q], i) == 0
    ensures Total(nodes, i) == Share(nodes[d], i)
  {
    var n := Node(Free, 0, []);
    TotalUpdate(nodes, d, n, i);
    TotalNone(nodes[d := n], i);
  }

  // ---------------------------------------------------------------- invariant

  /** Where a directory hangs: in which directory, in which slot. */
  datatype Place = Place(p: nat, k: nat)

  /** A directory starts with "." and "..", and its names are distinct. */
  ghost predicate DirOk(d: nat, ents: seq<Ent>, size: nat) {
    && |ents| >= 2 && ents[0] == Ent(d, Pad(".")) && ents[1].name == Pad("..") && ents[1].inum != 0
    && Proper(ents) && (forall k :: 0 <= k < |ents| ==> ents[k].inum < size)
  }

  /** A linked directory other than the root hangs in its parent. */
  ghost predicate HangsOk(d: nat, nodes: seq<Node>, at: map<nat, Place>)
    requires d < |nodes|
  {
    && |nodes[d].ents| >= 2
    && if d == ROOT then nodes[d].ents[1].inum == ROOT
       else d in at && at[d].p < |nodes| && at[d].p != d && Live(nodes[at[d].p]) && 2 <= at[d].k < |nodes[at[d].p].ents|
            && nodes[at[d].p].ents[at[d].k].inum == d && nodes[d].ents[1].inum == at[d].p
  }

  /** Slot k of directory p names an inode in use; a directory is named where it hangs and nowhere else. */
  ghost predicate SlotOk(p: nat, k: nat, nodes: seq<Node>, at: map<nat, Place>)
    requires p < |nodes| && k < |nodes[p].ents|
  {
    var i := nodes[p].ents[k].inum;
    i != 0 ==> i < |nodes| && nodes[i].kind != Free && (nodes[i].kind == Dir ==>
                                                          i != ROOT && i in at && at[i] == Place(p, k))
  }

  ghost predicate NodeOk(d: nat, nodes: seq<Node>, at: map<nat, Place>)
    requires d < |nodes|
  {
    && (nodes[d].kind == Free ==> nodes[d].nlink == 0)
    && (nodes[d].kind == Dir ==> d != 0 && DirOk(d, nodes[d].ents, |nodes|))
    && (nodes[d].kind == Dir && nodes[d].nlink <= 0 ==> IsEmpty(nodes[d].ents))
    && (Live(nodes[d]) ==> HangsOk(d, nodes, at) && SlotsOk(d, nodes, at))
  }

  /** isdirempty() */
  predicate IsEmpty(ents: seq<Ent>) { forall k :: 2 <= k < |ents| ==> ents[k].inum == 0 }

  ghost predicate SlotsOk(d: nat, nodes: seq<Node>, at: map<nat, Place>)
    requires d < |nodes|
  {
    forall k: nat {:trigger SlotOk(d, k, nodes, at)} :: 2 <= k < |nodes[d].ents| ==> SlotOk(d, k, nodes, at)
  }

  /** LINK COUNTS: nlink is the number of entries other than "." that name the inode. */
  ghost predicate CountsOk(nodes: seq<Node>) {
    forall i: nat {:trigger Total(nodes, i)} :: 1 <= i < |nodes| ==> nodes[i].nlink == Total(nodes, i)
  }

  ghost predicate Inv(nodes: seq<Node>, at: map<nat, Place>) {
    && ROOT < |nodes| && Live(nodes[ROOT])
    && CountsOk(nodes)
    && forall d: nat {:trigger NodeOk(d, nodes, at)} :: d < |nodes| ==> NodeOk(d, nodes, at)
  }

  /** Entries beyond the first two are not called ".". */
  lemma NotDot(d: nat, ents: seq<Ent>, size: nat, k: nat)
    requires DirOk(d, ents, size) && d != 0 && 1 <= k < |ents| && ents[k].inum != 0
    ensures ents[k].name != Pad(".")
  {
  }

  // ---------------------------------------------------------------- one tree

  /** The ".." of a directory. */
  function Parent(nodes: seq<Node>, d: nat): nat {
    if d < |nodes| && |nodes[d].ents| >= 2 then nodes[d].ents[1].inum else ROOT
  }

  /** Every linked directory but the root is deeper than its parent. */
  ghost predicate Rooted(nodes: seq<Node>, depth: map<nat, nat>) {
    ROOT in depth && forall d: nat {:trigger Parent(nodes, d)} :: d < |nodes| && d != ROOT && Live(nodes[d]) ==>
      d in depth && Parent(nodes, d) in depth && depth[Parent(nodes, d)] < depth[d]
  }

  /** n times ".." */
  function Up(nodes: seq<Node>, d: nat, n: nat): nat
    decreases n
  {
    if n == 0 then d else Up(nodes, Parent(nodes, d), n - 1)
  }

  /** ONE TREE.  From every linked directory ".." leads to the root, through linked directories. */
  lemma {:induction false} ReachesRoot(nodes: seq<Node>, at: map<nat, Place>, depth: map<nat, nat>,
                                       d: nat) returns (n: nat)
    requires Inv(nodes, at) && Rooted(nodes, depth) && d < |nodes| && Live(nodes[d])
    ensures Up(nodes, d, n) == ROOT && forall i: nat :: i <= n ==>
              Up(nodes, d, i) < |nodes| && Live(nodes[Up(nodes, d, i)])
    decreases if d in depth then depth[d] else 0, d != ROOT
  {
    if d == ROOT {
      n := 0;
    } else {
      assert NodeOk(d, nodes, at);
      var p := Parent(nodes, d);
      n := ReachesRoot(nodes, at, depth, p);
      n := n + 1;
      forall i: nat | i <= n ensures Up(nodes, d, i) < |nodes| && Live(nodes[Up(nodes, d, i)]) {
        if i > 0 { assert Up(nodes, d, i) == Up(nodes, p, i - 1); }
      }
    }
  }

  /** No directory becomes linked and no ".." changes. */
  lemma RootedKept(nodes: seq<Node>, nodes': seq<Node>, depth: map<nat, nat>)
    requires Rooted(nodes, depth) && |nodes'| == |nodes|
    requires forall d: nat :: d < |nodes| && Live(nodes'[d]) ==> Live(nodes[d]) && Parent(nodes', d) == Parent(nodes, d)
    ensures Rooted(nodes', depth)
  {
    forall d: nat | d < |nodes'| && d != ROOT && Live(nodes'[d])
      ensures d in depth && Parent(nodes', d) in depth && depth[Parent(nodes', d)] < depth[d]
    {
      assert Parent(nodes, d) == Parent(nodes', d);
    }
  }

  /** A new directory ip under dp; until now nothing named ip. */
  lemma RootedNew(nodes: seq<Node>, at: map<nat, Place>, nodes': seq<Node>, depth: map<nat, nat>, ip: nat, dp: nat)
    requires Inv(nodes, at) && Rooted(nodes, depth) && |nodes'| == |nodes| && ip < |nodes| && dp < |nodes| &&
             Live(nodes[dp])
    requires !Live(nodes[ip]) && ip != ROOT && Parent(nodes', ip) == dp && dp in depth
    requires forall d: nat :: d < |nodes| && d != ip && Live(nodes'[d]) ==>
               Live(nodes[d]) && Parent(nodes', d) == Parent(nodes, d)
    ensures Rooted(nodes', depth[ip := depth[dp] + 1])
  {
    var depth' := depth[ip := depth[dp] + 1];
    forall d: nat | d < |nodes'| && d != ROOT && Live(nodes'[d])
      ensures d in depth' && Parent(nodes', d) in depth' && depth'[Parent(nodes', d)] < depth'[d]
    {
      if d != ip {
        assert NodeOk(d, nodes, at);
        assert Parent(nodes, d) == Parent(nodes', d);
      }
    }
  }
}
