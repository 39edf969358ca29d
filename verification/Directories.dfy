/** dirlookup() and dirlink() of kernel/fs.c, and link, unlink and create of kernel/sysfile.c on
    directories that have been found by name.  Paths, references and locks are not modelled. */
module Directories {
  import opened Prelude
  import opened DirEntries
  import opened DirTree
  import opened DirOps

  const MAXENTS: nat := 268 * 1024 / 16        // MAXFILE * BSIZE / sizeof(struct dirent)

  /** Done: returned 0.  Fail: returned -1.  Panic: a directory cannot grow any more, or no inode is free. */
  datatype Result = Done | Fail | Panic

  /** Every entry a directory can have is taken. */
  predicate NoRoom(ents: seq<Ent>) { |ents| >= MAXENTS && forall j :: 0 <= j < MAXENTS ==> ents[j].inum != 0 }

  predicate NoInode(nodes: seq<Node>) { forall i :: 1 <= i < |nodes| ==> nodes[i].kind != Free }

  class Tree {
    var nodes: seq<Node>
    ghost var at: map<nat, Place>
    ghost var depth: map<nat, nat>

    ghost predicate Valid()
      reads this
    {
      Inv(nodes, at) && Rooted(nodes, depth)
    }

    /** What mkfs leaves: a root directory that is its own parent. */
    constructor (ninodes: nat)
      requires ninodes > ROOT
      ensures Valid() && nodes == Fresh(ninodes)
    {
      nodes := Fresh(ninodes);
      at, depth := map[], map[ROOT := 0];
      new;
      NewDirOk(ROOT, ROOT, ninodes);
      forall i: nat | 1 <= i < |nodes| ensures nodes[i].nlink == Total(nodes, i) {
        NewDirCount(ROOT, ROOT, i);
        TotalOnly(nodes, ROOT, i);
      }
      forall d: nat | d < |nodes| ensures NodeOk(d, nodes, at) {}
      assert forall d: nat :: d < |nodes| && Live(nodes[d]) ==> d == ROOT;
    }

    /** dirlookup(): the slot that holds the name. */
    method Dirlookup(dp: nat, name: string) returns (r: Option<nat>)
      requires dp < |nodes| && Proper(nodes[dp].ents) && NoNul(name)
      ensures r == Find(nodes[dp].ents, name)
    {
      var k := 0;
      while k < |nodes[dp].ents|
        invariant 0 <= k <= |nodes[dp].ents|
        invariant forall j :: 0 <= j < k ==> !Matches(nodes[dp].ents[j], name)
      {
        var de := nodes[dp].ents[k];
        if de.inum != 0 && Namecmp(name, de.name) {
          FindIs(nodes[dp].ents, name, k);
          return Some(k);
        }
        k := k + 1;
      }
      return None;
    }

    /** The search of dirlink() for an empty entry. */
    method Vacancy(dp: nat) returns (k: nat)
      requires dp < |nodes|
      ensures Vacant(nodes[dp].ents, k) && (k >= MAXENTS <==> NoRoom(nodes[dp].ents))
    {
      k := 0;
      while k < |nodes[dp].ents| && nodes[dp].ents[k].inum != 0
        invariant k <= |nodes[dp].ents| && forall j :: 0 <= j < k ==> nodes[dp].ents[j].inum != 0
      {
        k := k + 1;
      }
    }

    /** isdirempty() */
    method Isdirempty(dp: nat) returns (r: bool)
      requires dp < |nodes| && |nodes[dp].ents| >= 2
      ensures r == IsEmpty(nodes[dp].ents)
    {
      var k := 2;
      while k < |nodes[dp].ents|
        invariant 2 <= k <= |nodes[dp].ents| && forall j :: 2 <= j < k ==> nodes[dp].ents[j].inum == 0
      {
        if nodes[dp].ents[k].inum != 0 {
          return false;
        }
        k := k + 1;
      }
      return true;
    }

    /** link(): one more name for a file.  Its link count and its names go up together, exactly if the
        directory is still linked.  `dp` is None if the new path has no parent directory on this device. */
    method Link(ip: nat, dp: Option<nat>, name: string) returns (r: Result, ghost k: nat)
      requires Valid() && 1 <= ip < |nodes| && nodes[ip].kind != Free
      requires dp.Some? ==> dp.value < |nodes| && nodes[dp.value].kind == Dir && NoNul(name)
      modifies this
      ensures r == Fail ==> nodes == old(nodes) && Valid()
      ensures r == Fail <==>
                old(nodes)[ip].kind == Dir || dp.None? || Find(old(nodes)[dp.value].ents, name).Some?
      ensures r == Panic <==> r != Fail && NoRoom(old(nodes)[dp.value].ents)
      ensures r == Done ==>
                && dp.Some? && Vacant(old(nodes)[dp.value].ents, k) && ip != dp.value
                && nodes == Entered(old(nodes), ip, MoreLinks(old(nodes)[ip], 1), dp.value, k, name, 0)
                && (old(nodes)[dp.value].nlink > 0 ==> Valid())
                && (CountsOk(nodes) <==> old(nodes)[dp.value].nlink > 0)
    {
      k := 0;
      if nodes[ip].kind == Dir {
        return Fail, 0;
      }
      ghost var before := nodes;
      nodes := nodes[ip := MoreLinks(nodes[ip], 1)];
      if dp.Some? {
        ProperDir(before, at, dp.value);
        var found := Dirlookup(dp.value, name);
        if found.None? {
          var slot := Vacancy(dp.value);
          if slot >= MAXENTS {
            return Panic, 0;
          }
          FileCountsIff(before, at, ip, nodes[ip], dp.value, slot, name);
          if Live(before[dp.value]) {
            FileOk(before, at, ip, nodes[ip], dp.value, slot, name);
            RootedFile(before, at, depth, ip, nodes[ip], dp.value, slot, name);
          }
          nodes := nodes[dp.value := nodes[dp.value].(ents := Linked(nodes[dp.value].ents, slot, name, ip))];
          return Done, slot;
        }
      }
      nodes := nodes[ip := MoreLinks(nodes[ip], -1)];
      assert nodes == before;
      return Fail, 0;
    }

    /** unlink(): the name goes, and with it one link; an empty directory also gives back the link
        its ".." was to its parent.  The "nlink < 1" panic cannot happen. */
    method Unlink(dp: nat, name: string) returns (r: Result, ghost k: nat)
      requires Valid() && dp < |nodes| && nodes[dp].kind == Dir && NoNul(name)
      modifies this
      ensures Valid() && r != Panic
      ensures r == Fail ==> nodes == old(nodes)
      ensures r == Fail <==> CannotUnlink(old(nodes), dp, name)
      ensures r == Done ==> Find(old(nodes)[dp].ents, name) == Some(k) && var ip := old(nodes)[dp].ents[k].inum;
                ip < |old(nodes)| && nodes == Removed(old(nodes), ip, dp, k, One(old(nodes)[ip].kind == Dir))
    {
      k := 0;
      NamecmpIff(name, ".");
      NamecmpIff(name, "..");
      if Namecmp(name, Pad(".")) || Namecmp(name, Pad("..")) {
        return Fail, 0;
      }
      ProperDir(nodes, at, dp);
      var found := Dirlookup(dp, name);
      if found.None? {
        return Fail, 0;
      }
      k := found.value;
      var off := found.value;
      var ip := nodes[dp].ents[off].inum;
      PadCut(name, ".");
      PadCut(name, "..");
      FoundLive(nodes, at, dp, off, name);
      NamedFacts(nodes, at, ip, dp, off, name);
      NotItself(nodes, at, ip, dp, off, name);
      assert NodeOk(ip, nodes, at);
      if nodes[ip].kind == Dir {
        var empty := Isdirempty(ip);
        if !empty {
          return Fail, 0;
        }
        DirRemoved(nodes, at, ip, dp, off, name);
        RootedGone(nodes, at, depth, ip, dp, off, name, 1);
        at := at - {ip};
      } else {
        FileRemoved(nodes, at, ip, dp, off, name);
        RootedGone(nodes, at, depth, ip, dp, off, name, 0);
      }
      r := Done;
      Remove(ip, dp, off);
    }

    /** The writes of unlink(). */
    method Remove(ip: nat, dp: nat, off: nat)
      requires ip < |nodes| && dp < |nodes| && ip != dp && off < |nodes[dp].ents|
      modifies this`nodes
      ensures nodes == Removed(old(nodes), ip, dp, off, One(old(nodes)[ip].kind == Dir))
    {
      nodes := nodes[dp := nodes[dp].(ents := nodes[dp].ents[off := Blank()])];
      if nodes[ip].kind == Dir {
        nodes := nodes[dp := nodes[dp].(nlink := nodes[dp].nlink - 1)];
      }
      nodes := nodes[ip := nodes[ip].(nlink := nodes[ip].nlink - 1)];
    }

    /** ialloc(): the first free inode. */
    method Ialloc() returns (r: Option<nat>)
      requires |nodes| > ROOT
      ensures r.Some? ==> 1 <= r.value < |nodes| && nodes[r.value].kind == Free
      ensures r.None? <==> NoInode(nodes)
    {
      var i := 1;
      while i < |nodes|
        invariant 1 <= i <= |nodes| && forall j :: 1 <= j < i ==> nodes[j].kind != Free
      {
        if nodes[i].kind == Free {
          return Some(i);
        }
        i := i + 1;
      }
      return None;
    }

    /** create(): a new file or directory under a new name, or the existing file.  The panics of
        its dirlink() calls on names that are taken cannot happen.  The link counts stay exact
        exactly if the directory is still linked. */
    method Create(dp: nat, name: string, kind: Kind) returns (r: Result, ip: nat, ghost k: nat)
      requires Valid() && dp < |nodes| && nodes[dp].kind == Dir && NoNul(name) && kind != Free
      modifies this
      ensures Find(old(nodes)[dp].ents, name).Some? ==>
                && nodes == old(nodes) && Valid() && ip == Inum(old(nodes)[dp].ents, name) < |old(nodes)|
                && (r == Done <==> kind == File && Plain(old(nodes)[ip].kind))
      ensures r == Fail ==> Find(old(nodes)[dp].ents, name).Some?
      ensures r == Panic <==>
                Find(old(nodes)[dp].ents, name) == None && (NoInode(old(nodes)) || NoRoom(old(nodes)[dp].ents))
      ensures r == Done && Find(old(nodes)[dp].ents, name) == None ==>
                && 1 <= ip < |old(nodes)| && old(nodes)[ip].kind == Free && ip != dp && Vacant(old(nodes)[dp].ents, k)
                && nodes == Entered(old(nodes), ip, Made(kind, ip, dp), dp, k, name, One(kind == Dir))
                && (old(nodes)[dp].nlink > 0 ==> Valid())
                && (CountsOk(nodes) <==> old(nodes)[dp].nlink > 0)
    {
      k := 0;
      ProperDir(nodes, at, dp);
      var found := Dirlookup(dp, name);
      if found.Some? {
        ip := nodes[dp].ents[found.value].inum;
        if kind == File && (nodes[ip].kind == File || nodes[ip].kind == Device) {
          return Done, ip, 0;
        }
        return Fail, ip, 0;
      }
      var slot := Vacancy(dp);
      var a := Ialloc();
      if a.None? || slot >= MAXENTS {
        return Panic, 0, 0;
      }
      ip := a.value;
      assert NodeOk(ip, nodes, at);
      if kind == Dir {
        DirCountsIff(nodes, at, ip, dp, slot, name);
        if Live(nodes[dp]) {
          DirCreated(nodes, at, ip, dp, slot, name);
          RootedDir(nodes, at, depth, ip, dp, slot, name);
          at, depth := at[ip := Place(dp, slot)], depth[ip := depth[dp] + 1];
        }
      } else {
        FileCountsIff(nodes, at, ip, Node(kind, 1, []), dp, slot, name);
        if Live(nodes[dp]) {
          FileOk(nodes, at, ip, Node(kind, 1, []), dp, slot, name);
          RootedFile(nodes, at, depth, ip, Node(kind, 1, []), dp, slot, name);
        }
      }
      Enter(ip, dp, slot, name, kind);
      return Done, ip, slot;
    }

    /** The writes of create(). */
    method Enter(ip: nat, dp: nat, slot: nat, name: string, kind: Kind)
      requires ip < |nodes| && dp < |nodes| && ip != dp && Vacant(nodes[dp].ents, slot)
      modifies this`nodes
      ensures nodes == Entered(old(nodes), ip, Made(kind, ip, dp), dp, slot, name, One(kind == Dir))
    {
      nodes := nodes[ip := Node(kind, 1, [])];
      if kind == Dir {
        nodes := nodes[dp := nodes[dp].(nlink := nodes[dp].nlink + 1)];
        nodes := nodes[ip := nodes[ip].(ents := Linked([], 0, ".", ip))];
        nodes := nodes[ip := nodes[ip].(ents := Linked(nodes[ip].ents, 1, "..", dp))];
        assert nodes[ip] == NewDir(ip, dp);
      }
      nodes := nodes[dp := nodes[dp].(ents := Linked(nodes[dp].ents, slot, name, ip))];
    }

    /** iput() of the last reference to an inode: freed if it has no links. */
    method Iput(ip: nat)
      requires 1 <= ip < |nodes|
      modifies this`nodes
      ensures nodes == if old(nodes)[ip].nlink == 0 then old(nodes)[ip := Node(Free, 0, [])] else old(nodes)
      ensures old(Valid()) ==> Valid()
    {
      if nodes[ip].nlink == 0 {
        if Valid() {
          FreedOk(nodes, at, ip);
          RootedKept(nodes, nodes[ip := Node(Free, 0, [])], depth);
        }
        nodes := nodes[ip := Node(Free, 0, [])];
      }
    }
  }

  /** The inodes of a new file system. */
  function Fresh(ninodes: nat): seq<Node> {
    seq(ninodes, i => if i == ROOT then NewDir(ROOT, ROOT) else Node(Free, 0, []))
  }

  lemma NewDirFind(ip: nat, dp: nat, s: string)
    requires NoNul(s) && Cut(s) != "." && Cut(s) != ".."
    ensures Find(NewDir(ip, dp).ents, s) == None
  {
    NamecmpIff(s, ".");
    NamecmpIff(s, "..");
    assert NoNul(".") && NoNul("..");
  }

  /** The slot that dirlink() filled is the one the name is found in. */
  lemma JustLinked(nodes: seq<Node>, at: map<nat, Place>, dp: nat, k: nat, s: string)
    requires Inv(nodes, at) && dp < |nodes| && nodes[dp].kind == Dir && k < |nodes[dp].ents| && NoNul(s)
    requires nodes[dp].ents[k].inum != 0 && nodes[dp].ents[k].name == Pad(s)
    ensures Find(nodes[dp].ents, s) == Some(k)
  {
    ProperDir(nodes, at, dp);
    NamecmpIff(s, s);
    FindIs(nodes[dp].ents, s, k);
  }

  /** mkdir d and rmdir d, while a process has it as its current directory. */
  method RemovedDir() returns (t: Tree, d: nat)
    ensures fresh(t) && t.Valid() && !NoInode(t.nodes)
    ensures 1 <= d < |t.nodes| && t.nodes[d] == NewDir(d, ROOT).(nlink := 0)
  {
    t := new Tree(4);
    ghost var k;
    var r;
    assert t.nodes[2].kind == Free && NoNul("d");
    NewDirFind(ROOT, ROOT, "d");
    r, d, k := t.Create(ROOT, "d", Dir);
    JustLinked(t.nodes, t.at, ROOT, k, "d");
    r, k := t.Unlink(ROOT, "d");
    assert t.nodes[5 - d].kind == Free;
  }

  /** A run that loses a file: the process creates it in the removed directory and then leaves. */
  method UnlinkedParent() returns (t: Tree, ip: nat)
    ensures 1 <= ip < |t.nodes| && t.nodes[ip] == Node(File, 1, []) && Nameless(t.nodes, ip)
  {
    var d, r;
    ghost var k;
    t, d := RemovedDir();
    assert NoNul("f");
    NewDirFind(d, ROOT, "f");
    ghost var nodes, at := t.nodes, t.at;
    r, ip, k := t.Create(d, "f", File);
    assert !CountsOk(t.nodes);
    LostFile(nodes, at, ip, File, d, k, "f");
    t.Iput(d);
  }

  /** "." and ".." stay, names that are not there cannot go, and neither can directories in use. */
  predicate CannotUnlink(nodes: seq<Node>, dp: nat, name: string)
    requires dp < |nodes|
  {
    || Cut(name) == "." || Cut(name) == ".." || Find(nodes[dp].ents, name).None?
    || (var ip := Inum(nodes[dp].ents, name); ip < |nodes| && nodes[ip].kind == Dir && !IsEmpty(nodes[ip].ents))
  }

  function MoreLinks(n: Node, m: int): Node { n.(nlink := n.nlink + m) }

  /** What create() makes of a free inode. */
  function Made(kind: Kind, ip: nat, dp: nat): Node { if kind == Dir then NewDir(ip, dp) else Node(kind, 1, []) }

  lemma ProperDir(nodes: seq<Node>, at: map<nat, Place>, dp: nat)
    requires Inv(nodes, at) && dp < |nodes| && nodes[dp].kind == Dir
    ensures Proper(nodes[dp].ents) && forall k :: 0 <= k < |nodes[dp].ents| ==> nodes[dp].ents[k].inum < |nodes|
  {
    assert NodeOk(dp, nodes, at);
  }

  /** Only a linked directory has names other than "." and "..". */
  lemma FoundLive(nodes: seq<Node>, at: map<nat, Place>, dp: nat, k: nat, s: string)
    requires Inv(nodes, at) && dp < |nodes| && nodes[dp].kind == Dir && k < |nodes[dp].ents|
    requires NoNul(s) && Pad(s) != Pad(".") && Pad(s) != Pad("..") && Matches(nodes[dp].ents[k], s)
    ensures Live(nodes[dp]) && nodes[dp].ents[k].inum < |nodes|
  {
    assert NodeOk(dp, nodes, at);
    assert ProperEnt(nodes[dp].ents[k]);
    MatchesStored(nodes[dp].ents[k], s);
  }
}
