/**
 * Directories and link counts: dirlookup and dirlink of kernel/fs.c, create, sys_link, sys_unlink
 * and isdirempty of kernel/sysfile.c.
 *
 * An inode is its type, its link count and, for a directory, its entries.  create and sys_unlink
 * hold the locks of the inodes they change; sys_link lets go of the file between counting the new
 * link and entering it, so it takes two turns and other calls may come between.
 */
module Links {

  datatype Option<T> = None | Some(value: T)

  const ROOT: nat := 1
  const DIRSIZ: nat := 14
  const MAXLINK: int := 32767

  /** nlink++ on a short. */
  function Bump(nlink: int): int {
    if nlink == MAXLINK then -MAXLINK - 1 else nlink + 1
  }

  /** A short holds the sum modulo 2^16. */
  lemma {:induction false} BumpWraps(nlink: int)
    requires -0x8000 <= nlink < 0x8000
    ensures -0x8000 <= Bump(nlink) < 0x8000 && (Bump(nlink) - (nlink + 1)) % 0x1_0000 == 0
  {
  }

  /** inum 0 marks an empty slot. */
  datatype Dirent = Dirent(inum: nat, name: string)

  datatype Kind = Free | File | Device | Dir

  datatype Node = Node(kind: Kind, nlink: int, ents: seq<Dirent>)

  /** What strncmp and strncpy see of a name. */
  function Short(name: string): string {
    if |name| <= DIRSIZ then name else name[..DIRSIZ]
  }

  /** Byte i of a name as C reads it. */
  function ByteOf(name: string, i: nat): char {
    if i < |name| then name[i] else '\0'
  }

  lemma {:induction false} NotLonger(a: string, b: string)
    requires '\0' !in a && forall i :: 0 <= i < 14 ==> ByteOf(a, i) == ByteOf(b, i)
    ensures |Short(a)| <= |Short(b)|
  {
    var n := |b|;
    assert n < 14 ==> ByteOf(a, n) == ByteOf(b, n) == '\0';
    assert n < |a| ==> a[n] in a;
  }

  /** namecmp: two names are the same entry exactly if their first 14 bytes agree. */
  lemma {:induction false} SameEntry(a: string, b: string)
    requires '\0' !in a && '\0' !in b
    ensures Short(a) == Short(b) <==> forall i :: 0 <= i < 14 ==> ByteOf(a, i) == ByteOf(b, i)
  {
    if forall i :: 0 <= i < 14 ==> ByteOf(a, i) == ByteOf(b, i) {
      NotLonger(a, b);
      NotLonger(b, a);
      forall i | 0 <= i < |Short(a)| == |Short(b)|
        ensures Short(a)[i] == Short(b)[i]
      {
        assert ByteOf(a, i) == ByteOf(b, i);
      }
    }
    if Short(a) == Short(b) {
      forall i | 0 <= i < 14
        ensures ByteOf(a, i) == ByteOf(b, i)
      {
        assert i < |Short(a)| ==> a[i] == Short(a)[i] && b[i] == Short(b)[i];
      }
    }
  }

  // ---------------------------------------------------------------- counting entries

  /** An entry counts for the inode it names, except ".". */
  predicate Counts(e: Dirent, i: nat) {
    e.inum == i && e.name != "."
  }

  function One(b: bool): nat {
    if b then 1 else 0
  }

  function CountIn(ents: seq<Dirent>, i: nat): nat {
    if ents == [] then 0 else CountIn(ents[..|ents| - 1], i) + One(Counts(ents[|ents| - 1], i))
  }

  predicate Linked(x: Node) {
    x.kind == Dir && x.nlink > 0
  }

  function Weight(x: Node, i: nat): nat {
    if Linked(x) then CountIn(x.ents, i) else 0
  }

  /** How many entries of linked directories among the first n inodes name i. */
  function Count(nodes: seq<Node>, i: nat, n: nat): nat
    requires n <= |nodes|
  {
    if n == 0 then 0 else Count(nodes, i, n - 1) + Weight(nodes[n - 1], i)
  }

  lemma {:induction false} CountInUpdate(ents: seq<Dirent>, k: nat, e: Dirent, i: nat)
    requires k < |ents|
    ensures CountIn(ents[k := e], i) == CountIn(ents, i) - One(Counts(ents[k], i)) + One(Counts(e, i))
    decreases |ents|
  {
    var n := |ents| - 1;
    if k == n {
      assert ents[k := e][..n] == ents[..n];
    } else {
      assert ents[k := e][..n] == ents[..n][k := e];
      CountInUpdate(ents[..n], k, e, i);
    }
  }

  lemma {:induction false} CountInAppend(ents: seq<Dirent>, e: Dirent, i: nat)
    ensures CountIn(ents + [e], i) == CountIn(ents, i) + One(Counts(e, i))
  {
    assert (ents + [e])[..|ents|] == ents;
  }

  lemma {:induction false} CountUpdate(nodes: seq<Node>, d: nat, x: Node, i: nat, n: nat)
    requires d < |nodes| && n <= |nodes|
    ensures Count(nodes[d := x], i, n) == Count(nodes, i, n) + if d < n then Weight(x, i) as int - Weight(nodes[d], i)
            else 0
    decreases n
  {
    if n > 0 { CountUpdate(nodes, d, x, i, n - 1); }
  }

  lemma {:induction false} CountAtLeast(nodes: seq<Node>, i: nat, d: nat, n: nat)
    requires d < n <= |nodes|
    ensures Count(nodes, i, n) >= Weight(nodes[d], i)
    decreases n
  {
    if d < n - 1 { CountAtLeast(nodes, i, d, n - 1); }
  }

  lemma {:induction false} CountTwo(nodes: seq<Node>, i: nat, d: nat, e: nat, n: nat)
    requires d < n <= |nodes| && e < n && d != e
    ensures Count(nodes, i, n) >= Weight(nodes[d], i) + Weight(nodes[e], i)
    decreases n
  {
    if d == n - 1 {
      CountAtLeast(nodes, i, e, n - 1);
    } else if e == n - 1 {
      CountAtLeast(nodes, i, d, n - 1);
    } else {
      CountTwo(nodes, i, d, e, n - 1);
    }
  }

  lemma {:induction false} CountOnly(nodes: seq<Node>, i: nat, d: nat, n: nat)
    requires d < |nodes| && n <= |nodes| && forall e :: 0 <= e < n && e != d ==> Weight(nodes[e], i) == 0
    ensures Count(nodes, i, n) == if d < n then Weight(nodes[d], i) else 0
    decreases n
  {
    if n > 0 { CountOnly(nodes, i, d, n - 1); }
  }

  lemma {:induction false} InHas(ents: seq<Dirent>, i: nat, k: nat)
    requires k < |ents| && Counts(ents[k], i)
    ensures CountIn(ents, i) >= 1
    decreases |ents|
  {
    if k < |ents| - 1 { InHas(ents[..|ents| - 1], i, k); }
  }

  lemma {:induction false} InNone(ents: seq<Dirent>, i: nat)
    requires forall k :: 0 <= k < |ents| ==> !Counts(ents[k], i)
    ensures CountIn(ents, i) == 0
    decreases |ents|
  {
    if ents != [] { InNone(ents[..|ents| - 1], i); }
  }

  lemma {:induction false} InOnce(ents: seq<Dirent>, i: nat, k: nat)
    requires k < |ents| && Counts(ents[k], i) && forall j :: 0 <= j < |ents| && j != k ==> !Counts(ents[j], i)
    ensures CountIn(ents, i) == 1
    decreases |ents|
  {
    var rest := ents[..|ents| - 1];
    if k == |ents| - 1 {
      InNone(rest, i);
    } else {
      InOnce(rest, i, k);
    }
  }

  // ---------------------------------------------------------------- the invariant

  ghost predicate NodeOk(nodes: seq<Node>, pending: seq<nat>, d: nat)
    requires d < |nodes| == |pending|
  {
    var x := nodes[d];
    && x.nlink >= 0 && (d == 0 ==> x.kind == Free)
    && (x.kind == Free ==> x.nlink == 0 && pending[d] == 0)
    && (pending[d] > 0 ==> x.kind != Dir)
    && (x.kind != Dir ==> x.ents == []) && (x.kind == Dir && x.nlink == 0 ==> EmptyDir(x))
    && (x.kind == Dir ==> |x.ents| >= 2 && x.ents[0] == Dirent(d, ".") && x.ents[1].name == ".." && x.ents[1].inum != 0)
    && (forall k :: 0 <= k < |x.ents| ==> x.ents[k].inum < |nodes| && |x.ents[k].name| <= DIRSIZ)
  }

  /** No name is in a directory twice. */
  ghost predicate NamesOk(ents: seq<Dirent>) {
    forall j, k :: 0 <= j < k < |ents| && ents[j].inum != 0 && ents[k].inum != 0 ==> ents[j].name != ents[k].name
  }

  /** Entries past ".." name live inodes; a directory is entered once, in its parent. */
  ghost predicate EntriesOk(nodes: seq<Node>, d: nat)
    requires d < |nodes|
  {
    Linked(nodes[d]) ==>
      && (forall k :: 2 <= k < |nodes[d].ents| && nodes[d].ents[k].inum != 0 ==> EntryOk(nodes, d, nodes[d].ents[k]))
      && (forall j, k :: 2 <= j < k < |nodes[d].ents| && nodes[d].ents[j].inum == nodes[d].ents[k].inum != 0 ==>
            !IsDir(nodes, nodes[d].ents[j].inum))
  }

  predicate IsDir(nodes: seq<Node>, c: nat) {
    c < |nodes| && nodes[c].kind == Dir
  }

  ghost predicate EntryOk(nodes: seq<Node>, d: nat, e: Dirent) {
    && e.inum < |nodes| && nodes[e.inum].kind != Free
    && (IsDir(nodes, e.inum) ==> e.inum != ROOT && Linked(nodes[e.inum]) && Parent(nodes, e.inum) == d)
  }

  function Parent(nodes: seq<Node>, d: nat): nat {
    if IsDir(nodes, d) && |nodes[d].ents| >= 2 then nodes[d].ents[1].inum else 0
  }

  /** A linked directory is entered in its parent, which is linked. */
  ghost predicate NamedOk(nodes: seq<Node>, d: nat)
    requires d < |nodes|
  {
    Linked(nodes[d]) ==>
      var p := Parent(nodes, d);
      p < |nodes| && Linked(nodes[p]) && (if d == ROOT then p == ROOT else HasEntry(nodes[p].ents, d))
  }

  ghost predicate HasEntry(ents: seq<Dirent>, c: nat) {
    exists k :: 2 <= k < |ents| && ents[k].inum == c
  }

  ghost predicate Tree(nodes: seq<Node>, pending: seq<nat>) {
    && |nodes| == |pending| && ROOT < |nodes| && Linked(nodes[ROOT])
    && (forall d :: 0 <= d < |nodes| ==> NodeOk(nodes, pending, d))
    && (forall d :: 0 <= d < |nodes| ==> NamesOk(nodes[d].ents))
    && (forall d :: 0 <= d < |nodes| ==> EntriesOk(nodes, d))
    && (forall d :: 0 <= d < |nodes| ==> NamedOk(nodes, d))
  }

  /** Each link count is the number of entries that name the inode from linked directories, "." left out, plus the
      links that sys_link has counted and not yet entered. */
  ghost predicate LinksOk(nodes: seq<Node>, pending: seq<nat>) {
    |nodes| == |pending| && forall i :: 0 < i < |nodes| ==> nodes[i].nlink == Count(nodes, i, |nodes|) + pending[i]
  }

  ghost predicate Inv(nodes: seq<Node>, pending: seq<nat>) {
    Tree(nodes, pending) && LinksOk(nodes, pending)
  }

  // ---------------------------------------------------------------- entering and clearing

  /** The first empty slot; the end if there is none. */
  function FirstEmpty(ents: seq<Dirent>): (k: nat)
    ensures k <= |ents| && (k < |ents| ==> ents[k].inum == 0) && forall j :: 0 <= j < k ==> ents[j].inum != 0
  {
    if ents == [] || ents[0].inum == 0 then 0 else 1 + FirstEmpty(ents[1..])
  }

  function Entered(ents: seq<Dirent>, e: Dirent): (r: seq<Dirent>)
    ensures |ents| <= |r| && FirstEmpty(ents) < |r| && r[FirstEmpty(ents)] == e
    ensures forall j :: 0 <= j < |r| && j != FirstEmpty(ents) ==> j < |ents| && r[j] == ents[j]
  {
    if FirstEmpty(ents) < |ents| then ents[FirstEmpty(ents) := e] else ents + [e]
  }

  lemma {:induction false} CountEntered(ents: seq<Dirent>, e: Dirent, i: nat)
    requires i > 0
    ensures CountIn(Entered(ents, e), i) == CountIn(ents, i) + One(Counts(e, i))
  {
    if FirstEmpty(ents) < |ents| { CountInUpdate(ents, FirstEmpty(ents), e, i); } else { CountInAppend(ents, e, i); }
  }

  predicate Absent(ents: seq<Dirent>, name: string) {
    forall k :: 0 <= k < |ents| && ents[k].inum != 0 ==> ents[k].name != name
  }

  lemma {:induction false} NamesEntered(ents: seq<Dirent>, e: Dirent)
    requires NamesOk(ents) && Absent(ents, e.name)
    ensures NamesOk(Entered(ents, e))
  {
    hide Entered, FirstEmpty;
  }

  const CLEARED: Dirent := Dirent(0, "")

  lemma {:induction false} NamesCleared(ents: seq<Dirent>, k: nat)
    requires NamesOk(ents) && k < |ents|
    ensures NamesOk(ents[k := CLEARED])
  {
  }

  lemma {:induction false} TreeAt(nodes: seq<Node>, pending: seq<nat>, d: nat)
    requires Tree(nodes, pending) && d < |nodes|
    ensures |nodes| == |pending| && ROOT < |nodes| && Linked(nodes[ROOT])
    ensures NodeOk(nodes, pending, d) && NamesOk(nodes[d].ents) && EntriesOk(nodes, d) && NamedOk(nodes, d)
  {
  }

  ghost predicate NodeTree(nodes: seq<Node>, pending: seq<nat>, d: nat)
    requires d < |nodes| == |pending|
  {
    NodeOk(nodes, pending, d) && NamesOk(nodes[d].ents) && EntriesOk(nodes, d) && NamedOk(nodes, d)
  }

  lemma {:induction false} TreeIs(nodes: seq<Node>, pending: seq<nat>)
    requires |nodes| == |pending| && ROOT < |nodes| && Linked(nodes[ROOT]) && forall d :: 0 <= d < |nodes| ==>
               NodeTree(nodes, pending, d)
    ensures Tree(nodes, pending)
  {
    forall d | 0 <= d < |nodes|
      ensures NodeOk(nodes, pending, d) && NamesOk(nodes[d].ents) && EntriesOk(nodes, d) && NamedOk(nodes, d)
    {
      assert NodeTree(nodes, pending, d);
    }
  }

  /** The first two slots of a directory are taken. */
  lemma {:induction false} SlotPast(nodes: seq<Node>, pending: seq<nat>, d: nat)
    requires d < |nodes| == |pending| && NodeOk(nodes, pending, d) && nodes[d].kind == Dir
    ensures FirstEmpty(nodes[d].ents) >= 2
  {
    var k := FirstEmpty(nodes[d].ents);
    assert nodes[d].ents[0].inum != 0 && nodes[d].ents[1].inum != 0;
  }

  /** Nobody names a free inode. */
  lemma {:induction false} FreeUnnamed(nodes: seq<Node>, pending: seq<nat>, ip: nat, d: nat, k: nat)
    requires Tree(nodes, pending) && ip < |nodes| && nodes[ip].kind == Free && d < |nodes| && Linked(nodes[d])
             && 2 <= k < |nodes[d].ents|
    ensures ip > 0 ==> nodes[d].ents[k].inum != ip
  {
    TreeAt(nodes, pending, d);
    hide Tree;
    if nodes[d].ents[k].inum != 0 { assert EntryOk(nodes, d, nodes[d].ents[k]); }
  }

  // ---------------------------------------------------------------- entering an inode that is no directory

  /** The tree after an inode ip that is no directory is entered in dp. */
  ghost function WithEntry(nodes: seq<Node>, dp: nat, name: string, ip: nat, up: int): (r: seq<Node>)
    requires dp < |nodes|
    ensures |r| == |nodes|
  {
    nodes[dp := Node(nodes[dp].kind, nodes[dp].nlink + up, Entered(nodes[dp].ents, Dirent(ip, name)))]
  }

  lemma {:induction false} EnteredNode(nodes: seq<Node>, pending: seq<nat>, dp: nat, name: string, ip: nat, d: nat)
    requires Tree(nodes, pending) && dp < |nodes| && Linked(nodes[dp]) && 0 < ip < |nodes| && nodes[ip].kind != Free
             && nodes[ip].kind != Dir
    requires Absent(nodes[dp].ents, name) && |name| <= DIRSIZ && d < |nodes|
    ensures NodeTree(WithEntry(nodes, dp, name, ip, 0), pending, d)
  {
    TreeAt(nodes, pending, d);
    TreeAt(nodes, pending, dp);
    hide Tree;
    SlotPast(nodes, pending, dp);
    var nodes' := WithEntry(nodes, dp, name, ip, 0);
    NamesEntered(nodes[dp].ents, Dirent(ip, name));
    hide FirstEmpty, Entered;
    assert NodeOk(nodes', pending, d);
    EnteredEntries(nodes, nodes', dp, name, ip, d);
    EnteredNamed(nodes, nodes', dp, d);
  }

  lemma {:induction false} EnteredEntries(nodes: seq<Node>, nodes': seq<Node>, dp: nat, name: string, ip: nat, d: nat)
    requires dp < |nodes| && Linked(nodes[dp]) && 0 < ip < |nodes| && nodes[ip].kind != Free && nodes[ip].kind != Dir
             && d < |nodes|
    requires nodes' == WithEntry(nodes, dp, name, ip, 0) && EntriesOk(nodes, d) && FirstEmpty(nodes[dp].ents) >= 2
             && |nodes[dp].ents| >= 2
    ensures EntriesOk(nodes', d)
  {
    hide FirstEmpty, Entered;
    assert forall c :: IsDir(nodes', c) == IsDir(nodes, c);
    assert forall c :: 0 <= c < |nodes| ==>
             nodes'[c].kind == nodes[c].kind && Linked(nodes'[c]) == Linked(nodes[c])
             && Parent(nodes', c) == Parent(nodes, c);
    if Linked(nodes'[d]) {
      var ents, ents' := nodes[d].ents, nodes'[d].ents;
      forall k | 2 <= k < |ents'| && ents'[k].inum != 0
        ensures EntryOk(nodes', d, ents'[k])
      {
        if !(d == dp && k == FirstEmpty(nodes[dp].ents)) { assert EntryOk(nodes, d, ents[k]); }
      }
    }
  }

  lemma {:induction false} EnteredNamed(nodes: seq<Node>, nodes': seq<Node>, dp: nat, d: nat)
    requires |nodes'| == |nodes| && dp < |nodes| && d < |nodes| && NamedOk(nodes, d) && |nodes[dp].ents| >= 2
    requires forall c :: 0 <= c < |nodes| && c != dp ==> nodes'[c] == nodes[c]
    requires Linked(nodes[dp]) && Linked(nodes'[dp]) && |nodes'[dp].ents| >= |nodes[dp].ents|
             && nodes'[dp].ents[1] == nodes[dp].ents[1]
    requires forall k :: 0 <= k < |nodes[dp].ents| && nodes[dp].ents[k].inum != 0 ==>
               nodes'[dp].ents[k] == nodes[dp].ents[k]
    ensures d > 0 ==> NamedOk(nodes', d)
  {
    if Linked(nodes'[d]) && d > 0 {
      var p := Parent(nodes, d);
      if d != ROOT {
        var k :| 2 <= k < |nodes[p].ents| && nodes[p].ents[k].inum == d;
        assert nodes'[p].ents[k] == nodes[p].ents[k];
        assert HasEntry(nodes'[p].ents, d);
      }
    }
  }

  /** Inode i, no directory before or after, gets another type or count. */
  lemma {:induction false} PlainNode(nodes: seq<Node>, pending: seq<nat>, pending': seq<nat>, i: nat, x: Node, d: nat)
    requires Tree(nodes, pending) && 0 < i < |nodes| && nodes[i].kind != Dir && x.kind != Dir && x.ents == []
             && x.nlink >= 0
    requires |pending'| == |pending| && (x.kind == Free ==> x.nlink == 0 && pending'[i] == 0) && d < |nodes|
    requires forall j :: 0 <= j < |pending| && j != i ==> pending'[j] == pending[j]
    requires x.kind == Free ==>
               forall e, k :: 0 <= e < |nodes| && Linked(nodes[e]) && 2 <= k < |nodes[e].ents| ==>
                 nodes[e].ents[k].inum != i
    ensures NodeTree(nodes[i := x], pending', d)
  {
    TreeAt(nodes, pending, d);
    TreeAt(nodes, pending, i);
    hide Tree;
    var nodes' := nodes[i := x];
    assert forall c :: IsDir(nodes', c) == IsDir(nodes, c);
    assert forall c :: 0 <= c < |nodes| ==>
             Linked(nodes'[c]) == Linked(nodes[c]) && Parent(nodes', c) == Parent(nodes, c);
    if Linked(nodes'[d]) {
      forall k | 2 <= k < |nodes'[d].ents| && nodes'[d].ents[k].inum != 0
        ensures EntryOk(nodes', d, nodes'[d].ents[k])
      {
        assert EntryOk(nodes, d, nodes[d].ents[k]);
      }
      if d != ROOT {
        var p := Parent(nodes, d);
        assert HasEntry(nodes[p].ents, d);
        assert nodes'[p] == nodes[p];
      }
    }
  }

  lemma {:induction false} PlainTree(nodes: seq<Node>, pending: seq<nat>, pending': seq<nat>, i: nat, x: Node)
    requires Tree(nodes, pending) && 0 < i < |nodes| && nodes[i].kind != Dir && x.kind != Dir && x.ents == []
             && x.nlink >= 0
    requires |pending'| == |pending| && (x.kind == Free ==> x.nlink == 0 && pending'[i] == 0)
    requires forall j :: 0 <= j < |pending| && j != i ==> pending'[j] == pending[j]
    requires x.kind == Free ==>
               forall e, k :: 0 <= e < |nodes| && Linked(nodes[e]) && 2 <= k < |nodes[e].ents| ==>
                 nodes[e].ents[k].inum != i
    ensures Tree(nodes[i := x], pending')
  {
    TreeAt(nodes, pending, i);
    TreeAt(nodes, pending, ROOT);
    hide Tree, NodeTree;
    var nodes' := nodes[i := x];
    forall d | 0 <= d < |nodes'|
      ensures NodeTree(nodes', pending', d)
    {
      PlainNode(nodes, pending, pending', i, x, d);
    }
    TreeIs(nodes', pending');
  }

  lemma {:induction false} EnteredTree(nodes: seq<Node>, pending: seq<nat>, dp: nat, name: string, ip: nat)
    requires Tree(nodes, pending) && dp < |nodes| && Linked(nodes[dp]) && 0 < ip < |nodes| && nodes[ip].kind != Free
             && nodes[ip].kind != Dir
    requires Absent(nodes[dp].ents, name) && |name| <= DIRSIZ
    ensures Tree(WithEntry(nodes, dp, name, ip, 0), pending)
  {
    TreeAt(nodes, pending, ROOT);
    hide Tree, NodeTree, Entered;
    var nodes' := WithEntry(nodes, dp, name, ip, 0);
    forall d | 0 <= d < |nodes|
      ensures NodeTree(nodes', pending, d)
    {
      EnteredNode(nodes, pending, dp, name, ip, d);
    }
    TreeIs(nodes', pending);
  }

  // ---------------------------------------------------------------- link counts of each operation

  lemma {:induction false} LinkAt(nodes: seq<Node>, pending: seq<nat>, i: nat)
    requires LinksOk(nodes, pending) && 0 < i < |nodes|
    ensures nodes[i].nlink == Count(nodes, i, |nodes|) + pending[i]
  {
  }

  /** A name that is not there is not ".". */
  lemma {:induction false} NotDot(nodes: seq<Node>, pending: seq<nat>, dp: nat, name: string)
    requires Tree(nodes, pending) && dp < |nodes| && nodes[dp].kind == Dir && Absent(nodes[dp].ents, name)
    ensures name != "." && name != ".." && dp > 0
  {
    TreeAt(nodes, pending, dp);
    hide Tree;
    assert nodes[dp].ents[0].inum != 0 && nodes[dp].ents[1].inum != 0;
  }

  /** Counts after an entry for ip is made in dp, and dp's own count moves by `up`. */
  lemma {:induction false} CountWithEntry(nodes: seq<Node>, dp: nat, name: string, ip: nat, up: int, i: nat)
    requires dp < |nodes| && nodes[dp].kind == Dir && nodes[dp].nlink + up > 0 && i > 0 && name != "."
    ensures Linked(nodes[dp]) ==>
              Count(WithEntry(nodes, dp, name, ip, up), i, |nodes|) == Count(nodes, i, |nodes|) + One(i == ip)
    ensures !Linked(nodes[dp]) ==>
              Count(WithEntry(nodes, dp, name, ip, up), i, |nodes|) == Count(nodes, i,
              |nodes|) + CountIn(nodes[dp].ents, i) + One(i == ip)
  {
    hide Entered;
    CountEntered(nodes[dp].ents, Dirent(ip, name), i);
    CountUpdate(nodes, dp, WithEntry(nodes, dp, name, ip, up)[dp], i, |nodes|);
  }

  lemma {:induction false} CountPlain(nodes: seq<Node>, d: nat, x: Node, i: nat)
    requires d < |nodes| && !Linked(nodes[d]) && !Linked(x)
    ensures Count(nodes[d := x], i, |nodes|) == Count(nodes, i, |nodes|)
  {
    CountUpdate(nodes, d, x, i, |nodes|);
  }

  /** create of a file or device. */
  lemma {:induction false} FileMade(nodes: seq<Node>, pending: seq<nat>, dp: nat, name: string, ip: nat, kind: Kind)
    requires Inv(nodes, pending) && dp < |nodes| && nodes[dp].kind == Dir && 0 < ip < |nodes| && nodes[ip].kind == Free
             && (kind == File || kind == Device)
    requires Absent(nodes[dp].ents, name) && |name| <= DIRSIZ
    ensures var nodes' := WithEntry(nodes[ip := Node(kind, 1, [])], dp, name, ip, 0);
            && (Linked(nodes[dp]) ==> Inv(nodes', pending))
            && (LinksOk(nodes', pending) <==> Linked(nodes[dp]))
  {
    var nodes1 := nodes[ip := Node(kind, 1, [])];
    var nodes' := WithEntry(nodes1, dp, name, ip, 0);
    NotDot(nodes, pending, dp, name);
    TreeAt(nodes, pending, ip);
    TreeAt(nodes, pending, dp);
    hide Tree, Count, WithEntry, LinksOk;
    forall i: nat | 0 < i < |nodes|
      ensures Count(nodes', i, |nodes|) == Count(nodes, i, |nodes|) + if Linked(nodes[dp]) then One(i == ip) else 0
      ensures nodes[i].nlink == Count(nodes, i, |nodes|) + pending[i]
    {
      LinkAt(nodes, pending, i);
      CountPlain(nodes, ip, nodes1[ip], i);
      FileCount(nodes1, dp, name, ip, i);
    }
    LinksFile(nodes, pending, nodes', dp, ip, name);
    if Linked(nodes[dp]) {
      FreshTree(nodes, pending, ip, kind);
      EnteredTree(nodes1, pending, dp, name, ip);
    }
  }

  lemma {:induction false} FileCount(nodes: seq<Node>, dp: nat, name: string, ip: nat, i: nat)
    requires dp < |nodes| && nodes[dp].kind == Dir && i > 0 && name != "."
    ensures Count(WithEntry(nodes, dp, name, ip, 0), i, |nodes|) == Count(nodes, i, |nodes|) + if Linked(nodes[dp])
            then One(i == ip) else 0
  {
    if Linked(nodes[dp]) {
      CountWithEntry(nodes, dp, name, ip, 0, i);
    } else {
      CountPlain(nodes, dp, WithEntry(nodes, dp, name, ip, 0)[dp], i);
    }
  }

  lemma {:induction false} LinksFile(nodes: seq<Node>, pending: seq<nat>, nodes': seq<Node>, dp: nat, ip: nat,
      name: string)
    requires |nodes| == |pending| == |nodes'| && dp < |nodes| && 0 < ip < |nodes| && ip != dp && nodes'[ip].nlink == 1
             && nodes[ip].nlink == 0 && pending[ip] == 0
    requires forall i :: 0 <= i < |nodes| && i != ip ==> nodes'[i].nlink == nodes[i].nlink
    requires forall i :: 0 < i < |nodes| ==>
               Count(nodes', i, |nodes|) == Count(nodes, i, |nodes|) + if Linked(nodes[dp]) then One(i == ip) else 0
    requires forall i :: 0 < i < |nodes| ==> nodes[i].nlink == Count(nodes, i, |nodes|) + pending[i]
    ensures LinksOk(nodes', pending) <==> Linked(nodes[dp])
  {
    hide Count;
  }

  lemma {:induction false} FreshTree(nodes: seq<Node>, pending: seq<nat>, ip: nat, kind: Kind)
    requires Tree(nodes, pending) && 0 < ip < |nodes| && nodes[ip].kind == Free && (kind == File || kind == Device)
    ensures Tree(nodes[ip := Node(kind, 1, [])], pending)
  {
    TreeAt(nodes, pending, ip);
    hide Tree;
    PlainTree(nodes, pending, pending, ip, Node(kind, 1, []));
  }

  // ---------------------------------------------------------------- making a directory

  function NewDir(ip: nat, dp: nat): Node {
    Node(Dir, 1, [Dirent(ip, "."), Dirent(dp, "..")])
  }

  lemma {:induction false} NewDirCounts(ip: nat, dp: nat, i: nat)
    ensures Weight(NewDir(ip, dp), i) == One(i == dp)
  {
    var ents := NewDir(ip, dp).ents;
    assert ents[..1] == [Dirent(ip, ".")];
    assert ents[..1][..0] == [];
    assert CountIn(ents[..1], i) == 0;
  }

  ghost function WithDir(nodes: seq<Node>, dp: nat, name: string, ip: nat): (r: seq<Node>)
    requires dp < |nodes| && ip < |nodes|
    ensures |r| == |nodes|
  {
    WithEntry(nodes[ip := NewDir(ip, dp)], dp, name, ip, 1)
  }

  lemma {:induction false} DirNode(nodes: seq<Node>, pending: seq<nat>, dp: nat, name: string, ip: nat, d: nat)
    requires Tree(nodes, pending) && dp < |nodes| && Linked(nodes[dp]) && 0 < ip < |nodes| && nodes[ip].kind == Free
    requires Absent(nodes[dp].ents, name) && |name| <= DIRSIZ && d < |nodes|
    ensures NodeTree(WithDir(nodes, dp, name, ip), pending, d)
  {
    TreeAt(nodes, pending, d);
    TreeAt(nodes, pending, dp);
    TreeAt(nodes, pending, ip);
    SlotPast(nodes, pending, dp);
    var nodes' := WithDir(nodes, dp, name, ip);
    NamesEntered(nodes[dp].ents, Dirent(ip, name));
    assert Linked(nodes[d]) ==> forall k :: 2 <= k < |nodes[d].ents| ==> nodes[d].ents[k].inum != ip by {
      if Linked(nodes[d]) {
        forall k | 2 <= k < |nodes[d].ents| ensures nodes[d].ents[k].inum != ip { FreeUnnamed(nodes, pending, ip, d, k);
            }
      }
    }
    hide Tree, FirstEmpty, Entered;
    assert nodes'[ip] == NewDir(ip, dp);
    assert NodeOk(nodes', pending, d);
    DirEntries(nodes, nodes', dp, name, ip, d);
    if d == ip {
      assert HasEntry(nodes'[dp].ents, ip) by { assert nodes'[dp].ents[FirstEmpty(nodes[dp].ents)].inum == ip; }
    } else {
      DirNamed(nodes, nodes', dp, ip, d);
    }
  }

  lemma {:induction false} DirEntries(nodes: seq<Node>, nodes': seq<Node>, dp: nat, name: string, ip: nat, d: nat)
    requires dp < |nodes| && Linked(nodes[dp]) && 0 < ip < |nodes| && nodes[ip].kind == Free && d < |nodes|
             && ip != ROOT
    requires nodes' == WithDir(nodes, dp, name, ip) && EntriesOk(nodes, d) && FirstEmpty(nodes[dp].ents) >= 2
             && |nodes[dp].ents| >= 2
    requires Linked(nodes[d]) ==> forall k :: 2 <= k < |nodes[d].ents| ==> nodes[d].ents[k].inum != ip
    ensures EntriesOk(nodes', d)
  {
    hide FirstEmpty, Entered;
    assert nodes'[ip] == NewDir(ip, dp) && Parent(nodes', ip) == dp;
    assert forall c :: 0 <= c < |nodes| && c != ip ==>
             nodes'[c].kind == nodes[c].kind && Linked(nodes'[c]) == Linked(nodes[c])
             && Parent(nodes', c) == Parent(nodes, c);
    assert forall c :: c != ip ==> IsDir(nodes', c) == IsDir(nodes, c);
    if Linked(nodes'[d]) && d != ip {
      var ents, ents' := nodes[d].ents, nodes'[d].ents;
      forall k | 2 <= k < |ents'| && ents'[k].inum != 0
        ensures EntryOk(nodes', d, ents'[k])
      {
        if !(d == dp && k == FirstEmpty(nodes[dp].ents)) { assert EntryOk(nodes, d, ents[k]); }
      }
    }
  }

  lemma {:induction false} DirNamed(nodes: seq<Node>, nodes': seq<Node>, dp: nat, ip: nat, d: nat)
    requires |nodes'| == |nodes| && dp < |nodes| && d < |nodes| && ip < |nodes| && NamedOk(nodes, d)
             && |nodes[dp].ents| >= 2 && d != ip && !Linked(nodes[ip]) && ip != dp
    requires forall c :: 0 <= c < |nodes| && c != dp && c != ip ==> nodes'[c] == nodes[c]
    requires Linked(nodes[dp]) && Linked(nodes'[dp]) && |nodes'[dp].ents| >= |nodes[dp].ents|
             && nodes'[dp].ents[1] == nodes[dp].ents[1]
    requires forall k :: 0 <= k < |nodes[dp].ents| && nodes[dp].ents[k].inum != 0 ==>
               nodes'[dp].ents[k] == nodes[dp].ents[k]
    ensures d > 0 ==> NamedOk(nodes', d)
  {
    if Linked(nodes'[d]) && d > 0 {
      var p := Parent(nodes, d);
      assert p != ip;
      if d != ROOT {
        var k :| 2 <= k < |nodes[p].ents| && nodes[p].ents[k].inum == d;
        assert nodes'[p].ents[k] == nodes[p].ents[k];
        assert HasEntry(nodes'[p].ents, d);
      }
    }
  }

  lemma {:induction false} DirTree(nodes: seq<Node>, pending: seq<nat>, dp: nat, name: string, ip: nat)
    requires Tree(nodes, pending) && dp < |nodes| && Linked(nodes[dp]) && 0 < ip < |nodes| && nodes[ip].kind == Free
    requires Absent(nodes[dp].ents, name) && |name| <= DIRSIZ
    ensures Tree(WithDir(nodes, dp, name, ip), pending)
  {
    TreeAt(nodes, pending, ROOT);
    TreeAt(nodes, pending, ip);
    hide Tree, NodeTree, Entered;
    var nodes' := WithDir(nodes, dp, name, ip);
    forall d | 0 <= d < |nodes'|
      ensures NodeTree(nodes', pending, d)
    {
      DirNode(nodes, pending, dp, name, ip, d);
    }
    TreeIs(nodes', pending);
  }

  lemma {:induction false} DirCount(nodes: seq<Node>, dp: nat, name: string, ip: nat, i: nat)
    requires dp < |nodes| && nodes[dp].kind == Dir && nodes[dp].nlink >= 0 && ip < |nodes| && nodes[ip].kind == Free
             && i > 0 && name != "."
    ensures Count(WithDir(nodes, dp, name, ip), i, |nodes|)
            == Count(nodes, i, |nodes|) + One(i == dp) + One(i == ip) + if Linked(nodes[dp]) then 0
                else CountIn(nodes[dp].ents, i)
  {
    hide Count, CountIn, Entered;
    var nodes1 := nodes[ip := NewDir(ip, dp)];
    NewDirCounts(ip, dp, i);
    CountUpdate(nodes, ip, NewDir(ip, dp), i, |nodes|);
    CountWithEntry(nodes1, dp, name, ip, 1, i);
  }

  /** create of a directory. */
  lemma {:induction false} DirMade(nodes: seq<Node>, pending: seq<nat>, dp: nat, name: string, ip: nat)
    requires Inv(nodes, pending) && dp < |nodes| && nodes[dp].kind == Dir && 0 < ip < |nodes| && nodes[ip].kind == Free
    requires Absent(nodes[dp].ents, name) && |name| <= DIRSIZ
    ensures var nodes' := WithDir(nodes, dp, name, ip);
            && (Linked(nodes[dp]) ==> Inv(nodes', pending))
            && (LinksOk(nodes', pending) <==> Linked(nodes[dp]))
  {
    var nodes' := WithDir(nodes, dp, name, ip);
    NotDot(nodes, pending, dp, name);
    TreeAt(nodes, pending, ip);
    TreeAt(nodes, pending, dp);
    hide Tree, Count, CountIn, LinksOk, Entered;
    forall i: nat | 0 < i < |nodes|
      ensures Count(nodes', i, |nodes|) == Count(nodes, i, |nodes|) + One(i == dp) + One(i == ip) + if Linked(nodes[dp])
              then 0 else CountIn(nodes[dp].ents, i)
      ensures nodes[i].nlink == Count(nodes, i, |nodes|) + pending[i]
      ensures nodes'[i].nlink == nodes[i].nlink + One(i == dp) + One(i == ip)
    {
      LinkAt(nodes, pending, i);
      DirCount(nodes, dp, name, ip, i);
    }
    if Linked(nodes[dp]) {
      DirTree(nodes, pending, dp, name, ip);
      LinksAll(nodes', pending);
    } else {
      var pp := nodes[dp].ents[1].inum;
      InHas(nodes[dp].ents, pp, 1);
      LinksNot(nodes', pending, pp);
    }
  }

  lemma {:induction false} LinksAll(nodes: seq<Node>, pending: seq<nat>)
    requires |nodes| == |pending| && forall i :: 0 < i < |nodes| ==>
               nodes[i].nlink == Count(nodes, i, |nodes|) + pending[i]
    ensures LinksOk(nodes, pending)
  {
  }

  lemma {:induction false} LinksNot(nodes: seq<Node>, pending: seq<nat>, i: nat)
    requires |nodes| == |pending| && 0 < i < |nodes| && nodes[i].nlink != Count(nodes, i, |nodes|) + pending[i]
    ensures !LinksOk(nodes, pending)
  {
  }

  // ---------------------------------------------------------------- sys_link

  /** ip->nlink++, before the entry is made. */
  lemma {:induction false} LinkBegun(nodes: seq<Node>, pending: seq<nat>, i: nat)
    requires Inv(nodes, pending) && 0 < i < |nodes| && nodes[i].kind != Dir && nodes[i].kind != Free
    ensures Inv(nodes[i := Node(nodes[i].kind, nodes[i].nlink + 1, nodes[i].ents)], pending[i := pending[i] + 1])
  {
    PlainLinks(nodes, pending, i, 1);
  }

  /** ip->nlink--, when the entry cannot be made. */
  lemma {:induction false} LinkUndone(nodes: seq<Node>, pending: seq<nat>, i: nat)
    requires Inv(nodes, pending) && 0 < i < |nodes| && pending[i] > 0
    ensures Inv(nodes[i := Node(nodes[i].kind, nodes[i].nlink - 1, nodes[i].ents)], pending[i := pending[i] - 1])
  {
    TreeAt(nodes, pending, i);
    hide Tree;
    LinkAt(nodes, pending, i);
    PlainLinks(nodes, pending, i, -1);
  }

  lemma {:induction false} PlainLinks(nodes: seq<Node>, pending: seq<nat>, i: nat, n: int)
    requires Inv(nodes, pending) && 0 < i < |nodes| && nodes[i].kind != Dir && nodes[i].kind != Free
             && pending[i] + n >= 0 && nodes[i].nlink + n >= 0
    ensures Inv(nodes[i := Node(nodes[i].kind, nodes[i].nlink + n, nodes[i].ents)], pending[i := pending[i] + n])
  {
    TreeAt(nodes, pending, i);
    hide Tree, LinksOk, Count;
    var x := Node(nodes[i].kind, nodes[i].nlink + n, nodes[i].ents);
    var pending': seq<nat> := pending[i := pending[i] + n];
    PlainTree(nodes, pending, pending', i, x);
    forall j: nat | 0 < j < |nodes|
      ensures nodes[i := x][j].nlink == Count(nodes[i := x], j, |nodes|) + pending'[j]
    {
      LinkAt(nodes, pending, j);
      CountPlain(nodes, i, x, j);
    }
    LinksAll(nodes[i := x], pending');
  }

  /** The entry made by dirlink pays for the link counted before. */
  lemma {:induction false} LinkMade(nodes: seq<Node>, pending: seq<nat>, dp: nat, name: string, ip: nat)
    requires Inv(nodes, pending) && dp < |nodes| && nodes[dp].kind == Dir && 0 < ip < |nodes| && pending[ip] > 0
    requires Absent(nodes[dp].ents, name) && |name| <= DIRSIZ
    ensures var nodes', pending' := WithEntry(nodes, dp, name, ip, 0), pending[ip := pending[ip] - 1];
            && (Linked(nodes[dp]) ==> Inv(nodes', pending'))
            && (LinksOk(nodes', pending') <==> Linked(nodes[dp]))
  {
    NotDot(nodes, pending, dp, name);
    TreeAt(nodes, pending, ip);
    TreeAt(nodes, pending, dp);
    hide Tree, LinksOk, Count, WithEntry;
    var nodes': seq<Node>, pending': seq<nat> := WithEntry(nodes, dp, name, ip, 0), pending[ip := pending[ip] - 1];
    forall j: nat | 0 < j < |nodes|
      ensures nodes[j].nlink == Count(nodes, j, |nodes|) + pending[j]
      ensures Count(nodes', j, |nodes|) == Count(nodes, j, |nodes|) + if Linked(nodes[dp]) then One(j == ip) else 0
      ensures nodes'[j].nlink == nodes[j].nlink
    {
      LinkAt(nodes, pending, j);
      FileCount(nodes, dp, name, ip, j);
      SameLinks(nodes, dp, name, ip, j);
    }
    if Linked(nodes[dp]) {
      EnteredTree(nodes, pending, dp, name, ip);
      FewerPending(nodes', pending, ip);
      LinksAll(nodes', pending');
    } else {
      LinksNot(nodes', pending', ip);
    }
  }

  lemma {:induction false} SameLinks(nodes: seq<Node>, dp: nat, name: string, ip: nat, j: nat)
    requires dp < |nodes| && j < |nodes|
    ensures WithEntry(nodes, dp, name, ip, 0)[j].nlink == nodes[j].nlink
  {
  }

  lemma {:induction false} FewerPending(nodes: seq<Node>, pending: seq<nat>, i: nat)
    requires Tree(nodes, pending) && i < |nodes| && pending[i] > 0
    ensures Tree(nodes, pending[i := pending[i] - 1])
  {
    var pending': seq<nat> := pending[i := pending[i] - 1];
    TreeAt(nodes, pending, ROOT);
    forall d | 0 <= d < |nodes|
      ensures NodeTree(nodes, pending', d)
    {
      TreeAt(nodes, pending, d);
    }
    hide NodeTree, Tree;
    TreeIs(nodes, pending');
  }

  // ---------------------------------------------------------------- sys_unlink

  /** The slot cleared, the inode's count down by one, and the directory's too if the inode is a directory. */
  ghost function Unlinked(nodes: seq<Node>, dp: nat, k: nat): (r: seq<Node>)
    requires dp < |nodes| && k < |nodes[dp].ents| && nodes[dp].ents[k].inum < |nodes| && nodes[dp].ents[k].inum != dp
    ensures |r| == |nodes|
  {
    var ip, d := nodes[dp].ents[k].inum, nodes[dp];
    nodes[dp := Node(d.kind, d.nlink - One(nodes[ip].kind == Dir), d.ents[k := CLEARED])]
         [ip := Node(nodes[ip].kind, nodes[ip].nlink - 1, nodes[ip].ents)]
  }

  /** isdirempty */
  predicate EmptyDir(x: Node) {
    forall k :: 2 <= k < |x.ents| ==> x.ents[k].inum == 0
  }

  /** What sys_unlink may work on: an entry of a linked directory, past "." and "..". */
  ghost predicate Unlinkable(nodes: seq<Node>, pending: seq<nat>, dp: nat, k: nat) {
    && Inv(nodes, pending) && dp < |nodes| && Linked(nodes[dp]) && 2 <= k < |nodes[dp].ents|
        && nodes[dp].ents[k].inum != 0
    && (IsDir(nodes, nodes[dp].ents[k].inum) ==> EmptyDir(nodes[nodes[dp].ents[k].inum]))
  }

  lemma {:induction false} Target(nodes: seq<Node>, pending: seq<nat>, dp: nat, k: nat)
    requires Unlinkable(nodes, pending, dp, k)
    ensures var ip := nodes[dp].ents[k].inum;
            && 0 < ip < |nodes| && ip != dp && nodes[ip].kind != Free && nodes[dp].ents[k].name != "."
                && nodes[ip].nlink >= 1
            && (nodes[ip].kind == Dir ==> ip != ROOT && Linked(nodes[ip]) && Parent(nodes, ip) == dp)
  {
    TreeAt(nodes, pending, dp);
    var ip := nodes[dp].ents[k].inum;
    assert EntryOk(nodes, dp, nodes[dp].ents[k]);
    TreeAt(nodes, pending, ip);
    hide Tree, Count;
    assert nodes[dp].ents[0].name != nodes[dp].ents[k].name;
    LinkAt(nodes, pending, ip);
    InHas(nodes[dp].ents, ip, k);
    CountAtLeast(nodes, ip, dp, |nodes|);
    NotSelf(nodes, pending, dp, k);
  }

  /** A directory to be unlinked is not the one it is unlinked from. */
  lemma {:induction false} NotSelf(nodes: seq<Node>, pending: seq<nat>, dp: nat, k: nat)
    requires Unlinkable(nodes, pending, dp, k)
    ensures nodes[dp].ents[k].inum != dp
  {
    hide Inv;
    assert IsDir(nodes, dp);
  }

  /** An empty directory is named by its entry and by nothing else. */
  lemma {:induction false} OnlyName(nodes: seq<Node>, pending: seq<nat>, dp: nat, k: nat)
    requires Unlinkable(nodes, pending, dp, k) && IsDir(nodes, nodes[dp].ents[k].inum)
    ensures var ip := nodes[dp].ents[k].inum;
            0 < ip < |nodes| && Count(nodes, ip, |nodes|) == 1 && nodes[ip].nlink == 1 && pending[ip] == 0
  {
    var ip := nodes[dp].ents[k].inum;
    Target(nodes, pending, dp, k);
    hide LinksOk;
    forall d | 0 <= d < |nodes| && d != dp
      ensures Weight(nodes[d], ip) == 0
    {
      if Linked(nodes[d]) {
        ChildOnly(nodes, pending, dp, k, d);
        InNone(nodes[d].ents, ip);
      }
    }
    OnceHere(nodes, pending, dp, k);
    InOnce(nodes[dp].ents, ip, k);
    CountOnly(nodes, ip, dp, |nodes|);
    TreeAt(nodes, pending, ip);
    LinkAt(nodes, pending, ip);
  }

  lemma {:induction false} ChildOnly(nodes: seq<Node>, pending: seq<nat>, dp: nat, k: nat, d: nat)
    requires Unlinkable(nodes, pending, dp, k) && IsDir(nodes, nodes[dp].ents[k].inum) && d < |nodes| && d != dp
             && Linked(nodes[d])
    ensures forall j :: 0 <= j < |nodes[d].ents| ==> !Counts(nodes[d].ents[j], nodes[dp].ents[k].inum)
  {
    var ip := nodes[dp].ents[k].inum;
    Target(nodes, pending, dp, k);
    TreeAt(nodes, pending, d);
    TreeAt(nodes, pending, ip);
    hide Tree, LinksOk;
    assert !HasEntry(nodes[ip].ents, d);
    assert Parent(nodes, d) != ip;
    forall j | 0 <= j < |nodes[d].ents|
      ensures !Counts(nodes[d].ents[j], ip)
    {
      assert j >= 2 && nodes[d].ents[j].inum != 0 ==> EntryOk(nodes, d, nodes[d].ents[j]);
    }
  }

  lemma {:induction false} OnceHere(nodes: seq<Node>, pending: seq<nat>, dp: nat, k: nat)
    requires Unlinkable(nodes, pending, dp, k) && IsDir(nodes, nodes[dp].ents[k].inum)
    ensures Counts(nodes[dp].ents[k], nodes[dp].ents[k].inum)
    ensures forall j :: 0 <= j < |nodes[dp].ents| && j != k ==> !Counts(nodes[dp].ents[j], nodes[dp].ents[k].inum)
  {
    var ip := nodes[dp].ents[k].inum;
    Target(nodes, pending, dp, k);
    TreeAt(nodes, pending, dp);
    TreeAt(nodes, pending, ip);
    hide Tree, LinksOk;
    assert !HasEntry(nodes[ip].ents, dp);
    assert Parent(nodes, dp) != ip;
  }

  /** The parent of an empty directory stays linked when it loses the directory's "..". */
  lemma {:induction false} ParentStays(nodes: seq<Node>, pending: seq<nat>, dp: nat, k: nat)
    requires Unlinkable(nodes, pending, dp, k) && IsDir(nodes, nodes[dp].ents[k].inum)
    ensures nodes[dp].nlink >= 2 && dp > 0
  {
    var ip := nodes[dp].ents[k].inum;
    Target(nodes, pending, dp, k);
    TreeAt(nodes, pending, dp);
    TreeAt(nodes, pending, ip);
    hide Tree, Count, CountIn;
    LinkAt(nodes, pending, dp);
    InHas(nodes[ip].ents, dp, 1);
    var p := Parent(nodes, dp);
    if dp == ROOT {
      InHas(nodes[dp].ents, dp, 1);
      CountTwo(nodes, dp, ip, dp, |nodes|);
    } else {
      var j :| 2 <= j < |nodes[p].ents| && nodes[p].ents[j].inum == dp;
      EntryName(nodes, pending, p, j);
      InHas(nodes[p].ents, dp, j);
      assert p != ip;
      CountTwo(nodes, dp, ip, p, |nodes|);
    }
  }

  lemma {:induction false} EntryName(nodes: seq<Node>, pending: seq<nat>, p: nat, j: nat)
    requires Tree(nodes, pending) && p < |nodes| && nodes[p].kind == Dir && 2 <= j < |nodes[p].ents|
             && nodes[p].ents[j].inum != 0
    ensures nodes[p].ents[j].name != "."
  {
    TreeAt(nodes, pending, p);
    hide Tree;
    assert nodes[p].ents[0].name != nodes[p].ents[j].name;
  }

  lemma {:induction false} UnlinkedNode(nodes: seq<Node>, pending: seq<nat>, dp: nat, k: nat, d: nat)
    requires Unlinkable(nodes, pending, dp, k) && d < |nodes|
    requires var ip := nodes[dp].ents[k].inum; ip < |nodes| && ip != dp
    ensures |nodes| == |pending| && NodeTree(Unlinked(nodes, dp, k), pending, d)
  {
    Target(nodes, pending, dp, k);
    TreeAt(nodes, pending, d);
    TreeAt(nodes, pending, dp);
    var ip := nodes[dp].ents[k].inum;
    TreeAt(nodes, pending, ip);
    NamesCleared(nodes[dp].ents, k);
    var nodes' := Unlinked(nodes, dp, k);
    if IsDir(nodes, ip) {
      ParentStays(nodes, pending, dp, k);
      OnlyName(nodes, pending, dp, k);
    }
    UnlinkedEntries(nodes, pending, dp, k, d);
    UnlinkedNamed(nodes, pending, dp, k, d);
    hide Tree, LinksOk, EntriesOk, NamedOk;
    assert NodeOk(nodes', pending, d);
  }

  lemma {:induction false} UnlinkedLinked(nodes: seq<Node>, pending: seq<nat>, dp: nat, k: nat, d: nat)
    requires Unlinkable(nodes, pending, dp, k) && d < |nodes|
    requires var ip := nodes[dp].ents[k].inum; ip < |nodes| && ip != dp
    ensures var ip, nodes' := nodes[dp].ents[k].inum, Unlinked(nodes, dp, k);
            && nodes'[d].kind == nodes[d].kind && Parent(nodes', d) == Parent(nodes, d)
            && (Linked(nodes'[d]) <==> Linked(nodes[d]) && d != ip)
  {
    Target(nodes, pending, dp, k);
    var ip := nodes[dp].ents[k].inum;
    TreeAt(nodes, pending, dp);
    if IsDir(nodes, ip) {
      ParentStays(nodes, pending, dp, k);
      OnlyName(nodes, pending, dp, k);
    }
    hide Tree, LinksOk, EntriesOk, NamedOk;
  }

  lemma {:induction false} UnlinkedEntries(nodes: seq<Node>, pending: seq<nat>, dp: nat, k: nat, d: nat)
    requires Unlinkable(nodes, pending, dp, k) && d < |nodes|
    requires var ip := nodes[dp].ents[k].inum; ip < |nodes| && ip != dp
    ensures EntriesOk(Unlinked(nodes, dp, k), d)
  {
    Target(nodes, pending, dp, k);
    TreeAt(nodes, pending, d);
    TreeAt(nodes, pending, dp);
    var ip, nodes' := nodes[dp].ents[k].inum, Unlinked(nodes, dp, k);
    forall c | 0 <= c < |nodes|
      ensures nodes'[c].kind == nodes[c].kind && Parent(nodes', c) == Parent(nodes, c)
              && (Linked(nodes'[c]) <==> Linked(nodes[c]) && c != ip)
    {
      UnlinkedLinked(nodes, pending, dp, k, c);
    }
    hide Tree, LinksOk, NamedOk, NodeOk;
    assert forall c :: IsDir(nodes', c) == IsDir(nodes, c);
    if Linked(nodes'[d]) {
      var ents, ents' := nodes[d].ents, nodes'[d].ents;
      assert ents' == if d == dp then ents[k := CLEARED] else ents;
      hide Unlinked;
      forall j | 2 <= j < |ents'| && ents'[j].inum != 0
        ensures EntryOk(nodes', d, ents'[j])
      {
        assert EntryOk(nodes, d, ents[j]);
        assert IsDir(nodes, ents[j].inum) && ents[j].inum == ip ==> d == dp && j == k;
      }
    }
  }

  lemma {:induction false} UnlinkedNamed(nodes: seq<Node>, pending: seq<nat>, dp: nat, k: nat, d: nat)
    requires Unlinkable(nodes, pending, dp, k) && d < |nodes|
    requires var ip := nodes[dp].ents[k].inum; ip < |nodes| && ip != dp
    ensures NamedOk(Unlinked(nodes, dp, k), d)
  {
    Target(nodes, pending, dp, k);
    TreeAt(nodes, pending, d);
    var ip, nodes' := nodes[dp].ents[k].inum, Unlinked(nodes, dp, k);
    UnlinkedLinked(nodes, pending, dp, k, d);
    if Linked(nodes'[d]) {
      var p := Parent(nodes, d);
      TreeAt(nodes, pending, p);
      UnlinkedLinked(nodes, pending, dp, k, p);
      hide Tree, LinksOk, EntriesOk;
      if d != ROOT {
        var j :| 2 <= j < |nodes[p].ents| && nodes[p].ents[j].inum == d;
        assert p != ip;
        assert !(p == dp && j == k);
        assert nodes'[p].ents[j] == nodes[p].ents[j];
        assert HasEntry(nodes'[p].ents, d);
      }
    }
  }

  lemma {:induction false} UnlinkedTree(nodes: seq<Node>, pending: seq<nat>, dp: nat, k: nat)
    requires Unlinkable(nodes, pending, dp, k)
    requires var ip := nodes[dp].ents[k].inum; ip < |nodes| && ip != dp
    ensures Tree(Unlinked(nodes, dp, k), pending)
  {
    TreeAt(nodes, pending, ROOT);
    Target(nodes, pending, dp, k);
    UnlinkedLinked(nodes, pending, dp, k, ROOT);
    hide Inv, NodeTree;
    var nodes' := Unlinked(nodes, dp, k);
    forall d | 0 <= d < |nodes'|
      ensures NodeTree(nodes', pending, d)
    {
      UnlinkedNode(nodes, pending, dp, k, d);
    }
    TreeIs(nodes', pending);
  }

  /** Clearing one slot and taking a directory out of the tree, in terms of what each counts for. */
  lemma {:induction false} UnlinkedCount(nodes: seq<Node>, pending: seq<nat>, dp: nat, k: nat, i: nat)
    requires Unlinkable(nodes, pending, dp, k) && i > 0
    requires var ip := nodes[dp].ents[k].inum; ip < |nodes| && ip != dp
    ensures var ip := nodes[dp].ents[k].inum;
            Count(Unlinked(nodes, dp, k), i, |nodes|) == Count(nodes, i,
                |nodes|) - One(i == ip) - One(nodes[ip].kind == Dir && i == dp)
  {
    var ip := nodes[dp].ents[k].inum;
    var d := nodes[dp];
    var x := Node(d.kind, d.nlink - One(nodes[ip].kind == Dir), d.ents[k := CLEARED]);
    var y := Node(nodes[ip].kind, nodes[ip].nlink - 1, nodes[ip].ents);
    Target(nodes, pending, dp, k);
    TreeAt(nodes, pending, ip);
    CountInUpdate(d.ents, k, CLEARED, i);
    CountUpdate(nodes, dp, x, i, |nodes|);
    CountUpdate(nodes[dp := x], ip, y, i, |nodes|);
    if nodes[ip].kind == Dir {
      ParentStays(nodes, pending, dp, k);
      OnlyName(nodes, pending, dp, k);
      hide Tree, LinksOk, Count;
      EmptyCounts(nodes[ip].ents, ip, dp, i);
    } else {
      hide Tree, LinksOk, Count;
    }
  }

  /** All that an empty directory counts for is its parent. */
  lemma {:induction false} EmptyCounts(ents: seq<Dirent>, ip: nat, dp: nat, i: nat)
    requires |ents| >= 2 && ents[0].name == "." && ents[1] == Dirent(dp, "..") && i > 0
    requires forall k :: 2 <= k < |ents| ==> ents[k].inum == 0
    ensures CountIn(ents, i) == One(i == dp)
  {
    if i == dp { InOnce(ents, i, 1); } else { InNone(ents, i); }
  }

  /** sys_unlink keeps every count right, and an unlinked directory ends at 0. */
  lemma {:induction false} UnlinkKeeps(nodes: seq<Node>, pending: seq<nat>, dp: nat, k: nat)
    requires Unlinkable(nodes, pending, dp, k)
    ensures var ip := nodes[dp].ents[k].inum;
            && ip < |nodes| && ip != dp && nodes[ip].nlink >= 1
            && Inv(Unlinked(nodes, dp, k), pending) && (nodes[ip].kind == Dir ==> Unlinked(nodes, dp, k)[ip].nlink == 0)
  {
    Target(nodes, pending, dp, k);
    var ip := nodes[dp].ents[k].inum;
    UnlinkedTree(nodes, pending, dp, k);
    if IsDir(nodes, ip) { OnlyName(nodes, pending, dp, k); }
    var nodes' := Unlinked(nodes, dp, k);
    hide Tree, Count;
    forall i: nat | 0 < i < |nodes|
      ensures nodes'[i].nlink == Count(nodes', i, |nodes|) + pending[i]
    {
      LinkAt(nodes, pending, i);
      UnlinkedCount(nodes, pending, dp, k, i);
    }
    LinksAll(nodes', pending);
  }

  // ---------------------------------------------------------------- iput

  /** An inode without links is named nowhere. */
  lemma {:induction false} Unnamed(nodes: seq<Node>, pending: seq<nat>, i: nat, d: nat, k: nat)
    requires Inv(nodes, pending) && 0 < i < |nodes| && nodes[i].nlink == 0 && d < |nodes| && Linked(nodes[d])
             && 2 <= k < |nodes[d].ents|
    ensures nodes[d].ents[k].inum != i
  {
    LinkAt(nodes, pending, i);
    if nodes[d].ents[k].inum == i {
      EntryName(nodes, pending, d, k);
      InHas(nodes[d].ents, i, k);
      CountAtLeast(nodes, i, d, |nodes|);
    }
    hide Tree, Count;
  }

  /** iput frees an inode with no links and no other user. */
  lemma {:induction false} FreeKeeps(nodes: seq<Node>, pending: seq<nat>, i: nat)
    requires Inv(nodes, pending) && 0 < i < |nodes| && nodes[i].nlink == 0 && pending[i] == 0
    ensures Inv(nodes[i := Node(Free, 0, [])], pending)
  {
    hide Tree, Count, LinksOk;
    var x := Node(Free, 0, []);
    var nodes' := nodes[i := x];
    TreeAt(nodes, pending, i);
    forall d, k | 0 <= d < |nodes| && Linked(nodes[d]) && 2 <= k < |nodes[d].ents|
      ensures nodes[d].ents[k].inum != i
    {
      Unnamed(nodes, pending, i, d, k);
    }
    if nodes[i].kind == Dir {
      FreeDirTree(nodes, pending, i);
    } else {
      PlainTree(nodes, pending, pending, i, x);
    }
    forall j: nat | 0 < j < |nodes|
      ensures nodes'[j].nlink == Count(nodes', j, |nodes|) + pending[j]
    {
      LinkAt(nodes, pending, j);
      CountPlain(nodes, i, x, j);
    }
    LinksAll(nodes', pending);
  }

  lemma {:induction false} FreeDirTree(nodes: seq<Node>, pending: seq<nat>, i: nat)
    requires Tree(nodes, pending) && 0 < i < |nodes| && nodes[i].kind == Dir && nodes[i].nlink == 0 && pending[i] == 0
    requires forall d, k :: 0 <= d < |nodes| && Linked(nodes[d]) && 2 <= k < |nodes[d].ents| ==>
               nodes[d].ents[k].inum != i
    ensures Tree(nodes[i := Node(Free, 0, [])], pending)
  {
    var nodes' := nodes[i := Node(Free, 0, [])];
    TreeAt(nodes, pending, ROOT);
    forall d | 0 <= d < |nodes'|
      ensures NodeTree(nodes', pending, d)
    {
      FreeDirNode(nodes, pending, i, d);
    }
    hide Tree, NodeTree;
    TreeIs(nodes', pending);
  }

  lemma {:induction false} FreeDirNode(nodes: seq<Node>, pending: seq<nat>, i: nat, d: nat)
    requires Tree(nodes, pending) && 0 < i < |nodes| && nodes[i].kind == Dir && nodes[i].nlink == 0 && pending[i] == 0
             && d < |nodes|
    requires forall d, k :: 0 <= d < |nodes| && Linked(nodes[d]) && 2 <= k < |nodes[d].ents| ==>
               nodes[d].ents[k].inum != i
    ensures |nodes| == |pending| && NodeTree(nodes[i := Node(Free, 0, [])], pending, d)
  {
    TreeAt(nodes, pending, d);
    TreeAt(nodes, pending, i);
    hide Tree;
    var nodes' := nodes[i := Node(Free, 0, [])];
    assert forall c :: c != i ==> IsDir(nodes', c) == IsDir(nodes, c);
    assert forall c :: 0 <= c < |nodes| ==> Linked(nodes'[c]) == Linked(nodes[c]);
    assert forall c :: 0 <= c < |nodes| && c != i ==> Parent(nodes', c) == Parent(nodes, c);
    if Linked(nodes'[d]) {
      forall k | 2 <= k < |nodes'[d].ents| && nodes'[d].ents[k].inum != 0
        ensures EntryOk(nodes', d, nodes'[d].ents[k])
      {
        assert EntryOk(nodes, d, nodes[d].ents[k]);
      }
      if d != ROOT {
        var p := Parent(nodes, d);
        assert HasEntry(nodes[p].ents, d);
        assert nodes'[p] == nodes[p];
      }
    }
  }

  // ---------------------------------------------------------------- where it starts

  function MkfsNode(i: nat): Node {
    if i == ROOT then Node(Dir, 1, [Dirent(ROOT, "."), Dirent(ROOT, "..")]) else Node(Free, 0, [])
  }

  /** A disk with the root directory alone, as mkfs makes it before it adds files. */
  lemma {:induction false} MkfsOk(n: nat)
    requires n > ROOT
    ensures Inv(seq(n, i requires 0 <= i < n => MkfsNode(i)), seq(n, _ => 0))
  {
    var nodes, pending := seq(n, i requires 0 <= i < n => MkfsNode(i)), seq(n, _ => 0);
    forall i: nat | 0 < i < n
      ensures nodes[i].nlink == Count(nodes, i, n) + pending[i]
    {
      CountOnly(nodes, i, ROOT, n);
      NewDirCounts(ROOT, ROOT, i);
    }
    LinksAll(nodes, pending);
  }

  // ---------------------------------------------------------------- the code

  lemma {:induction false} FirstEmptyIs(ents: seq<Dirent>, k: nat)
    requires k <= |ents| && (k < |ents| ==> ents[k].inum == 0) && forall j :: 0 <= j < k ==> ents[j].inum != 0
    ensures FirstEmpty(ents) == k
  {
    var f := FirstEmpty(ents);
    assert !(f < k) && !(k < f);
  }

  datatype Outcome = Found(ip: nat) | Made(ip: nat) | Failed

  /** dirlink can enter a name: it is not there, and there is an empty slot or the directory can grow. */
  predicate CanEnter(ents: seq<Dirent>, name: string, room: bool) {
    Absent(ents, name) && (FirstEmpty(ents) < |ents| || room)
  }

  predicate HasFree(nodes: seq<Node>) {
    exists i :: 0 < i < |nodes| && nodes[i].kind == Free
  }

  predicate FirstFree(nodes: seq<Node>, i: nat) {
    0 < i < |nodes| && nodes[i].kind == Free && forall j :: 0 < j < i ==> nodes[j].kind != Free
  }

  /** The name stands for file or device c in directory d. */
  ghost predicate NamesFile(nodes: seq<Node>, d: nat, name: string, c: nat) {
    && d < |nodes| && 0 < c < |nodes| && (nodes[c].kind == File || nodes[c].kind == Device)
    && exists k :: 0 <= k < |nodes[d].ents| && nodes[d].ents[k] == Dirent(c, name)
  }

  function Bumped(nodes: seq<Node>, d: nat, nlink: int): seq<Node>
    requires d < |nodes|
  {
    nodes[d := Node(nodes[d].kind, nlink, nodes[d].ents)]
  }

  /** A count that has wrapped is no number of entries. */
  lemma {:induction false} Overflown(nodes: seq<Node>, pending: seq<nat>, d: nat)
    requires 0 < d < |nodes| && nodes[d].nlink < 0
    ensures !LinksOk(nodes, pending)
  {
    assert |nodes| == |pending| ==> nodes[d].nlink != Count(nodes, d, |nodes|) + pending[d];
  }

  /** Slot k of directory dp has the name, and names no directory that is not empty. */
  ghost predicate Removable(nodes: seq<Node>, dp: nat, k: nat, name: string) {
    && dp < |nodes| && k < |nodes[dp].ents| && nodes[dp].ents[k].inum != 0 && nodes[dp].ents[k].name == name
    && (IsDir(nodes, nodes[dp].ents[k].inum) ==> EmptyDir(nodes[nodes[dp].ents[k].inum]))
  }

  class Namespace {
    var nodes: seq<Node>
    ghost var pending: seq<nat>        // links that sys_link has counted and not yet entered

    ghost predicate Valid()
      reads this
    {
      Inv(nodes, pending)
    }

    constructor (nodes: seq<Node>, ghost pending: seq<nat>)
      requires Inv(nodes, pending)
      ensures Valid() && this.nodes == nodes && this.pending == pending
    {
      this.nodes, this.pending := nodes, pending;
    }

    /** The first slot that has a name. */
    method DirLookup(d: nat, name: string) returns (r: Option<nat>)
      requires d < |nodes|
      ensures r.Some? ==>
                r.value < |nodes[d].ents| && nodes[d].ents[r.value].inum != 0
                && nodes[d].ents[r.value].name == Short(name)
      ensures r.Some? ==>
                forall k :: 0 <= k < r.value && nodes[d].ents[k].inum != 0 ==> nodes[d].ents[k].name != Short(name)
      ensures r.None? <==> Absent(nodes[d].ents, Short(name))
    {
      var off := 0;
      while off < |nodes[d].ents|
        invariant 0 <= off <= |nodes[d].ents|
        invariant forall k :: 0 <= k < off && nodes[d].ents[k].inum != 0 ==> nodes[d].ents[k].name != Short(name)
      {
        if nodes[d].ents[off].inum != 0 && nodes[d].ents[off].name == Short(name) {
          return Some(off);
        }
        off := off + 1;
      }
      return None;
    }

    /** Enters (name, inum) in d; room says whether the directory can grow if it has to. */
    method DirLink(d: nat, name: string, inum: nat, room: bool) returns (ok: bool)
      requires d < |nodes|
      modifies this`nodes
      ensures ok <==> CanEnter(old(nodes)[d].ents, Short(name), room)
      ensures nodes == if ok then WithEntry(old(nodes), d, Short(name), inum, 0) else old(nodes)
    {
      var found := DirLookup(d, name);
      if found.Some? {
        return false;
      }
      var ents := nodes[d].ents;
      var off := 0;
      while off < |ents|
        invariant 0 <= off <= |ents| && forall k :: 0 <= k < off ==> ents[k].inum != 0
      {
        if ents[off].inum == 0 {
          break;
        }
        off := off + 1;
      }
      FirstEmptyIs(ents, off);
      var de := Dirent(inum, Short(name));
      if off < |ents| {
        nodes := nodes[d := Node(nodes[d].kind, nodes[d].nlink, ents[off := de])];
      } else if room {
        nodes := nodes[d := Node(nodes[d].kind, nodes[d].nlink, ents + [de])];
      } else {
        return false;
      }
      return true;
    }

    /** The first free inode, from 1 on. */
    method Ialloc() returns (r: Option<nat>)
      requires |nodes| > 0
      ensures r.Some? ==> FirstFree(nodes, r.value)
      ensures r.None? ==> !HasFree(nodes)
    {
      var inum := 1;
      while inum < |nodes|
        invariant 1 <= inum <= |nodes| && forall i :: 0 < i < inum ==> nodes[i].kind != Free
      {
        if nodes[inum].kind == Free {
          return Some(inum);
        }
        inum := inum + 1;
      }
      return None;
    }

    /** create of a file or a device, in directory dp. */
    method CreateFile(dp: nat, name: string, kind: Kind, room: bool) returns (r: Outcome)
      requires Valid() && dp < |nodes| && nodes[dp].kind == Dir && (kind == File || kind == Device)
      modifies this`nodes
      ensures r.Made? || nodes == old(nodes)
      ensures r.Found? ==> kind == File && NamesFile(nodes, dp, Short(name), r.ip)
      ensures r.Failed? && kind == File ==> forall c: nat :: !NamesFile(nodes, dp, Short(name), c)
      ensures r.Made? <==> CanEnter(old(nodes)[dp].ents, Short(name), room) && HasFree(old(nodes))
      ensures r.Made? ==>
                && |nodes| == |old(nodes)| && FirstFree(old(nodes), r.ip)
                && nodes == WithEntry(old(nodes)[r.ip := Node(kind, 1, [])], dp, Short(name), r.ip, 0)
                && (LinksOk(nodes, pending) <==> Linked(old(nodes)[dp]))
      ensures Linked(old(nodes)[dp]) ==> Valid()
    {
      hide Tree, LinksOk, Count, Entered;
      TreeAt(nodes, pending, dp);
      ghost var nodes0 := nodes;
      var off := DirLookup(dp, name);
      if off.Some? {
        var ip := nodes[dp].ents[off.value].inum;
        if kind == File && (nodes[ip].kind == File || nodes[ip].kind == Device) {
          return Found(ip);
        }
        return Failed;
      }
      var a := Ialloc();
      if a.None? {
        return Failed;
      }
      var ip := a.value;
      TreeAt(nodes, pending, ip);
      FileMade(nodes, pending, dp, Short(name), ip, kind);
      nodes := nodes[ip := Node(kind, 1, [])];
      var ok := DirLink(dp, name, ip, room);
      if !ok {
        nodes := nodes[ip := Node(Free, 0, [])];       // ip->nlink = 0, and iput
        assert nodes == nodes0;
        return Failed;
      }
      return Made(ip);
    }

    /** create of a directory, in directory dp; each dirlink may lack room.  The counts stay right if and only if dp
        is linked and its nlink does not overflow. */
    method CreateDir(dp: nat, name: string, room0: bool, room1: bool, room2: bool) returns (r: Outcome)
      requires Valid() && dp < |nodes| && nodes[dp].kind == Dir
      modifies this`nodes
      ensures r.Failed? || r.Made?
      ensures r.Failed? ==> nodes == old(nodes)
      ensures r.Made? <==> CanEnter(old(nodes)[dp].ents, Short(name), room2) && HasFree(old(nodes)) && room0 && room1
      ensures r.Made? ==>
                && |nodes| == |old(nodes)| && FirstFree(old(nodes), r.ip)
                && nodes == Bumped(WithDir(old(nodes), dp, Short(name), r.ip), dp, Bump(old(nodes)[dp].nlink))
                && (LinksOk(nodes, pending) <==> Linked(old(nodes)[dp]) && old(nodes)[dp].nlink != MAXLINK)
      ensures r.Failed? || (Linked(old(nodes)[dp]) && old(nodes)[dp].nlink != MAXLINK) ==> Valid()
    {
      hide Tree, LinksOk, Count, Entered;
      TreeAt(nodes, pending, dp);
      ghost var nodes0 := nodes;
      var off := DirLookup(dp, name);
      if off.Some? {
        return Failed;
      }
      var a := Ialloc();
      if a.None? {
        return Failed;
      }
      var ip := a.value;
      TreeAt(nodes, pending, ip);
      DirMade(nodes, pending, dp, Short(name), ip);
      nodes := nodes[ip := Node(Dir, 1, [])];
      TwoEntries(nodes, ip, dp);
      var ok := DirLink(ip, ".", ip, room0);
      if ok {
        ok := DirLink(ip, "..", dp, room1);
        if ok {
          assert nodes == nodes0[ip := NewDir(ip, dp)];
          ok := DirLink(dp, name, ip, room2);
        }
      }
      if !ok {
        nodes := nodes[ip := Node(Free, 0, [])];       // ip->nlink = 0, and iput
        assert nodes == nodes0;
        return Failed;
      }
      nodes := nodes[dp := Node(Dir, Bump(nodes[dp].nlink), nodes[dp].ents)];
      if nodes0[dp].nlink == MAXLINK {
        Overflown(nodes, pending, dp);
      } else {
        assert nodes == WithDir(nodes0, dp, Short(name), ip);
      }
      return Made(ip);
    }

    /** sys_link up to iunlock(ip). */
    method LinkBegin(ip: nat) returns (ok: bool)
      requires Valid() && 0 < ip < |nodes| && nodes[ip].kind != Free
      modifies this
      ensures ok == (old(nodes)[ip].kind != Dir) && |old(pending)| == |old(nodes)|
      ensures Valid() <==> !ok || old(nodes)[ip].nlink != MAXLINK
      ensures nodes == if ok then Bumped(old(nodes), ip, Bump(old(nodes)[ip].nlink)) else old(nodes)
      ensures pending == if ok then old(pending)[ip := old(pending)[ip] + 1] else old(pending)
    {
      hide Tree, LinksOk;
      TreeAt(nodes, pending, ip);
      if nodes[ip].kind == Dir {
        return false;
      }
      LinkBegun(nodes, pending, ip);
      nodes := nodes[ip := Node(nodes[ip].kind, Bump(nodes[ip].nlink), nodes[ip].ents)];
      pending := pending[ip := pending[ip] + 1];
      if nodes[ip].nlink < 0 { Overflown(nodes, pending, ip); }
      return true;
    }

    /** The rest of sys_link; dp is what nameiparent found, if anything. */
    method LinkEnd(ip: nat, dp: Option<nat>, name: string, room: bool) returns (ok: bool)
      requires Valid() && 0 < ip < |nodes| && |pending| == |nodes| && pending[ip] > 0
               && (dp.Some? ==> dp.value < |nodes| && nodes[dp.value].kind == Dir)
      modifies this
      ensures |pending| == |nodes| == |old(nodes)| && pending == old(pending)[ip := old(pending)[ip] - 1]
      ensures ok <==> dp.Some? && CanEnter(old(nodes)[dp.value].ents, Short(name), room)
      ensures !ok ==> Valid() && nodes == old(nodes)[ip := Node(old(nodes)[ip].kind, old(nodes)[ip].nlink - 1,
              old(nodes)[ip].ents)]
      ensures ok ==>
                && nodes == WithEntry(old(nodes), dp.value, Short(name), ip, 0)
                && (LinksOk(nodes, pending) <==> Linked(old(nodes)[dp.value]))
                    && (Linked(old(nodes)[dp.value]) ==> Valid())
    {
      hide Tree, LinksOk, Entered;
      TreeAt(nodes, pending, ip);
      if dp.Some? {
        if Absent(nodes[dp.value].ents, Short(name)) { LinkMade(nodes, pending, dp.value, Short(name), ip); }
        ok := DirLink(dp.value, name, ip, room);
        if ok {
          pending := pending[ip := pending[ip] - 1];
          return;
        }
      }
      LinkUndone(nodes, pending, ip);
      nodes := nodes[ip := Node(nodes[ip].kind, nodes[ip].nlink - 1, nodes[ip].ents)];
      pending := pending[ip := pending[ip] - 1];
      return false;
    }

    method IsDirEmpty(ip: nat) returns (b: bool)
      requires ip < |nodes|
      ensures b == EmptyDir(nodes[ip])
    {
      var off := 2;
      while off < |nodes[ip].ents|
        invariant forall k :: 2 <= k < off && k < |nodes[ip].ents| ==> nodes[ip].ents[k].inum == 0
      {
        if nodes[ip].ents[off].inum != 0 {
          return false;
        }
        off := off + 1;
      }
      return true;
    }

    /** sys_unlink of a name in directory dp.  The panic on nlink < 1 cannot happen. */
    method Unlink(dp: nat, name: string) returns (ok: bool)
      requires Valid() && dp < |nodes| && nodes[dp].kind == Dir
      modifies this`nodes
      ensures Valid()
      ensures !ok ==> nodes == old(nodes)
      ensures ok <==>
                Short(name) != "." && Short(name) != ".." && exists k: nat :: Removable(old(nodes), dp, k, Short(name))
      ensures ok ==> exists k: nat ::
                && Unlinkable(old(nodes), pending, dp, k) && old(nodes)[dp].ents[k].name == Short(name)
                && old(nodes)[dp].ents[k].inum < |nodes| && old(nodes)[dp].ents[k].inum != dp
                && nodes == Unlinked(old(nodes), dp, k)
    {
      hide Tree, LinksOk, Count;
      TreeAt(nodes, pending, dp);
      if Short(name) == "." || Short(name) == ".." {
        return false;
      }
      var off := DirLookup(dp, name);
      if off.None? {
        return false;
      }
      var k := off.value;
      var ip := nodes[dp].ents[k].inum;
      OneSlot(nodes[dp].ents, k);
      assert Removable(nodes, dp, k, Short(name)) <==> (nodes[ip].kind == Dir ==> EmptyDir(nodes[ip]));
      if nodes[ip].kind == Dir {
        var empty := IsDirEmpty(ip);
        if !empty {
          return false;
        }
      }
      assert Unlinkable(nodes, pending, dp, k);
      UnlinkKeeps(nodes, pending, dp, k);
      assert nodes[ip].nlink >= 1;
      ghost var nodes0 := nodes;
      nodes := nodes[dp := Node(nodes[dp].kind, nodes[dp].nlink, nodes[dp].ents[k := CLEARED])];
      if nodes[ip].kind == Dir {
        nodes := nodes[dp := Node(nodes[dp].kind, nodes[dp].nlink - 1, nodes[dp].ents)];
      }
      nodes := nodes[ip := Node(nodes[ip].kind, nodes[ip].nlink - 1, nodes[ip].ents)];
      assert nodes == Unlinked(nodes0, dp, k);
      return true;
    }

    /** iput by the last user of an inode without links. */
    method Iput(i: nat)
      requires Valid() && 0 < i < |nodes| && nodes[i].nlink == 0 && |pending| == |nodes| && pending[i] == 0
      modifies this`nodes
      ensures Valid() && nodes == old(nodes)[i := Node(Free, 0, [])]
    {
      hide Tree, LinksOk;
      FreeKeeps(nodes, pending, i);
      nodes := nodes[i := Node(Free, 0, [])];
    }
  }

  /** The counts do go wrong: a process makes directory "a", stays in it while it is unlinked, and makes a file there.
      The file has a link count of 1, and no linked directory names it. */
  method OrphanMiscounts(n: nat) returns (fs: Namespace)
    requires n >= 4
    ensures fresh(fs) && !LinksOk(fs.nodes, fs.pending)
  {
    hide Tree, LinksOk, Count, FirstEmpty;
    MkfsOk(n);
    fs := new Namespace(seq(n, i requires 0 <= i < n => MkfsNode(i)), seq(n, _ => 0));
    FirstEmptyIs(fs.nodes[ROOT].ents, 2);
    assert fs.nodes[2].kind == Free && fs.nodes[3].kind == Free;
    var r := fs.CreateDir(ROOT, "a", true, true, true);
    assert r == Made(2) && fs.nodes[2] == NewDir(2, ROOT) && fs.nodes[3].kind == Free;
    assert fs.nodes[ROOT].ents[2] == Dirent(2, "a") && |fs.nodes[ROOT].ents| == 3;
    assert Removable(fs.nodes, ROOT, 2, "a");
    var ok := fs.Unlink(ROOT, "a");
    assert ok && fs.nodes[2] == Node(Dir, 0, NewDir(2, ROOT).ents) && fs.nodes[3].kind == Free;
    var f := fs.CreateFile(2, "f", File, true);
    assert f.Made?;
  }

  /** Names of three characters, one for each number below 32768. */
  function Name(k: nat): string
    requires k <= MAXLINK
  {
    [Digit(k / 1024), Digit(k / 32 % 32), Digit(k % 32)]
  }

  function Digit(d: nat): char
    requires d < 32
  {
    (64 + d) as char
  }

  lemma {:induction false} NameValue(k: nat)
    requires k <= MAXLINK
    ensures var s := Name(k);
            |s| == 3 && k == (s[0] as int - 64) * 1024 + (s[1] as int - 64) * 32 + (s[2] as int - 64)
  {
    assert k / 32 == k / 1024 * 32 + k / 32 % 32;
  }

  lemma {:induction false} NamesDiffer(j: nat, k: nat)
    requires j <= MAXLINK && k <= MAXLINK && j != k
    ensures Name(j) != Name(k)
  {
    hide Name;
    NameValue(j);
    NameValue(k);
  }

  /** A directory of at most 268 blocks holds 17152 entries, so the links go to two. */
  function HomeOf(k: nat): nat {
    if k < 16384 then ROOT else 2
  }

  /** File 3 has the links up to the k-th, and the other names are still to be had. */
  ghost predicate Linking(nodes: seq<Node>, pending: seq<nat>, k: nat) {
    && |nodes| == |pending| > 3 && nodes[3].kind == File && nodes[3].nlink == k && pending[3] == 0
    && Linked(nodes[ROOT]) && Linked(nodes[2])
    && forall j: nat :: k <= j < MAXLINK ==> Absent(nodes[HomeOf(j)].ents, Name(j))
  }

  lemma {:induction false} LinkingMore(nodes: seq<Node>, pending: seq<nat>, k: nat, nodes': seq<Node>,
      pending': seq<nat>)
    requires Linking(nodes, pending, k) && k < MAXLINK
    requires nodes' == WithEntry(Bumped(nodes, 3, k + 1), HomeOf(k), Name(k), 3, 0) && pending' == pending
    ensures Linking(nodes', pending', k + 1)
  {
    hide Entered, Name;
    var d, e := HomeOf(k), Dirent(3, Name(k));
    forall j: nat | k + 1 <= j < MAXLINK
      ensures Absent(nodes'[HomeOf(j)].ents, Name(j))
    {
      NamesDiffer(j, k);
      if HomeOf(j) == d { AbsentEntered(nodes[d].ents, e, Name(j)); }
    }
  }

  lemma {:induction false} AbsentEntered(ents: seq<Dirent>, e: Dirent, name: string)
    requires Absent(ents, name) && e.name != name
    ensures Absent(Entered(ents, e), name)
  {
    hide FirstEmpty;
  }

  /** And a count overflows: 32766 more names for one file, in two directories, and then one more link. */
  method LinksOverflow(n: nat) returns (fs: Namespace)
    requires n >= 4
    ensures fresh(fs) && !LinksOk(fs.nodes, fs.pending)
  {
    hide Tree, LinksOk, Count, FirstEmpty, Linking, Name;
    fs := TwoDirectories(n);
    var k := 1;
    while k < MAXLINK
      invariant 1 <= k <= MAXLINK && fresh(fs) && fs.Valid() && Linking(fs.nodes, fs.pending, k)
    {
      LinkAgain(fs, k);
      k := k + 1;
    }
    LinkingFile(fs.nodes, fs.pending, k);
    var ok := fs.LinkBegin(3);
    Overflown(fs.nodes, fs.pending, 3);
  }

  lemma {:induction false} LinkingFile(nodes: seq<Node>, pending: seq<nat>, k: nat)
    requires Linking(nodes, pending, k)
    ensures |nodes| == |pending| > 3 && nodes[3].kind == File && nodes[3].nlink == k && pending[3] == 0
    ensures Linked(nodes[ROOT]) && Linked(nodes[2])
    ensures k < MAXLINK ==> Absent(nodes[HomeOf(k)].ents, Name(k))
  {
  }

  method LinkAgain(fs: Namespace, k: nat)
    requires fs.Valid() && Linking(fs.nodes, fs.pending, k) && k < MAXLINK
    modifies fs
    ensures fs.Valid() && Linking(fs.nodes, fs.pending, k + 1)
  {
    hide Tree, LinksOk, Count, FirstEmpty, Linking, Name, Entered;
    LinkingFile(fs.nodes, fs.pending, k);
    ghost var nodes0, pending0 := fs.nodes, fs.pending;
    var ok := fs.LinkBegin(3);
    assert Short(Name(k)) == Name(k) by { ShortName(k); }
    ok := fs.LinkEnd(3, Some(HomeOf(k)), Name(k), true);
    assert fs.pending == pending0;
    LinkingMore(nodes0, pending0, k, fs.nodes, fs.pending);
  }

  lemma {:induction false} ShortName(k: nat)
    requires k <= MAXLINK
    ensures Short(Name(k)) == Name(k)
  {
  }

  /** A fresh disk with a directory and a file. */
  method TwoDirectories(n: nat) returns (fs: Namespace)
    requires n >= 4
    ensures fresh(fs) && fs.Valid() && Linking(fs.nodes, fs.pending, 1)
  {
    hide Tree, LinksOk, Count, FirstEmpty, Name;
    MkfsOk(n);
    fs := new Namespace(seq(n, i requires 0 <= i < n => MkfsNode(i)), seq(n, _ => 0));
    FirstEmptyIs(fs.nodes[ROOT].ents, 2);
    assert fs.nodes[2].kind == Free && fs.nodes[3].kind == Free;
    var r := fs.CreateDir(ROOT, "a", true, true, true);
    assert r == Made(2) && fs.nodes[2] == NewDir(2, ROOT) && fs.nodes[3].kind == Free;
    assert fs.nodes[ROOT].ents == [Dirent(ROOT, "."), Dirent(ROOT, ".."), Dirent(2, "a")];
    FirstEmptyIs(fs.nodes[ROOT].ents, 3);
    var f := fs.CreateFile(ROOT, "f", File, true);
    assert f == Made(3);
    assert fs.nodes[ROOT].ents == [Dirent(ROOT, "."), Dirent(ROOT, ".."), Dirent(2, "a"), Dirent(3, "f")];
    forall j: nat | 1 <= j < MAXLINK
      ensures Absent(fs.nodes[HomeOf(j)].ents, Name(j))
    {
      assert |Name(j)| == 3 by { LongName(j); }
    }
  }

  lemma {:induction false} LongName(k: nat)
    requires k <= MAXLINK
    ensures |Name(k)| == 3
  {
  }

  lemma {:induction false} TwoEntries(nodes: seq<Node>, ip: nat, dp: nat)
    requires ip < |nodes| && nodes[ip] == Node(Dir, 1, [])
    ensures Absent([], ".") && FirstEmpty([]) == 0
    ensures var n1 := WithEntry(nodes, ip, ".", ip, 0);
            ip > 0 ==>
                  n1[ip].ents == [Dirent(ip, ".")] && Absent(n1[ip].ents, "..")
                  && WithEntry(n1, ip, "..", dp, 0) == nodes[ip := NewDir(ip, dp)]
  {
    if ip > 0 {
      var n1 := WithEntry(nodes, ip, ".", ip, 0);
      FirstEmptyIs([Dirent(ip, ".")], 1);
      assert n1[ip].ents == [Dirent(ip, ".")];
      assert Entered(n1[ip].ents, Dirent(dp, "..")) == NewDir(ip, dp).ents;
      assert WithEntry(n1, ip, "..", dp, 0)[ip] == NewDir(ip, dp);
    }
  }

  /** A name is in one slot only. */
  lemma {:induction false} OneSlot(ents: seq<Dirent>, k: nat)
    requires NamesOk(ents) && k < |ents| && ents[k].inum != 0
    ensures forall j :: 0 <= j < |ents| && ents[j].inum != 0 && ents[j].name == ents[k].name ==> j == k
  {
  }
}
