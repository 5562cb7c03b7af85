/**
 * Sv39 page tables (section 4.4 of the RISC-V Privileged Architecture): walk, mappages, uvmunmap
 * and freewalk of kernel/vm.c over pages of 512 words, and the address arithmetic of kernel/riscv.h.
 *
 * Physical pages go by page number.  The abstract value of a page table is the flat function
 * `Flat` from the three indices of a virtual page to the word stored for it.
 */
module PageTable {

  datatype Option<T> = None | Some(value: T)

  const PGSIZE: nat := 4096
  const MAXVA: nat := 0x40_0000_0000
  const MAXVPN: nat := 0x400_0000
  const ENTRIES: nat := 512

  // ---------------------------------------------------------------- words and addresses

  predicate Valid(w: nat) {
    w % 2 == 1
  }

  /** PTE2PA, as a page number. */
  function Ppn(w: nat): nat {
    w / 1024
  }

  /** PTE_FLAGS */
  function Flags(w: nat): nat {
    w % 1024
  }

  /** PA2PTE(pa) | flags, for page number ppn. */
  function Pte(ppn: nat, flags: nat): nat {
    ppn * 1024 + flags
  }

  /** perm | PTE_V */
  function OrValid(perm: nat): nat {
    if Valid(perm) then perm else perm + 1
  }

  lemma {:induction false} PteParts(ppn: nat, flags: nat)
    requires flags < 1024
    ensures Ppn(Pte(ppn, flags)) == ppn && Flags(Pte(ppn, flags)) == flags && Valid(Pte(ppn, flags)) == Valid(flags)
  {
  }

  /** Bit k of a word. */
  function Bit(w: nat, k: nat): nat {
    if k == 0 then w % 2 else Bit(w / 2, k - 1)
  }

  /** A leaf for page ppn: bit 0 (V) is set, bits 1 to 9 are those of perm, and the page number stands above them. */
  ghost predicate LeafFor(w: nat, ppn: nat, perm: nat) {
    Bit(w, 0) == 1 && (forall k: nat :: 0 < k < 10 ==> Bit(w, k) == Bit(perm, k)) && w / 1024 == ppn
  }

  /** Adding a multiple of 2^n changes no bit below n. */
  lemma {:induction false} LowBits(a: nat, n: nat, w: nat, k: nat)
    requires k < n
    ensures Bit(a * Pow2(n) + w, k) == Bit(w, k)
    decreases k
  {
    var x := a * Pow2(n - 1);
    assert a * Pow2(n) == 2 * x;
    assert (2 * x + w) / 2 == x + w / 2;
    if k > 0 { LowBits(a, n - 1, w / 2, k - 1); }
  }

  function Pow2(n: nat): nat {
    if n == 0 then 1 else 2 * Pow2(n - 1)
  }

  lemma {:induction false} Pow2Ten()
    ensures Pow2(10) == 1024
  {
    assert Pow2(8) == 256;
  }

  lemma {:induction false} PermBit(perm: nat, k: nat)
    ensures Bit(OrValid(perm), k) == if k == 0 then 1 else Bit(perm, k)
  {
    assert OrValid(perm) / 2 == perm / 2;
  }

  lemma {:induction false} PteBit(ppn: nat, flags: nat, k: nat)
    requires k < 10
    ensures Bit(Pte(ppn, flags), k) == Bit(flags, k)
  {
    hide Bit, Pow2;
    Pow2Ten();
    LowBits(ppn, 10, flags, k);
  }

  lemma {:induction false} LeafBits(ppn: nat, perm: nat)
    requires perm < 1024
    ensures LeafFor(Pte(ppn, OrValid(perm)), ppn, perm)
  {
    PteParts(ppn, OrValid(perm));
    hide Bit, Pte;
    var w := Pte(ppn, OrValid(perm));
    forall k: nat | k < 10
      ensures Bit(w, k) == if k == 0 then 1 else Bit(perm, k)
    {
      PteBit(ppn, OrValid(perm), k);
      PermBit(perm, k);
    }
  }

  function Shift(level: nat): (s: nat)
    ensures s > 0
  {
    if level == 0 then 0x1000 else if level == 1 then 0x20_0000 else 0x4000_0000
  }

  /** PX(level, va) */
  function PX(level: nat, va: nat): (i: nat)
    ensures i < ENTRIES
  {
    va / Shift(level) % ENTRIES
  }

  function Vpn(va: nat): nat {
    va / PGSIZE
  }

  /** The indices of two addresses below MAXVA agree exactly when the addresses are on one page. */
  lemma {:induction false} IndicesInjective(va: nat, vb: nat)
    requires va < MAXVA && vb < MAXVA
    ensures PX(2, va) == PX(2, vb) && PX(1, va) == PX(1, vb) && PX(0, va) == PX(0, vb) <==> Vpn(va) == Vpn(vb)
  {
    VpnDigits(va);
    VpnDigits(vb);
    hide PX, Vpn;
  }

  lemma {:induction false} VpnDigits(va: nat)
    requires va < MAXVA
    ensures Vpn(va) == (PX(2, va) * 512 + PX(1, va)) * 512 + PX(0, va)
    ensures PX(2, va) == Vpn(va) / 262144 && PX(1, va) == Vpn(va) / 512 % 512 && PX(0, va) == Vpn(va) % 512
  {
    var v := Vpn(va);
    assert va / 0x20_0000 == v / 512;
    assert va / 0x4000_0000 == v / 262144;
    assert v / 262144 < 512;
  }

  // ---------------------------------------------------------------- the tree

  type Memory = map<nat, seq<nat>>

  /** Where a page-table page stands: at the top, below entry i of the top, or below entry j of that. */
  datatype Node = Root | Mid(i: nat) | Low(i: nat, j: nat)

  predicate NodeOk(n: Node) {
    match n
    case Root => true
    case Mid(i) => i < ENTRIES
    case Low(i, j) => i < ENTRIES && j < ENTRIES
  }

  function Entry(mem: Memory, p: nat, k: nat): nat {
    if p in mem && k < |mem[p]| then mem[p][k] else 0
  }

  function Child(w: nat): Option<nat> {
    if Valid(w) then Some(Ppn(w)) else None
  }

  /** The page at a node, if there is one. */
  function Table(mem: Memory, root: nat, n: Node): Option<nat> {
    match n
    case Root => Some(root)
    case Mid(i) => Child(Entry(mem, root, i))
    case Low(i, j) =>
      match Child(Entry(mem, root, i))
      case None => None
      case Some(p) => Child(Entry(mem, p, j))
  }

  /** The word for virtual page (i, j, k); 0 where the tables do not reach. */
  function Flat(mem: Memory, root: nat, i: nat, j: nat, k: nat): nat {
    match Table(mem, root, Low(i, j))
    case None => 0
    case Some(p) => Entry(mem, p, k)
  }

  function ChildNode(n: Node, k: nat): Node
    requires !n.Low?
  {
    if n.Root? then Mid(k) else Low(n.i, k)
  }

  ghost predicate TableOk(mem: Memory, root: nat, own: map<nat, Node>, n: Node) {
    var t := Table(mem, root, n);
    t.Some? ==> t.value in own && own[t.value] == n
  }

  /** Entries above the lowest level are empty or point to a table. */
  ghost predicate InteriorOk(page: seq<nat>) {
    forall k :: 0 <= k < |page| ==> page[k] == 0 || Flags(page[k]) == 1
  }

  ghost predicate PageOk(mem: Memory, root: nat, own: map<nat, Node>, p: nat)
    requires p in own
  {
    && NodeOk(own[p]) && Table(mem, root, own[p]) == Some(p) && p in mem && |mem[p]| == ENTRIES
    && (!own[p].Low? ==> InteriorOk(mem[p]))
  }

  /** Every table page stands at exactly one node. */
  ghost predicate Tree(mem: Memory, root: nat, own: map<nat, Node>) {
    && (forall n :: NodeOk(n) ==> TableOk(mem, root, own, n))
    && (forall p :: p in own ==> PageOk(mem, root, own, p))
  }

  lemma {:induction false} TableAt(mem: Memory, root: nat, own: map<nat, Node>, n: Node)
    requires Tree(mem, root, own) && NodeOk(n)
    ensures var t := Table(mem, root, n);
            t.Some? ==> var p := t.value;
                p in own && own[p] == n && p in mem && |mem[p]| == ENTRIES && (!n.Low? ==> InteriorOk(mem[p]))
  {
    assert TableOk(mem, root, own, n);
    var t := Table(mem, root, n);
    assert t.Some? ==> PageOk(mem, root, own, t.value);
  }

  /** A child's page is what its parent's entry says. */
  lemma {:induction false} TableBelow(mem: Memory, root: nat, n: Node, k: nat)
    requires NodeOk(n) && !n.Low?
    ensures Table(mem, root, ChildNode(n, k)) == match Table(mem, root,
            n) case None => None case Some(p) => Child(Entry(mem, p, k))
  {
  }

  // ---------------------------------------------------------------- storing a word in a lowest-level table

  function Poke(page: seq<nat>, k: nat, w: nat): (r: seq<nat>)
    requires k < |page|
    ensures |r| == |page|
  {
    page[k := w]
  }

  function Stored(mem: Memory, p: nat, k: nat, w: nat): (r: Memory)
    requires p in mem && k < |mem[p]|
    ensures r.Keys == mem.Keys
  {
    mem[p := Poke(mem[p], k, w)]
  }

  lemma {:induction false} EntryStored(mem: Memory, p: nat, k: nat, w: nat, q: nat, l: nat)
    requires p in mem && k < |mem[p]|
    ensures Entry(Stored(mem, p, k, w), q, l) == if q == p && l == k then w else Entry(mem, q, l)
  {
  }

  lemma {:induction false} LeafTable(mem: Memory, root: nat, own: map<nat, Node>, p: nat, k: nat, w: nat, n: Node)
    requires Tree(mem, root, own) && p in own && own[p].Low? && k < ENTRIES && NodeOk(n) && p in mem
             && |mem[p]| == ENTRIES
    ensures Table(Stored(mem, p, k, w), root, n) == Table(mem, root, n)
  {
    hide Tree, Stored, Entry, Child;
    TableAt(mem, root, own, Root);
    if !n.Root? {
      TableAt(mem, root, own, Mid(n.i));
      EntryStored(mem, p, k, w, root, n.i);
      if n.Low? && Table(mem, root, Mid(n.i)).Some? { EntryStored(mem, p, k, w, Table(mem, root, Mid(n.i)).value, n.j);
          }
    }
  }

  /** *pte = w: a map update. */
  lemma {:induction false} LeafStored(mem: Memory, root: nat, own: map<nat, Node>, i: nat, j: nat, k: nat, w: nat)
    requires Tree(mem, root, own) && NodeOk(Low(i, j)) && k < ENTRIES && Table(mem, root, Low(i, j)).Some?
    ensures var p := Table(mem, root, Low(i, j)).value;
            && p in mem && |mem[p]| == ENTRIES && Tree(Stored(mem, p, k, w), root, own)
            && forall a, b, c :: 0 <= a < ENTRIES && 0 <= b < ENTRIES && 0 <= c < ENTRIES ==>
                 Flat(Stored(mem, p, k, w), root, a, b, c) == if a == i && b == j && c == k then w
                     else Flat(mem, root, a, b, c)
  {
    var p := Table(mem, root, Low(i, j)).value;
    TableAt(mem, root, own, Low(i, j));
    var mem' := Stored(mem, p, k, w);
    forall n | NodeOk(n)
      ensures Table(mem', root, n) == Table(mem, root, n)
    {
      LeafTable(mem, root, own, p, k, w, n);
    }
    hide Table, Entry;
    forall a, b, c | 0 <= a < ENTRIES && 0 <= b < ENTRIES && 0 <= c < ENTRIES
      ensures Flat(mem', root, a, b, c) == if a == i && b == j && c == k then w else Flat(mem, root, a, b, c)
    {
      TableAt(mem, root, own, Low(a, b));
      assert NodeOk(Low(a, b));
      if Table(mem, root, Low(a, b)).Some? { EntryStored(mem, p, k, w, Table(mem, root, Low(a, b)).value, c); }
    }
    forall n | NodeOk(n)
      ensures TableOk(mem', root, own, n)
    {
      assert TableOk(mem, root, own, n);
    }
    forall q | q in own
      ensures PageOk(mem', root, own, q)
    {
      assert PageOk(mem, root, own, q);
    }
  }

  // ---------------------------------------------------------------- adding a table

  function Zeros(): (z: seq<nat>)
    ensures |z| == ENTRIES
  {
    seq(ENTRIES, _ => 0)
  }

  /** Page q, zeroed, below entry k of table p. */
  function Added(mem: Memory, p: nat, k: nat, q: nat): Memory
    requires p in mem && k < |mem[p]| && q != p
  {
    Stored(mem[q := Zeros()], p, k, Pte(q, 1))
  }

  lemma {:induction false} EntryAdded(mem: Memory, p: nat, k: nat, q: nat, r: nat, l: nat)
    requires p in mem && k < |mem[p]| && q != p
    ensures Entry(Added(mem, p, k, q), r, l) == if r == q then 0 else if r == p && l == k then Pte(q, 1)
            else Entry(mem, r, l)
  {
  }

  lemma {:induction false} AddedTable(mem: Memory, root: nat, own: map<nat, Node>, n: Node, k: nat, q: nat, m: Node)
    requires Tree(mem, root, own) && NodeOk(n) && !n.Low? && k < ENTRIES && q !in own && NodeOk(m)
    requires Table(mem, root, n).Some? && !Valid(Entry(mem, Table(mem, root, n).value, k))
    ensures var p := Table(mem, root, n).value;
            && p in mem && |mem[p]| == ENTRIES && p != q
            && Table(Added(mem, p, k, q), root, m) == if m == ChildNode(n, k) then Some(q) else Table(mem, root, m)
  {
    hide Tree, Added, Entry;
    var p := Table(mem, root, n).value;
    TableAt(mem, root, own, n);
    TableAt(mem, root, own, Root);
    PteParts(q, 1);
    if !m.Root? {
      TableAt(mem, root, own, Mid(m.i));
      EntryAdded(mem, p, k, q, root, m.i);
      if m.Low? {
        EntryAdded(mem, p, k, q, q, m.j);
        if Table(mem, root, Mid(m.i)).Some? { EntryAdded(mem, p, k, q, Table(mem, root, Mid(m.i)).value, m.j); }
      }
    }
  }

  lemma {:induction false} AddedFlat(mem: Memory, root: nat, own: map<nat, Node>, n: Node, k: nat, q: nat, a: nat,
      b: nat, c: nat)
    requires Tree(mem, root, own) && NodeOk(n) && !n.Low? && k < ENTRIES && q !in own
    requires a < ENTRIES && b < ENTRIES && c < ENTRIES
    requires Table(mem, root, n).Some? && !Valid(Entry(mem, Table(mem, root, n).value, k))
    ensures var p := Table(mem, root, n).value;
            p in mem && |mem[p]| == ENTRIES && p != q
                && Flat(Added(mem, p, k, q), root, a, b, c) == Flat(mem, root, a, b, c)
  {
    hide Tree, Added, Entry, Table;
    var p := Table(mem, root, n).value;
    AddedTable(mem, root, own, n, k, q, Low(a, b));
    TableAt(mem, root, own, n);
    TableAt(mem, root, own, Low(a, b));
    TableBelow(mem, root, n, k);
    EntryAdded(mem, p, k, q, q, c);
    if Table(mem, root, Low(a, b)).Some? { EntryAdded(mem, p, k, q, Table(mem, root, Low(a, b)).value, c); }
  }

  /** walk's allocation of a missing table changes no mapping. */
  lemma {:induction false} AddedTree(mem: Memory, root: nat, own: map<nat, Node>, n: Node, k: nat, q: nat)
    requires Tree(mem, root, own) && NodeOk(n) && !n.Low? && k < ENTRIES && q !in own
    requires Table(mem, root, n).Some? && !Valid(Entry(mem, Table(mem, root, n).value, k))
    ensures var p := Table(mem, root, n).value;
            && p in mem && |mem[p]| == ENTRIES && p != q && Tree(Added(mem, p, k, q), root, own[q := ChildNode(n, k)])
            && Table(Added(mem, p, k, q), root, ChildNode(n, k)) == Some(q)
            && SameFlat(mem, Added(mem, p, k, q), root)
  {
    var p := Table(mem, root, n).value;
    TableAt(mem, root, own, n);
    var mem', own' := Added(mem, p, k, q), own[q := ChildNode(n, k)];
    forall m | NodeOk(m)
      ensures Table(mem', root, m) == if m == ChildNode(n, k) then Some(q) else Table(mem, root, m)
    {
      AddedTable(mem, root, own, n, k, q, m);
    }
    forall a, b, c | 0 <= a < ENTRIES && 0 <= b < ENTRIES && 0 <= c < ENTRIES
      ensures Flat(mem', root, a, b, c) == Flat(mem, root, a, b, c)
    {
      AddedFlat(mem, root, own, n, k, q, a, b, c);
    }
    AddedPages(mem, p, k, q);
    hide Added, Flat;
    AddedOwn(mem, root, own, n, k, p, q, mem', own');
  }

  lemma {:induction false} AddedPages(mem: Memory, p: nat, k: nat, q: nat)
    requires p in mem && k < |mem[p]| && q != p
    ensures var mem' := Added(mem, p, k, q);
            && mem'.Keys == mem.Keys + {q} && mem'[q] == Zeros() && mem'[p] == Poke(mem[p], k, Pte(q, 1))
            && forall r :: r in mem && r != p && r != q ==> mem'[r] == mem[r]
  {
  }

  lemma {:induction false} AddedOwn(mem: Memory, root: nat, own: map<nat, Node>, n: Node, k: nat, p: nat, q: nat,
      mem': Memory, own': map<nat, Node>)
    requires Tree(mem, root, own) && NodeOk(n) && !n.Low? && k < ENTRIES && q !in own && p in mem && |mem[p]| == ENTRIES
    requires own' == own[q := ChildNode(n, k)] && Table(mem, root, n) == Some(p) && !Valid(Entry(mem, p, k))
    requires mem'.Keys == mem.Keys + {q} && mem'[q] == Zeros() && mem'[p] == Poke(mem[p], k, Pte(q, 1)) && p != q
    requires forall r :: r in mem && r != p && r != q ==> mem'[r] == mem[r]
    requires forall m :: NodeOk(m) ==>
               Table(mem', root, m) == if m == ChildNode(n, k) then Some(q) else Table(mem, root, m)
    ensures Tree(mem', root, own')
  {
    TableBelow(mem, root, n, k);
    hide Table, Entry;
    forall m | NodeOk(m)
      ensures TableOk(mem', root, own', m)
    {
      assert TableOk(mem, root, own, m);
    }
    PteParts(q, 1);
    forall r | r in own'
      ensures PageOk(mem', root, own', r)
    {
      if r != q { assert PageOk(mem, root, own, r); }
    }
  }

  ghost predicate SameFlat(mem: Memory, mem': Memory, root: nat) {
    forall a, b, c :: 0 <= a < ENTRIES && 0 <= b < ENTRIES && 0 <= c < ENTRIES ==>
          Flat(mem', root, a, b, c) == Flat(mem, root, a, b, c)
  }

  // ---------------------------------------------------------------- the code

  datatype Slot = Slot(page: nat, index: nat)

  /** The node whose table walk has reached at a level. */
  function NodeAt(va: nat, level: nat): Node {
    if level == 0 then Low(PX(2, va), PX(1, va)) else if level == 1 then Mid(PX(2, va)) else Root
  }

  ghost predicate Distinct(s: seq<nat>) {
    forall i, j :: 0 <= i < j < |s| ==> s[i] != s[j]
  }

  ghost function PagesOf(free: seq<nat>, own: map<nat, Node>): set<nat> {
    (set p | p in free) + own.Keys
  }

  class Vm {
    var mem: Memory
    var free: seq<nat>            // kalloc's pages
    const root: nat
    ghost var own: map<nat, Node>

    /** The tables form a tree and are nobody else's pages. */
    ghost predicate Sound()
      reads this
    {
      Tree(mem, root, own) && Distinct(free) && (forall p :: p in free ==> p !in own)
    }

    ghost predicate Ok()
      reads this
    {
      Sound() && NothingAbove(mem, root)
    }

    /** uvmcreate, with a page to spare. */
    constructor (free: seq<nat>)
      requires |free| > 0 && Distinct(free)
      ensures Ok() && root == free[0] && this.free == free[1..] && own.Keys == {root}
      ensures forall v :: 0 <= v < MAXVPN ==> FlatAt(mem, root, v) == 0
    {
      mem, own := map[free[0] := Zeros()], map[free[0] := Root];
      root, this.free := free[0], free[1..];
      new;
      EmptyTree(root);
    }

    /** kalloc and memset for the table below entry k of table p. */
    method AddTable(p: nat, k: nat, ghost n: Node) returns (q: Option<nat>)
      requires Ok() && NodeOk(n) && !n.Low? && k < ENTRIES && Table(mem, root, n) == Some(p) && !Valid(Entry(mem, p, k))
      modifies this
      ensures Ok() && SameFlat(old(mem), mem, root) && PagesOf(free, own) == old(PagesOf(free, own))
      ensures q.None? ==> free == [] && mem == old(mem) && own == old(own) && old(free) == []
      ensures q.Some? ==> Table(mem, root, ChildNode(n, k)) == q
    {
      hide Tree, Table, Entry, Stored, Flat, Zeros, Pte, NothingAbove;
      if free == [] {
        return None;
      }
      AddedTree(mem, root, own, n, k, free[0]);
      SameAbove(mem, Added(mem, p, k, free[0]), root);
      q := Some(free[0]);
      own := own[free[0] := ChildNode(n, k)];
      mem := mem[free[0] := Zeros()];
      mem := Stored(mem, p, k, Pte(free[0], 1));
      free := free[1..];
    }

    /** The slot for va; missing tables are added if alloc. */
    method Walk(va: nat, alloc: bool) returns (pte: Option<Slot>)
      requires Ok() && va < MAXVA
      modifies this
      ensures Ok() && SameFlat(old(mem), mem, root) && PagesOf(free, own) == old(PagesOf(free, own))
      ensures !alloc ==> mem == old(mem) && free == old(free) && own == old(own)
      ensures pte == match Table(mem, root, NodeAt(va, 0)) case None => None case Some(p) => Some(Slot(p, PX(0, va)))
      ensures alloc && pte.None? ==> free == []
    {
      hide Tree, Table, Entry, Flat, PX, NothingAbove;
      var pagetable := root;
      var level := 2;
      assert Table(mem, root, Root) == Some(root) by { TableRoot(mem, root); }
      while level > 0
        invariant 0 <= level <= 2 && Ok() && SameFlat(old(mem), mem, root)
                  && PagesOf(free, own) == old(PagesOf(free, own))
        invariant !alloc ==> mem == old(mem) && free == old(free) && own == old(own)
        invariant Table(mem, root, NodeAt(va, level)) == Some(pagetable)
      {
        TableBelow(mem, root, NodeAt(va, level), PX(level, va));
        assert ChildNode(NodeAt(va, level), PX(level, va)) == NodeAt(va, level - 1);
        var word := Entry(mem, pagetable, PX(level, va));
        if Valid(word) {
          pagetable := Ppn(word);
        } else {
          MissingBelow(mem, root, va, level);
          if !alloc {
            return None;
          }
          var q := AddTable(pagetable, PX(level, va), NodeAt(va, level));
          if q.None? {
            return None;
          }
          pagetable := q.value;
        }
        level := level - 1;
      }
      return Some(Slot(pagetable, PX(0, va)));
    }

    /** *pte = w for the slot that walk found. */
    method SetPte(va: nat, pte: Slot, w: nat)
      requires Ok() && va < MAXVA && Table(mem, root, NodeAt(va, 0)) == Some(pte.page) && pte.index == PX(0, va)
      modifies this`mem
      ensures Ok() && Updated(old(mem), mem, root, Vpn(va), w)
    {
      hide Tree, Table, Entry, Flat, PX, Stored, Vpn, NothingAbove;
      LeafStored(mem, root, own, PX(2, va), PX(1, va), PX(0, va), w);
      FlatUpdated(mem, Stored(mem, pte.page, pte.index, w), root, va, w);
      mem := Stored(mem, pte.page, pte.index, w);
    }

    /** Maps the pages from va to va + size - 1 to the physical pages from pa on.  done counts the pages mapped. */
    method MapPages(va: nat, size: nat, pa0: nat, perm: nat) returns (ok: bool, done: nat)
      requires Ok() && size > 0 && va + size <= MAXVA && perm < 1024
      requires forall v :: Vpn(va) <= v <= Vpn(va + size - 1) ==> !Valid(FlatAt(mem, root, v))
      modifies this
      ensures Ok() && PagesOf(free, own) == old(PagesOf(free, own))
      ensures done <= Vpn(va + size - 1) - Vpn(va) + 1 && (ok <==> done == Vpn(va + size - 1) - Vpn(va) + 1)
              && (!ok ==> free == [])
      ensures forall v :: 0 <= v < MAXVPN ==>
                FlatAt(mem, root, v) == if Vpn(va) <= v < Vpn(va) + done
                    then Pte(pa0 / PGSIZE + (v - Vpn(va)), OrValid(perm))
                                        else FlatAt(old(mem), root, v)
      ensures forall v :: Vpn(va) <= v < Vpn(va) + done ==>
                LeafFor(FlatAt(mem, root, v), pa0 / PGSIZE + (v - Vpn(va)), perm)
    {
      hide Tree, Table, Flat, PX, Vpn, FlatAt, Pte, NothingAbove, LeafFor;
      ghost var first, end := Vpn(va), Vpn(va + size - 1);
      var a := va / PGSIZE * PGSIZE;
      var last := (va + size - 1) / PGSIZE * PGSIZE;
      var pa := pa0;
      Rounded(va, va + size - 1);
      done := 0;
      while true
        invariant Ok() && PagesOf(free, own) == old(PagesOf(free, own))
        invariant first + done <= end && a == (first + done) * PGSIZE && pa == pa0 + done * PGSIZE
        invariant forall v :: 0 <= v < MAXVPN ==>
                    FlatAt(mem, root, v) == if first <= v < first + done
                        then Pte(pa0 / PGSIZE + (v - first), OrValid(perm))
                                            else FlatAt(old(mem), root, v)
        decreases end - done
      {
        AtPage(first + done, end, va + size - 1);
        PageOfPa(pa0, done);
        ghost var mem1 := mem;
        var pte := Walk(a, true);
        SameAt(mem1, mem, root);
        if pte.None? {
          LeavesFor(mem, root, first, done, pa0 / PGSIZE, perm);
          return false, done;
        }
        ghost var mem2 := mem;
        SetPte(a, pte.value, Pte(pa / PGSIZE, OrValid(perm)));
        UpdatedAt(mem2, mem, root, first + done, Pte(pa / PGSIZE, OrValid(perm)));
        done := done + 1;
        if a == last {
          break;
        }
        a, pa := a + PGSIZE, pa + PGSIZE;
      }
      LeavesFor(mem, root, first, done, pa0 / PGSIZE, perm);
      return true, done;
    }

    /** Removes npages mappings from va on.  freed collects the pages handed to kfree when do_free is set. */
    method Unmap(va: nat, npages: nat) returns (freed: seq<nat>)
      requires Ok() && va % PGSIZE == 0 && va + npages * PGSIZE <= MAXVA
      requires forall v :: Vpn(va) <= v < Vpn(va) + npages ==>
                 Valid(FlatAt(mem, root, v)) && Flags(FlatAt(mem, root, v)) != 1
      modifies this
      ensures Ok() && free == old(free) && own == old(own)
      ensures freed == seq(npages, i requires 0 <= i < npages => Ppn(FlatAt(old(mem), root, Vpn(va) + i)))
      ensures forall v :: 0 <= v < MAXVPN ==>
                FlatAt(mem, root, v) == if Vpn(va) <= v < Vpn(va) + npages then 0 else FlatAt(old(mem), root, v)
    {
      hide Tree, Table, Flat, PX, FlatAt, Ppn, Flags, Vpn, Entry, NothingAbove;
      ghost var first := Vpn(va);
      Aligned(va);
      freed := [];
      var a := va;
      while a < va + npages * PGSIZE
        invariant Ok() && free == old(free) && own == old(own)
        invariant |freed| <= npages && a == (first + |freed|) * PGSIZE
        invariant freed == seq(|freed|, i requires 0 <= i < |freed| => Ppn(FlatAt(old(mem), root, first + i)))
        invariant forall v :: 0 <= v < MAXVPN ==>
                    FlatAt(mem, root, v) == if first <= v < first + |freed| then 0 else FlatAt(old(mem), root, v)
      {
        ghost var v := first + |freed|;
        PageStart(v);
        assert Valid(FlatAt(mem, root, v));
        MappedSlot(mem, root, a);
        var pte := Walk(a, false);
        var word := Entry(mem, pte.value.page, pte.value.index);
        assert word == FlatAt(mem, root, v) by { SlotWord(mem, root, a); }
        freed := freed + [Ppn(word)];
        ghost var mem1 := mem;
        SetPte(a, pte.value, 0);
        UpdatedAt(mem1, mem, root, v, 0);
        a := a + PGSIZE;
      }
    }

    /** freewalk's loop body: frees what entry i of table p points to. */
    method FreeEntry(p: nat, i: nat, ghost n: Node)
      requires Sound() && NodeOk(n) && Table(mem, root, n) == Some(p) && Leafless(mem, root, n) && i < ENTRIES
      modifies this
      ensures Sound() && Table(mem, root, n) == Some(p) && Leafless(mem, root, n)
      ensures own == KeptChild(old(own), n, i) && SamePagesBut(own, old(mem), mem, p)
              && PagesOf(free, own) == old(PagesOf(free, own))
      decreases Height(n), 0
    {
      hide Tree, Table, Flat, Leafless, Kept, Under, Entry, Stored, Ppn, Flags, PagesOf, Distinct;
      EntryKind(mem, root, own, n, p, i);
      AllPages(mem, root, own);
      if Valid(mem[p][i]) && mem[p][i] / 2 % 8 == 0 {
        ghost var mem1, own1 := mem, own;
        TableBelow(mem, root, n, i);
        LeaflessBelow(mem, root, n, i);
        FreeWalk(Ppn(mem[p][i]), ChildNode(n, i));
        Pruned(mem1, root, own1, n, i, p, mem, own);
        mem := Stored(mem, p, i, 0);
      } else {
        NoChild(mem, root, own, n, p, i);
      }
    }

    /** Frees the table at node n and all tables below it, each once. */
    method FreeWalk(p: nat, ghost n: Node)
      requires Sound() && NodeOk(n) && Table(mem, root, n) == Some(p) && Leafless(mem, root, n)
      modifies this
      ensures own == Kept(old(own), n) && SamePages(own, old(mem), mem)
      ensures Distinct(free) && (forall q :: q in free ==> q !in own) && PagesOf(free, own) == old(PagesOf(free, own))
      decreases Height(n), 1
    {
      hide Tree, Table, Flat, Leafless, Kept, Under, Entry, PagesOf, Distinct, KeptBelow, KeptChild;
      AllPages(mem, root, own);
      KeptNone(own, n);
      ghost var own0 := own;
      var i := 0;
      while i < ENTRIES
        invariant i <= ENTRIES && Sound() && Table(mem, root, n) == Some(p) && Leafless(mem, root, n)
        invariant own == KeptBelow(own0, n, i) && SamePagesBut(own, old(mem), mem, p)
        invariant PagesOf(free, own) == old(PagesOf(free, own))
      {
        ghost var mem1, own1 := mem, own;
        FreeEntry(p, i, n);
        KeptMore(own0, n, i);
        KeptFewer(own1, n, i);
        i := i + 1;
      }
      LastPage(mem, root, own, own0, n, p);
      FreedPage(free, own, p);
      free := [p] + free;
      own := own - {p};
    }

    /** uvmfree: unmaps the npages pages from 0 on, which are all there are, and returns every table page. */
    method UvmFree(npages: nat) returns (freed: seq<nat>)
      requires Ok() && npages <= MAXVPN
      requires forall v :: 0 <= v < MAXVPN ==>
                 if v < npages then Valid(FlatAt(mem, root, v)) && Flags(FlatAt(mem, root, v)) != 1
                     else !Valid(FlatAt(mem, root, v))
      modifies this
      ensures own == map[] && Distinct(free) && (set p | p in free) == old(PagesOf(free, own))
      ensures freed == seq(npages, v requires 0 <= v < npages => Ppn(FlatAt(old(mem), root, v)))
    {
      hide Tree, FlatAt, Flat, Ppn, Flags, Table, NothingAbove;
      ghost var mem0 := mem;
      PageStart0();
      freed := [];
      if npages > 0 {
        freed := Unmap(0, npages);
      }
      AllGone(mem, root);
      TableRoot(mem, root);
      FreeWalk(root, Root);
      NothingKept(old(own));
    }
  }

  lemma {:induction false} SameAbove(mem: Memory, mem': Memory, root: nat)
    requires SameFlat(mem, mem', root) && NothingAbove(mem, root)
    ensures NothingAbove(mem', root)
  {
    hide Flat;
  }

  /** The life of a page table: created, filled from address 0 until memory or the request ends, and freed.  Every page
      is
      back on the free list once, and the frames handed to kfree are those that were mapped. */
  method Lifetime(pages: seq<nat>, size: nat, pa: nat, perm: nat) returns (vm: Vm, freed: seq<nat>)
    requires |pages| > 0 && Distinct(pages) && 0 < size <= MAXVA && 1 < perm < 1024
    ensures Distinct(vm.free) && (set p | p in vm.free) == (set p | p in pages)
    ensures |freed| <= Vpn(size - 1) + 1 && freed == seq(|freed|, i requires 0 <= i < |freed| => pa / PGSIZE + i)
  {
    hide Tree, FlatAt, Flat, Table, NothingAbove, Pte, Ppn, Flags, Valid, OrValid, Vpn;
    PageStart0();
    LastVpn(size);
    vm := new Vm(pages);
    assert forall v :: 0 <= v < MAXVPN ==> !Valid(FlatAt(vm.mem, vm.root, v)) by { NotValid0(); }
    var ok, done := vm.MapPages(0, size, pa, perm);
    forall v | 0 <= v < MAXVPN
      ensures v < done ==> Ppn(FlatAt(vm.mem, vm.root, v)) == pa / PGSIZE + v
      ensures if v < done then Valid(FlatAt(vm.mem, vm.root, v)) && Flags(FlatAt(vm.mem, vm.root, v)) != 1
              else !Valid(FlatAt(vm.mem, vm.root, v))
    {
      NotValid0();
      LeafWord(pa / PGSIZE + v, perm);
    }
    freed := vm.UvmFree(done);
  }

  /** A run of leaves as mappages stores them. */
  lemma {:induction false} LeavesFor(mem: Memory, root: nat, first: nat, done: nat, ppn: nat, perm: nat)
    requires perm < 1024
    requires forall v :: first <= v < first + done ==> FlatAt(mem, root, v) == Pte(ppn + (v - first), OrValid(perm))
    ensures forall v :: first <= v < first + done ==> LeafFor(FlatAt(mem, root, v), ppn + (v - first), perm)
  {
    hide FlatAt, Pte, LeafFor;
    forall v | first <= v < first + done
      ensures LeafFor(FlatAt(mem, root, v), ppn + (v - first), perm)
    {
      LeafBits(ppn + (v - first), perm);
    }
  }

  lemma {:induction false} NotValid0()
    ensures !Valid(0)
  {
  }

  lemma {:induction false} LeafWord(ppn: nat, perm: nat)
    requires 1 < perm < 1024
    ensures var w := Pte(ppn, OrValid(perm)); Ppn(w) == ppn && Valid(w) && Flags(w) != 1
  {
    PteParts(ppn, OrValid(perm));
  }

  lemma {:induction false} LastVpn(size: nat)
    requires 0 < size <= MAXVA
    ensures Vpn(size - 1) < MAXVPN
  {
  }

  lemma {:induction false} EmptyTree(root: nat)
    ensures Tree(map[root := Zeros()], root, map[root := Root])
    ensures forall v :: 0 <= v < MAXVPN ==> FlatAt(map[root := Zeros()], root, v) == 0
    ensures NothingAbove(map[root := Zeros()], root)
  {
    var mem: Memory := map[root := Zeros()];
    forall n | NodeOk(n) && n != Root
      ensures Table(mem, root, n) == None
    {
      assert Entry(mem, root, n.i) == 0;
    }
    hide Table;
    assert Table(mem, root, Root) == Some(root) by { TableRoot(mem, root); }
    forall v | 0 <= v < MAXVPN
      ensures FlatAt(mem, root, v) == 0
    {
      PageDigits(v);
      assert NodeOk(Low(v / 262144, v / 512 % 512));
    }
  }

  // ---------------------------------------------------------------- freewalk

  ghost function Height(n: Node): nat {
    match n case Root => 2 case Mid(_) => 1 case Low(_, _) => 0
  }

  /** m is n or below it. */
  ghost predicate Under(n: Node, m: Node) {
    match n
    case Root => true
    case Mid(i) => !m.Root? && m.i == i
    case Low(_, _) => m == n
  }

  /** m is at or below one of the first i children of n. */
  ghost predicate UnderFirst(n: Node, i: nat, m: Node) {
    match n
    case Root => !m.Root? && m.i < i
    case Mid(x) => m.Low? && m.i == x && m.j < i
    case Low(_, _) => false
  }

  ghost function Kept(own: map<nat, Node>, n: Node): map<nat, Node> {
    map q | q in own && !Under(n, own[q]) :: own[q]
  }

  ghost function KeptBelow(own: map<nat, Node>, n: Node, i: nat): map<nat, Node> {
    map q | q in own && !UnderFirst(n, i, own[q]) :: own[q]
  }

  ghost predicate SamePages(own: map<nat, Node>, mem: Memory, mem': Memory) {
    forall q :: q in own ==> q in mem && q in mem' && mem'[q] == mem[q]
  }

  ghost predicate SamePagesBut(own: map<nat, Node>, mem: Memory, mem': Memory, p: nat) {
    forall q :: q in own && q != p ==> q in mem && q in mem' && mem'[q] == mem[q]
  }

  /** No valid word in the lowest tables below n. */
  ghost predicate Leafless(mem: Memory, root: nat, n: Node) {
    forall a, b, c :: 0 <= a < ENTRIES && 0 <= b < ENTRIES && 0 <= c < ENTRIES && Under(n, Low(a, b)) ==>
          !Valid(Flat(mem, root, a, b, c))
  }

  lemma {:induction false} KeptNone(own: map<nat, Node>, n: Node)
    ensures KeptBelow(own, n, 0) == own
  {
  }

  ghost function KeptChild(own: map<nat, Node>, n: Node, i: nat): map<nat, Node> {
    if n.Low? then own else Kept(own, ChildNode(n, i))
  }

  lemma {:induction false} KeptMore(own: map<nat, Node>, n: Node, i: nat)
    ensures KeptChild(KeptBelow(own, n, i), n, i) == KeptBelow(own, n, i + 1)
  {
  }

  lemma {:induction false} KeptFewer(own: map<nat, Node>, n: Node, i: nat)
    ensures KeptChild(own, n, i).Keys <= own.Keys
  {
  }

  lemma {:induction false} AllPages(mem: Memory, root: nat, own: map<nat, Node>)
    requires Tree(mem, root, own)
    ensures forall q :: q in own ==> q in mem && NodeOk(own[q])
  {
    forall q | q in own
      ensures q in mem && NodeOk(own[q])
    {
      assert PageOk(mem, root, own, q);
    }
  }

  lemma {:induction false} LeaflessBelow(mem: Memory, root: nat, n: Node, i: nat)
    requires Leafless(mem, root, n) && !n.Low?
    ensures Leafless(mem, root, ChildNode(n, i))
  {
    hide Flat;
  }

  /** An entry of a table being freed is not valid, or points to a table: freewalk's panic cannot happen. */
  lemma {:induction false} EntryKind(mem: Memory, root: nat, own: map<nat, Node>, n: Node, p: nat, i: nat)
    requires Tree(mem, root, own) && NodeOk(n) && Table(mem, root, n) == Some(p) && Leafless(mem, root, n)
             && i < ENTRIES
    ensures p in mem && |mem[p]| == ENTRIES && Entry(mem, p, i) == mem[p][i]
    ensures Valid(mem[p][i]) ==> mem[p][i] / 2 % 8 == 0 && !n.Low? && Entry(mem, p, i) == mem[p][i]
  {
    TableAt(mem, root, own, n);
    hide Tree, Table;
    if n.Low? {
      assert !Valid(Flat(mem, root, n.i, n.j, i));
    } else {
      assert mem[p][i] == 0 || Flags(mem[p][i]) == 1;
      assert mem[p][i] % 1024 == 1 ==> mem[p][i] / 2 % 8 == 0;
    }
  }

  lemma {:induction false} NoChild(mem: Memory, root: nat, own: map<nat, Node>, n: Node, p: nat, i: nat)
    requires Tree(mem, root, own) && NodeOk(n) && Table(mem, root, n) == Some(p) && i < ENTRIES
             && (!Valid(Entry(mem, p, i)) || n.Low?)
    ensures own == KeptChild(own, n, i)
  {
    if !n.Low? {
      TableBelow(mem, root, n, i);
      hide Entry;
      forall q | q in own
        ensures !Under(ChildNode(n, i), own[q])
      {
        assert PageOk(mem, root, own, q);
      }
    }
    hide Tree, Table;
  }

  lemma {:induction false} LastPage(mem: Memory, root: nat, own: map<nat, Node>, own0: map<nat, Node>, n: Node, p: nat)
    requires Tree(mem, root, own) && NodeOk(n) && Table(mem, root, n) == Some(p) && own == KeptBelow(own0, n, ENTRIES)
    requires forall q :: q in own0 ==> NodeOk(own0[q])
    ensures own - {p} == Kept(own0, n) && p in own
  {
    TableAt(mem, root, own, n);
    forall q | q in own && Under(n, own[q])
      ensures q == p
    {
      assert PageOk(mem, root, own, q);
    }
    hide Tree, Table;
    forall q | q in Kept(own0, n)
      ensures q in own - {p}
    {
    }
  }

  lemma {:induction false} FreedPage(free: seq<nat>, own: map<nat, Node>, p: nat)
    requires Distinct(free) && (forall q :: q in free ==> q !in own) && p in own
    ensures Distinct([p] + free) && (forall q :: q in [p] + free ==> q !in own - {p})
            && PagesOf([p] + free, own - {p}) == PagesOf(free, own)
  {
  }

  /** Freeing the subtree at child i of n, and clearing the entry. */
  lemma {:induction false} PrunedTable(mem: Memory, root: nat, own: map<nat, Node>, n: Node, i: nat, p: nat,
      mem1: Memory, own1: map<nat, Node>, m: Node)
    requires Tree(mem, root, own) && NodeOk(n) && !n.Low? && i < ENTRIES && Table(mem, root, n) == Some(p) && NodeOk(m)
    requires own1 == Kept(own, ChildNode(n, i)) && SamePages(own1, mem, mem1)
    ensures p in mem1 && |mem1[p]| == ENTRIES
    ensures Table(Stored(mem1, p, i, 0), root, m) == if Under(ChildNode(n, i), m) then None else Table(mem, root, m)
  {
    hide Tree, Stored;
    TableAt(mem, root, own, n);
    TableAt(mem, root, own, Root);
    assert p in own1 && root in own1;
    if !m.Root? {
      TableAt(mem, root, own, Mid(m.i));
      EntryStored(mem1, p, i, 0, root, m.i);
      if m.Low? && Table(mem, root, Mid(m.i)).Some? {
        var r := Table(mem, root, Mid(m.i)).value;
        EntryStored(mem1, p, i, 0, r, m.j);
        assert (n == Root && m.i == i) || r in own1;
      }
    }
  }

  lemma {:induction false} Pruned(mem: Memory, root: nat, own: map<nat, Node>, n: Node, i: nat, p: nat, mem1: Memory,
      own1: map<nat, Node>)
    requires Tree(mem, root, own) && NodeOk(n) && !n.Low? && i < ENTRIES && Table(mem, root, n) == Some(p)
    requires own1 == Kept(own, ChildNode(n, i)) && SamePages(own1, mem, mem1) && Leafless(mem, root, n)
    ensures p in mem1 && |mem1[p]| == ENTRIES
    ensures var mem2 := Stored(mem1, p, i, 0);
            Tree(mem2, root, own1) && Table(mem2, root, n) == Some(p) && Leafless(mem2, root, n)
                && SamePagesBut(own1, mem, mem2, p)
  {
    PrunedTable(mem, root, own, n, i, p, mem1, own1, Root);
    var mem2 := Stored(mem1, p, i, 0);
    forall m | NodeOk(m)
      ensures Table(mem2, root, m) == if Under(ChildNode(n, i), m) then None else Table(mem, root, m)
    {
      PrunedTable(mem, root, own, n, i, p, mem1, own1, m);
    }
    TableAt(mem, root, own, n);
    assert p in own1;
    hide Table, Entry;
    forall m | NodeOk(m)
      ensures TableOk(mem2, root, own1, m)
    {
      assert TableOk(mem, root, own, m);
    }
    forall q | q in own1
      ensures PageOk(mem2, root, own1, q)
    {
      assert PageOk(mem, root, own, q);
    }
    forall a, b, c | 0 <= a < ENTRIES && 0 <= b < ENTRIES && 0 <= c < ENTRIES && Under(n, Low(a, b))
      ensures !Valid(Flat(mem2, root, a, b, c))
    {
      PrunedFlat(mem, root, own, n, i, p, mem1, own1, a, b, c);
    }
  }

  lemma {:induction false} PrunedFlat(mem: Memory, root: nat, own: map<nat, Node>, n: Node, i: nat, p: nat,
      mem1: Memory, own1: map<nat, Node>,
                                      a: nat, b: nat, c: nat)
    requires Tree(mem, root, own) && NodeOk(n) && !n.Low? && i < ENTRIES && Table(mem, root, n) == Some(p)
    requires own1 == Kept(own, ChildNode(n, i)) && SamePages(own1, mem, mem1) && p in mem1 && |mem1[p]| == ENTRIES
    requires a < ENTRIES && b < ENTRIES && c < ENTRIES && !Valid(Flat(mem, root, a, b, c))
    ensures !Valid(Flat(Stored(mem1, p, i, 0), root, a, b, c))
  {
    PrunedTable(mem, root, own, n, i, p, mem1, own1, Low(a, b));
    TableAt(mem, root, own, n);
    TableAt(mem, root, own, Low(a, b));
    hide Tree, Table, Stored;
    if Table(mem, root, Low(a, b)).Some? {
      var q := Table(mem, root, Low(a, b)).value;
      EntryStored(mem1, p, i, 0, q, c);
      assert Under(ChildNode(n, i), Low(a, b)) || q in own1;
    }
  }

  /** Nothing is mapped at or above MAXVA. */
  ghost predicate NothingAbove(mem: Memory, root: nat) {
    forall a, b, c :: 256 <= a < ENTRIES && 0 <= b < ENTRIES && 0 <= c < ENTRIES ==> !Valid(Flat(mem, root, a, b, c))
  }

  lemma {:induction false} PageStart0()
    ensures Vpn(0) == 0
  {
  }

  lemma {:induction false} NothingKept(own: map<nat, Node>)
    ensures Kept(own, Root) == map[]
  {
  }

  lemma {:induction false} AllGone(mem: Memory, root: nat)
    requires NothingAbove(mem, root) && forall v :: 0 <= v < MAXVPN ==> !Valid(FlatAt(mem, root, v))
    ensures Leafless(mem, root, Root)
  {
    hide Flat;
    forall a, b, c | 0 <= a < ENTRIES && 0 <= b < ENTRIES && 0 <= c < ENTRIES
      ensures !Valid(Flat(mem, root, a, b, c))
    {
      if a < 256 {
        var v := (a * 512 + b) * 512 + c;
        Digits(a, b, c, v);
        assert !Valid(FlatAt(mem, root, v));
      }
    }
  }

  lemma {:induction false} Digits(a: nat, b: nat, c: nat, v: nat)
    requires a < 256 && b < 512 && c < 512 && v == (a * 512 + b) * 512 + c
    ensures v < MAXVPN && v / 262144 == a && v / 512 % 512 == b && v % 512 == c
  {
    assert v / 512 == a * 512 + b;
  }

  /** The word for virtual page v. */
  function FlatAt(mem: Memory, root: nat, v: nat): nat {
    Flat(mem, root, v / 262144, v / 512 % 512, v % 512)
  }

  /** The flat map with page v set to w. */
  ghost predicate Updated(mem: Memory, mem': Memory, root: nat, v: nat, w: nat) {
    forall u :: 0 <= u < MAXVPN ==> FlatAt(mem', root, u) == if u == v then w else FlatAt(mem, root, u)
  }

  lemma {:induction false} FlatUpdated(mem: Memory, mem': Memory, root: nat, va: nat, w: nat)
    requires va < MAXVA
    requires forall a, b, c :: 0 <= a < ENTRIES && 0 <= b < ENTRIES && 0 <= c < ENTRIES ==>
               Flat(mem', root, a, b, c) == if a == PX(2, va) && b == PX(1, va) && c == PX(0, va) then w
                   else Flat(mem, root, a, b, c)
    ensures Updated(mem, mem', root, Vpn(va), w) && (NothingAbove(mem, root) ==> NothingAbove(mem', root))
  {
    VpnDigits(va);
    assert PX(2, va) < 256;
    hide PX, Vpn, Flat;
    forall u | 0 <= u < MAXVPN
      ensures FlatAt(mem', root, u) == if u == Vpn(va) then w else FlatAt(mem, root, u)
    {
      PageDigits(u);
    }
  }

  lemma {:induction false} PageDigits(u: nat)
    requires u < MAXVPN
    ensures u / 262144 < ENTRIES && u / 512 % 512 < ENTRIES && u == (u / 262144 * 512 + u / 512 % 512) * 512 + u % 512
  {
    assert u / 512 / 512 == u / 262144;
  }

  lemma {:induction false} SameAt(mem: Memory, mem': Memory, root: nat)
    requires SameFlat(mem, mem', root)
    ensures forall v :: 0 <= v < MAXVPN ==> FlatAt(mem', root, v) == FlatAt(mem, root, v)
  {
    hide Flat;
    forall v | 0 <= v < MAXVPN
      ensures FlatAt(mem', root, v) == FlatAt(mem, root, v)
    {
      PageDigits(v);
    }
  }

  lemma {:induction false} UpdatedAt(mem: Memory, mem': Memory, root: nat, v: nat, w: nat)
    requires Updated(mem, mem', root, v, w)
    ensures forall u :: 0 <= u < MAXVPN ==> FlatAt(mem', root, u) == if u == v then w else FlatAt(mem, root, u)
  {
    hide FlatAt;
  }

  lemma {:induction false} Rounded(va: nat, vb: nat)
    requires va <= vb < MAXVA
    ensures va / PGSIZE * PGSIZE == Vpn(va) * PGSIZE && vb / PGSIZE * PGSIZE == Vpn(vb) * PGSIZE
            && Vpn(va) <= Vpn(vb) < MAXVPN
  {
  }

  lemma {:induction false} AtPage(v: nat, end: nat, vb: nat)
    requires v <= end == Vpn(vb) && vb < MAXVA
    ensures v * PGSIZE < MAXVA && Vpn(v * PGSIZE) == v && v < MAXVPN
  {
  }

  lemma {:induction false} PageStart(v: nat)
    requires v * PGSIZE < MAXVA
    ensures Vpn(v * PGSIZE) == v && v < MAXVPN
  {
  }

  lemma {:induction false} PageOfPa(pa: nat, k: nat)
    ensures (pa + k * PGSIZE) / PGSIZE == pa / PGSIZE + k
  {
  }

  lemma {:induction false} Aligned(va: nat)
    requires va % PGSIZE == 0
    ensures va == Vpn(va) * PGSIZE
  {
  }

  /** A valid word has a table around it. */
  lemma {:induction false} MappedSlot(mem: Memory, root: nat, va: nat)
    requires va < MAXVA && Valid(FlatAt(mem, root, Vpn(va)))
    ensures Table(mem, root, NodeAt(va, 0)).Some?
  {
    VpnDigits(va);
    hide PX, Vpn, Table;
  }

  lemma {:induction false} SlotWord(mem: Memory, root: nat, va: nat)
    requires va < MAXVA && Table(mem, root, NodeAt(va, 0)).Some?
    ensures Entry(mem, Table(mem, root, NodeAt(va, 0)).value, PX(0, va)) == FlatAt(mem, root, Vpn(va))
  {
    VpnDigits(va);
    hide PX, Vpn, Table, Entry;
  }

  lemma {:induction false} TableRoot(mem: Memory, root: nat)
    ensures Table(mem, root, Root) == Some(root)
  {
  }

  lemma {:induction false} MissingBelow(mem: Memory, root: nat, va: nat, level: nat)
    requires 0 < level <= 2 && Table(mem, root, NodeAt(va, level)).Some?
    requires !Valid(Entry(mem, Table(mem, root, NodeAt(va, level)).value, PX(level, va)))
    ensures Table(mem, root, NodeAt(va, 0)).None?
  {
    hide PX, Entry, Ppn;
  }
}
