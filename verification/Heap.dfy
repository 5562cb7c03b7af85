/**
 * The user-level allocator of user/umalloc.c: malloc, free and morecore over an address-ordered
 * circular list of free blocks.
 *
 * Addresses count headers (16 bytes).  `base` lies below the heap: it is address 0.  A block is
 * named by the address of its header, and its size counts the header.
 */
module Heap {

  datatype Option<T> = None | Some(value: T)

  const HEADER: nat := 16
  const MINUNITS: nat := 4096
  const INT_MAX: nat := 0x7fff_ffff

  // ---------------------------------------------------------------- the list and the blocks

  ghost predicate Sorted(ring: seq<nat>) {
    |ring| >= 1 && ring[0] == 0 && forall i, j :: 0 <= i < j < |ring| ==> ring[i] < ring[j]
  }

  ghost function Next(ring: seq<nat>, i: nat): nat
    requires i < |ring|
  {
    if i + 1 < |ring| then ring[i + 1] else ring[0]
  }

  /** The pointers in the headers are the ring. */
  ghost predicate Linked(ring: seq<nat>, ptr: map<nat, nat>) {
    forall i :: 0 <= i < |ring| ==> ring[i] in ptr && ptr[ring[i]] == Next(ring, i)
  }

  predicate Within(u: nat, h: nat, n: nat) {
    h <= u < h + n
  }

  /** Block h owns the units from its header on. */
  ghost predicate BlockOk(owner: map<nat, nat>, size: map<nat, nat>, h: nat) {
    && h > 0 && h in size && size[h] >= 1
    && forall u :: Within(u, h, size[h]) ==> u in owner && owner[u] == h
  }

  ghost predicate UnitOk(owner: map<nat, nat>, heads: set<nat>, size: map<nat, nat>, u: nat)
    requires u in owner
  {
    owner[u] in heads && owner[u] in size && Within(u, owner[u], size[owner[u]])
  }

  /** The blocks `heads` tile the memory obtained: unit u belongs to block owner[u] and to no other. */
  ghost predicate Tiled(owner: map<nat, nat>, heads: set<nat>, size: map<nat, nat>) {
    && (forall h :: h in heads ==> BlockOk(owner, size, h))
    && (forall u :: u in owner ==> UnitOk(owner, heads, size, u))
  }

  ghost function FreeBlocks(ring: seq<nat>): set<nat> {
    (set h | h in ring) - {0}
  }

  /** The free block at position i does not touch the next one. */
  ghost predicate Gap(ring: seq<nat>, size: map<nat, nat>, i: nat) {
    0 < i && i + 1 < |ring| ==> ring[i] in size && ring[i] + size[ring[i]] < ring[i + 1]
  }

  ghost predicate Spaced(ring: seq<nat>, size: map<nat, nat>) {
    forall i: nat :: i < |ring| ==> Gap(ring, size, i)
  }

  /** The units of free blocks. */
  ghost function FreeUnits(owner: map<nat, nat>, ring: seq<nat>): set<nat> {
    set u | u in owner && owner[u] in FreeBlocks(ring)
  }

  ghost function LiveUnits(owner: map<nat, nat>, live: set<nat>): set<nat> {
    set u | u in owner && owner[u] in live
  }

  ghost function Units(h: nat, n: nat): set<nat> {
    set u | h <= u < h + n && Within(u, h, n)
  }

  ghost predicate Blocks(owner: map<nat, nat>, ring: seq<nat>, live: set<nat>, size: map<nat, nat>) {
    Tiled(owner, live + FreeBlocks(ring), size) && live !! FreeBlocks(ring)
  }

  // ---------------------------------------------------------------- consequences

  lemma {:induction false} Owned(owner: map<nat, nat>, heads: set<nat>, size: map<nat, nat>, h: nat, u: nat)
    requires Tiled(owner, heads, size) && h in heads && h in size && Within(u, h, size[h])
    ensures u in owner && owner[u] == h
  {
    assert BlockOk(owner, size, h);
  }

  lemma {:induction false} Sized(owner: map<nat, nat>, heads: set<nat>, size: map<nat, nat>, h: nat)
    requires Tiled(owner, heads, size) && h in heads
    ensures h > 0 && h in size && size[h] >= 1
  {
    assert BlockOk(owner, size, h);
  }

  lemma {:induction false} OwnerOf(owner: map<nat, nat>, heads: set<nat>, size: map<nat, nat>, u: nat)
    requires Tiled(owner, heads, size) && u in owner
    ensures owner[u] in heads && owner[u] in size && Within(u, owner[u], size[owner[u]])
  {
    assert UnitOk(owner, heads, size, u);
  }

  /** Blocks do not overlap, whether free or allocated. */
  lemma {:induction false} Disjoint(owner: map<nat, nat>, heads: set<nat>, size: map<nat, nat>, g: nat, h: nat)
    requires Tiled(owner, heads, size) && g != h && g in heads && h in heads
    ensures g in size && h in size
    ensures g + size[g] <= h || h + size[h] <= g
  {
    hide Tiled;
    Sized(owner, heads, size, g);
    Sized(owner, heads, size, h);
    Owned(owner, heads, size, h, h);
    Owned(owner, heads, size, g, g);
    if Within(h, g, size[g]) { Owned(owner, heads, size, g, h); }
    if Within(g, h, size[h]) { Owned(owner, heads, size, h, g); }
  }

  /** Successive free blocks in the list do not overlap. */
  lemma {:induction false} InOrder(owner: map<nat, nat>, ring: seq<nat>, live: set<nat>, size: map<nat, nat>, i: nat)
    requires Blocks(owner, ring, live, size) && Sorted(ring) && 0 < i && i + 1 < |ring|
    ensures ring[i] in size && ring[i] + size[ring[i]] <= ring[i + 1]
  {
    assert ring[i] in ring && ring[i + 1] in ring;
    Disjoint(owner, live + FreeBlocks(ring), size, ring[i], ring[i + 1]);
  }

  /** No free block ends where another begins. */
  lemma {:induction false} Apart(ring: seq<nat>, size: map<nat, nat>, i: nat, j: nat)
    requires Sorted(ring) && Spaced(ring, size) && 0 < i < |ring| && 0 < j < |ring| && ring[i] in size
             && size[ring[i]] >= 1
    ensures ring[i] + size[ring[i]] != ring[j]
  {
    assert Gap(ring, size, i);
    if i < j { assert ring[i + 1] <= ring[j]; }
  }

  /** Neighbouring free units lie in one block: the free list is what the set of free units says. */
  lemma {:induction false} Together(owner: map<nat, nat>, ring: seq<nat>, live: set<nat>, size: map<nat, nat>, u: nat)
    requires Blocks(owner, ring, live, size) && Sorted(ring) && Spaced(ring, size)
    requires u in FreeUnits(owner, ring) && u + 1 in FreeUnits(owner, ring)
    ensures owner[u] == owner[u + 1]
  {
    var g, h := owner[u], owner[u + 1];
    var i :| 0 <= i < |ring| && ring[i] == g;
    var j :| 0 <= j < |ring| && ring[j] == h;
    Apart(ring, size, i, j);
    if g != h { Disjoint(owner, live + FreeBlocks(ring), size, g, h); }
  }

  lemma {:induction false} RunTogether(owner: map<nat, nat>, ring: seq<nat>, live: set<nat>, size: map<nat, nat>,
      g: nat, n: nat)
    requires Blocks(owner, ring, live, size) && Sorted(ring) && Spaced(ring, size)
    requires n >= 1 && Units(g, n) <= FreeUnits(owner, ring)
    ensures g in owner && g + n - 1 in owner && owner[g + n - 1] == owner[g] && owner[g] in FreeBlocks(ring)
    ensures owner[g] in size && size[owner[g]] >= n
    decreases n
  {
    assert g + n - 1 in Units(g, n);
    if n > 1 {
      assert Units(g, n - 1) <= Units(g, n);
      RunTogether(owner, ring, live, size, g, n - 1);
      assert g + n - 2 in Units(g, n) && g in Units(g, n);
      Together(owner, ring, live, size, g + n - 2);
    }
  }

  /** Free plus allocated units are the units obtained. */
  lemma {:induction false} UnitsConserved(owner: map<nat, nat>, ring: seq<nat>, live: set<nat>, size: map<nat, nat>)
    requires Blocks(owner, ring, live, size)
    ensures FreeUnits(owner, ring) !! LiveUnits(owner, live)
    ensures |FreeUnits(owner, ring)| + |LiveUnits(owner, live)| == |owner.Keys|
  {
    var free, taken := FreeUnits(owner, ring), LiveUnits(owner, live);
    forall u | u in owner
      ensures u in free || u in taken
    {
      OwnerOf(owner, live + FreeBlocks(ring), size, u);
    }
    hide Tiled, FreeBlocks;
    assert free + taken == owner.Keys;
  }

  // ---------------------------------------------------------------- the steps on the list

  ghost function Inserted(ring: seq<nat>, k: nat, h: nat): (r: seq<nat>)
    requires k < |ring|
    ensures |r| == |ring| + 1
  {
    ring[..k + 1] + [h] + ring[k + 1..]
  }

  ghost function Removed(ring: seq<nat>, j: nat): (r: seq<nat>)
    requires j < |ring|
    ensures |r| == |ring| - 1
  {
    ring[..j] + ring[j + 1..]
  }

  ghost function Given(owner: map<nat, nat>, h: nat, n: nat, g: nat): (r: map<nat, nat>)
    ensures r.Keys == owner.Keys
  {
    map u | u in owner :: if Within(u, h, n) then g else owner[u]
  }

  ghost function Grown(owner: map<nat, nat>, g: nat, n: nat): (r: map<nat, nat>)
    ensures r.Keys == owner.Keys + Units(g, n)
  {
    owner + map u | u in Units(g, n) :: g
  }

  ghost predicate Precedes(ring: seq<nat>, k: nat, h: nat) {
    k < |ring| && ring[k] < h && (k + 1 < |ring| ==> h < ring[k + 1])
  }

  lemma {:induction false} InsertedAt(ring: seq<nat>, k: nat, h: nat, i: nat)
    requires k < |ring| && i <= |ring|
    ensures Inserted(ring, k, h)[i] == if i <= k then ring[i] else if i == k + 1 then h else ring[i - 1]
  {
  }

  lemma {:induction false} InsertedSorted(ring: seq<nat>, k: nat, h: nat)
    requires Sorted(ring) && Precedes(ring, k, h)
    ensures Sorted(Inserted(ring, k, h))
  {
    hide Inserted;
    var r := Inserted(ring, k, h);
    InsertedAt(ring, k, h, 0);
    forall i, j | 0 <= i < j < |r|
      ensures r[i] < r[j]
    {
      InsertedAt(ring, k, h, i);
      InsertedAt(ring, k, h, j);
      assert i <= k ==> ring[i] <= ring[k];
      assert j > k + 1 ==> ring[k + 1] <= ring[j - 1];
    }
  }

  lemma {:induction false} InsertedLinked(ring: seq<nat>, ptr: map<nat, nat>, k: nat, h: nat)
    requires Sorted(ring) && Linked(ring, ptr) && Precedes(ring, k, h)
    ensures Linked(Inserted(ring, k, h), ptr[h := Next(ring, k)][ring[k] := h])
  {
    hide Inserted;
    var r, q := Inserted(ring, k, h), ptr[h := Next(ring, k)][ring[k] := h];
    forall i | 0 <= i < |r|
      ensures r[i] in q && q[r[i]] == Next(r, i)
    {
      InsertedNext(ring, ptr, k, h, i);
    }
  }

  lemma {:induction false} InsertedNext(ring: seq<nat>, ptr: map<nat, nat>, k: nat, h: nat, i: nat)
    requires Sorted(ring) && Linked(ring, ptr) && Precedes(ring, k, h) && i <= |ring|
    ensures var r, q := Inserted(ring, k, h), ptr[h := Next(ring, k)][ring[k] := h];
            r[i] in q && q[r[i]] == Next(r, i)
  {
    hide Inserted;
    InsertedAt(ring, k, h, i);
    InsertedAt(ring, k, h, if i < |ring| then i + 1 else 0);
    var o := if i <= k then i else i - 1;
    assert ring[o] in ptr && ptr[ring[o]] == Next(ring, o);
    hide Linked;
    assert o != k ==> ring[o] != ring[k];
    assert ring[o] != h by {
      assert o <= k ==> ring[o] <= ring[k];
      assert o > k ==> ring[k + 1] <= ring[o];
    }
    hide Sorted;
  }

  lemma {:induction false} InsertedBlocks(ring: seq<nat>, k: nat, h: nat)
    requires k < |ring| && h > 0
    ensures FreeBlocks(Inserted(ring, k, h)) == FreeBlocks(ring) + {h}
  {
    var r := Inserted(ring, k, h);
    assert r == ring[..k + 1] + [h] + ring[k + 1..];
    assert ring == ring[..k + 1] + ring[k + 1..];
  }

  lemma {:induction false} RemovedAt(ring: seq<nat>, j: nat, i: nat)
    requires j < |ring| && i < |ring| - 1
    ensures Removed(ring, j)[i] == if i < j then ring[i] else ring[i + 1]
  {
  }

  lemma {:induction false} RemovedSorted(ring: seq<nat>, j: nat)
    requires Sorted(ring) && 0 < j < |ring|
    ensures Sorted(Removed(ring, j))
  {
    hide Removed;
    var r := Removed(ring, j);
    RemovedAt(ring, j, 0);
    forall a, b | 0 <= a < b < |r|
      ensures r[a] < r[b]
    {
      RemovedAt(ring, j, a);
      RemovedAt(ring, j, b);
    }
  }

  lemma {:induction false} RemovedLinked(ring: seq<nat>, ptr: map<nat, nat>, j: nat)
    requires Sorted(ring) && Linked(ring, ptr) && 0 < j < |ring|
    ensures Linked(Removed(ring, j), ptr[ring[j - 1] := Next(ring, j)])
  {
    hide Removed;
    var r, q := Removed(ring, j), ptr[ring[j - 1] := Next(ring, j)];
    forall i | 0 <= i < |r|
      ensures r[i] in q && q[r[i]] == Next(r, i)
    {
      RemovedNext(ring, ptr, j, i);
    }
  }

  lemma {:induction false} RemovedNext(ring: seq<nat>, ptr: map<nat, nat>, j: nat, i: nat)
    requires Sorted(ring) && Linked(ring, ptr) && 0 < j < |ring| && i < |ring| - 1
    ensures var r, q := Removed(ring, j), ptr[ring[j - 1] := Next(ring, j)];
            r[i] in q && q[r[i]] == Next(r, i)
  {
    hide Removed;
    RemovedAt(ring, j, i);
    RemovedAt(ring, j, if i + 1 < |ring| - 1 then i + 1 else 0);
    var o := if i < j then i else i + 1;
    assert ring[o] in ptr && ptr[ring[o]] == Next(ring, o);
    hide Linked;
    assert o != j - 1 ==> ring[o] != ring[j - 1];
  }

  lemma {:induction false} RemovedBlocks(ring: seq<nat>, j: nat)
    requires Sorted(ring) && 0 < j < |ring|
    ensures FreeBlocks(Removed(ring, j)) == FreeBlocks(ring) - {ring[j]}
  {
    var r := Removed(ring, j);
    assert r == ring[..j] + ring[j + 1..];
    assert ring == ring[..j] + [ring[j]] + ring[j + 1..];
    assert ring[j] !in ring[..j] && ring[j] !in ring[j + 1..];
  }

  // ---------------------------------------------------------------- the steps on the blocks

  /** Block g takes in its right neighbour h. */
  lemma {:induction false} MergedTiled(owner: map<nat, nat>, heads: set<nat>, size: map<nat, nat>, g: nat, h: nat)
    requires Tiled(owner, heads, size) && g in heads && h in heads && g in size && h in size && g + size[g] == h
    ensures Tiled(Given(owner, h, size[h], g), heads - {h}, size[g := size[g] + size[h]])
  {
    var owner': map<nat, nat>, size': map<nat, nat> := Given(owner, h, size[h], g), size[g := size[g] + size[h]];
    Sized(owner, heads, size, g);
    forall x | x in heads - {h}
      ensures BlockOk(owner', size', x)
    {
      hide Tiled;
      Sized(owner, heads, size, x);
      forall u: nat | Within(u, x, size'[x])
        ensures u in owner' && owner'[u] == x
      {
        if x == g && u >= h { Owned(owner, heads, size, h, u); } else { Owned(owner, heads, size, x, u); }
        if x != g && Within(u, h, size[h]) { Owned(owner, heads, size, h, u); }
      }
    }
    forall u | u in owner'
      ensures UnitOk(owner', heads - {h}, size', u)
    {
      hide Tiled;
      OwnerOf(owner, heads, size, u);
    }
    hide Given, BlockOk, UnitOk;
  }

  ghost function SplitSize(size: map<nat, nat>, h: nat, n: nat): (r: map<nat, nat>)
    requires h in size && 1 <= n < size[h]
  {
    size[h := size[h] - n][h + size[h] - n := n]
  }

  lemma {:induction false} SplitSizeIs(size: map<nat, nat>, h: nat, n: nat)
    requires h in size && 1 <= n < size[h]
    ensures SplitSize(size, h, n) == size[h := size[h] - n][h + size[h] - n := n]
  {
  }

  /** Block h gives up its last n units to a new block g. */
  lemma {:induction false} SplitTiled(owner: map<nat, nat>, heads: set<nat>, size: map<nat, nat>, h: nat, n: nat,
      g: nat)
    requires Tiled(owner, heads, size) && h in heads && h in size && 1 <= n < size[h] && g == h + size[h] - n
    ensures g !in heads && Tiled(Given(owner, g, n, g), heads + {g}, SplitSize(size, h, n))
  {
    hide BlockOk, UnitOk, Given, SplitSize;
    SplitFresh(owner, heads, size, h, n);
    var owner', size' := Given(owner, g, n, g), SplitSize(size, h, n);
    forall x | x in heads + {g}
      ensures BlockOk(owner', size', x)
    {
      SplitBlock(owner, heads, size, h, n, g, x);
    }
    forall u | u in owner'
      ensures UnitOk(owner', heads + {g}, size', u)
    {
      SplitUnit(owner, heads, size, h, n, g, u);
    }
  }

  lemma {:induction false} SplitBlock(owner: map<nat, nat>, heads: set<nat>, size: map<nat, nat>, h: nat, n: nat,
      g: nat, x: nat)
    requires Tiled(owner, heads, size) && h in heads && h in size && 1 <= n < size[h] && g == h + size[h] - n
    requires (x in heads && x != g) || x == g
    ensures BlockOk(Given(owner, g, n, g), SplitSize(size, h, n), x)
  {
    var owner', size' := Given(owner, g, n, g), SplitSize(size, h, n);
    Sized(owner, heads, size, if x == g then h else x);
    hide Tiled;
    forall u: nat | Within(u, x, size'[x])
      ensures u in owner' && owner'[u] == x
    {
      if x == g { Owned(owner, heads, size, h, u); } else { Owned(owner, heads, size, x, u); }
      if x != g && Within(u, g, n) { Owned(owner, heads, size, h, u); }
    }
  }

  lemma {:induction false} SplitUnit(owner: map<nat, nat>, heads: set<nat>, size: map<nat, nat>, h: nat, n: nat, g: nat,
      u: nat)
    requires Tiled(owner, heads, size) && h in heads && h in size && 1 <= n < size[h] && g == h + size[h] - n
             && g !in heads
    requires u in owner
    ensures UnitOk(Given(owner, g, n, g), heads + {g}, SplitSize(size, h, n), u)
  {
    OwnerOf(owner, heads, size, u);
    if Within(u, g, n) { Owned(owner, heads, size, h, u); }
    hide Tiled;
  }

  lemma {:induction false} SplitFresh(owner: map<nat, nat>, heads: set<nat>, size: map<nat, nat>, h: nat, n: nat)
    requires Tiled(owner, heads, size) && h in heads && h in size && 1 <= n < size[h]
    ensures h + size[h] - n !in heads
  {
    hide Tiled;
    var g := h + size[h] - n;
    Owned(owner, heads, size, h, g);
    if g in heads {
      Sized(owner, heads, size, g);
      Owned(owner, heads, size, g, g);
    }
  }

  /** New memory is a new block. */
  lemma {:induction false} GrownTiled(owner: map<nat, nat>, heads: set<nat>, size: map<nat, nat>, g: nat, n: nat)
    requires Tiled(owner, heads, size) && g > 0 && n >= 1 && Units(g, n) !! owner.Keys
    ensures g !in heads
    ensures Tiled(Grown(owner, g, n), heads + {g}, size[g := n])
  {
    assert g in Units(g, n);
    if g in heads {
      Sized(owner, heads, size, g);
      Owned(owner, heads, size, g, g);
    }
    var owner': map<nat, nat>, size': map<nat, nat> := Grown(owner, g, n), size[g := n];
    forall x | x in heads + {g}
      ensures BlockOk(owner', size', x)
    {
      hide Tiled;
      if x != g { Sized(owner, heads, size, x); }
      forall u: nat | Within(u, x, size'[x])
        ensures u in owner' && owner'[u] == x
      {
        if x == g { assert u in Units(g, n); } else { Owned(owner, heads, size, x, u); }
      }
    }
    forall u | u in owner'
      ensures UnitOk(owner', heads + {g}, size', u)
    {
      hide Tiled;
      if u in owner { OwnerOf(owner, heads, size, u); }
    }
    hide Grown, BlockOk, UnitOk;
  }

  // ---------------------------------------------------------------- free

  ghost predicate Listed(ring: seq<nat>, ptr: map<nat, nat>, size: map<nat, nat>, owner: map<nat, nat>,
      live: set<nat>) {
    Sorted(ring) && Linked(ring, ptr) && Blocks(owner, ring, live, size)
  }

  /** Block h enters the list after position k. */
  lemma {:induction false} Insert(ring: seq<nat>, ptr: map<nat, nat>, size: map<nat, nat>, owner: map<nat, nat>,
      live: set<nat>, k: nat, h: nat)
    requires Listed(ring, ptr, size, owner, live) && Precedes(ring, k, h) && h in live && h in size
    ensures Listed(Inserted(ring, k, h), ptr[h := Next(ring, k)][ring[k] := h], size, owner, live - {h})
    ensures FreeUnits(owner, Inserted(ring, k, h)) == FreeUnits(owner, ring) + Units(h, size[h])
  {
    InsertedSorted(ring, k, h);
    InsertedLinked(ring, ptr, k, h);
    InsertedBlocks(ring, k, h);
    hide Inserted, Linked, Sorted, Tiled, Next;
    assert live - {h} + FreeBlocks(Inserted(ring, k, h)) == live + FreeBlocks(ring);
    FreeMore(owner, live + FreeBlocks(ring), size, ring, Inserted(ring, k, h), h);
  }

  lemma {:induction false} FreeMore(owner: map<nat, nat>, heads: set<nat>, size: map<nat, nat>, ring: seq<nat>,
      ring': seq<nat>, h: nat)
    requires Tiled(owner, heads, size) && h in heads && h in size && FreeBlocks(ring') == FreeBlocks(ring) + {h}
    ensures FreeUnits(owner, ring') == FreeUnits(owner, ring) + Units(h, size[h])
  {
    hide FreeBlocks, Tiled;
    forall u | u in Units(h, size[h])
      ensures u in owner && owner[u] == h
    {
      Owned(owner, heads, size, h, u);
    }
    forall u | u in owner && owner[u] == h
      ensures u in Units(h, size[h])
    {
      OwnerOf(owner, heads, size, u);
    }
  }

  /** The free block at position j takes in the one after it. */
  lemma {:induction false} Merge(ring: seq<nat>, ptr: map<nat, nat>, size: map<nat, nat>, owner: map<nat, nat>,
      live: set<nat>, j: nat)
    requires Listed(ring, ptr, size, owner, live) && 0 < j && j + 1 < |ring|
    requires ring[j] in size && ring[j + 1] in size && ring[j] + size[ring[j]] == ring[j + 1]
    ensures var g, h := ring[j], ring[j + 1];
            var owner' := Given(owner, h, size[h], g);
            && Listed(Removed(ring, j + 1), ptr[g := Next(ring, j + 1)], size[g := size[g] + size[h]], owner', live)
            && owner'.Keys == owner.Keys && FreeUnits(owner', Removed(ring, j + 1)) == FreeUnits(owner, ring)
  {
    hide Tiled, Given, FreeUnits, Removed, Linked, Next, FreeBlocks;
    RemovedSorted(ring, j + 1);
    RemovedLinked(ring, ptr, j + 1);
    MergeBlocks(ring, size, owner, live, j);
  }

  lemma {:induction false} MergeBlocks(ring: seq<nat>, size: map<nat, nat>, owner: map<nat, nat>, live: set<nat>,
      j: nat)
    requires Sorted(ring) && Blocks(owner, ring, live, size) && 0 < j && j + 1 < |ring|
    requires ring[j] in size && ring[j + 1] in size && ring[j] + size[ring[j]] == ring[j + 1]
    ensures var g, h := ring[j], ring[j + 1];
            var owner', ring' := Given(owner, h, size[h], g), Removed(ring, j + 1);
            && Blocks(owner', ring', live, size[g := size[g] + size[h]])
            && owner'.Keys == owner.Keys && FreeUnits(owner', ring') == FreeUnits(owner, ring)
  {
    var g, h := ring[j], ring[j + 1];
    RemovedBlocks(ring, j + 1);
    assert g in FreeBlocks(ring) && h in FreeBlocks(ring) && g != h;
    hide Removed, Sorted, FreeBlocks, Tiled, Given, FreeUnits;
    MergedTiled(owner, live + FreeBlocks(ring), size, g, h);
    Without(live, FreeBlocks(ring), h);
    MergedUnits(owner, live + FreeBlocks(ring), size, ring, Removed(ring, j + 1), g, h);
  }

  lemma {:induction false} Without(live: set<nat>, free: set<nat>, h: nat)
    requires live !! free && h in free
    ensures live + (free - {h}) == (live + free) - {h} && live !! free - {h}
  {
  }

  lemma {:induction false} MergedUnits(owner: map<nat, nat>, heads: set<nat>, size: map<nat, nat>, ring: seq<nat>,
      ring': seq<nat>, g: nat, h: nat)
    requires Tiled(owner, heads, size) && g in heads && h in heads && h in size && g != h
    requires g in FreeBlocks(ring) && h in FreeBlocks(ring) && FreeBlocks(ring') == FreeBlocks(ring) - {h}
    ensures FreeUnits(Given(owner, h, size[h], g), ring') == FreeUnits(owner, ring)
  {
    hide FreeBlocks, Tiled;
    forall u | u in owner && Within(u, h, size[h])
      ensures owner[u] == h
    {
      Owned(owner, heads, size, h, u);
    }
    forall u | u in owner && owner[u] == h
      ensures Within(u, h, size[h])
    {
      OwnerOf(owner, heads, size, u);
    }
  }

  // ---------------------------------------------------------------- gaps

  lemma {:induction false} InsertedGaps(ring: seq<nat>, size: map<nat, nat>, k: nat, h: nat)
    requires Sorted(ring) && Spaced(ring, size) && Precedes(ring, k, h)
    ensures forall i: nat :: i <= |ring| && i != k && i != k + 1 ==> Gap(Inserted(ring, k, h), size, i)
  {
    hide Inserted;
    forall i: nat | i <= |ring| && i != k && i != k + 1
      ensures Gap(Inserted(ring, k, h), size, i)
    {
      InsertedAt(ring, k, h, i);
      if i < |ring| { InsertedAt(ring, k, h, i + 1); }
      assert Gap(ring, size, if i < k then i else i - 1);
    }
  }

  /** Merging at j closes the gap there and leaves the others. */
  lemma {:induction false} MergedGaps(ring: seq<nat>, size: map<nat, nat>, j: nat, i: nat)
    requires Sorted(ring) && 0 < j && j + 1 < |ring| && ring[j] in size && ring[j + 1] in size
    requires ring[j] + size[ring[j]] == ring[j + 1] && i < |ring| - 1 && Gap(ring, size, if i < j then i else i + 1)
    ensures Gap(Removed(ring, j + 1), size[ring[j] := size[ring[j]] + size[ring[j + 1]]], i)
  {
    hide Removed;
    RemovedAt(ring, j + 1, i);
    if i + 1 < |ring| - 1 { RemovedAt(ring, j + 1, i + 1); }
    assert i < j ==> ring[i] != ring[j];
  }

  ghost predicate SpacedBut(ring: seq<nat>, size: map<nat, nat>, k: nat) {
    forall i: nat :: i < |ring| && i != k ==> Gap(ring, size, i)
  }

  /** There is one place in the list for a block that is not in it. */
  lemma {:induction false} FindSlot(ring: seq<nat>, h: nat, n: nat) returns (k: nat)
    requires Sorted(ring) && h > 0 && h !in ring && 1 <= n <= |ring| && (n < |ring| ==> h < ring[n])
    ensures Precedes(ring, k, h)
    decreases n
  {
    if ring[n - 1] < h {
      k := n - 1;
    } else {
      k := FindSlot(ring, h, n - 1);
    }
  }

  /** The blocks in live keep their sizes. */
  ghost predicate Kept(live: set<nat>, size: map<nat, nat>, size': map<nat, nat>) {
    forall h :: h in live && h in size ==> h in size' && size'[h] == size[h]
  }

  lemma {:induction false} HeadOk(ring: seq<nat>, ptr: map<nat, nat>, size: map<nat, nat>, owner: map<nat, nat>,
      live: set<nat>, h: nat)
    requires Listed(ring, ptr, size, owner, live) && h in live
    ensures h > 0 && h in size && size[h] >= 1 && h !in ring
  {
    assert BlockOk(owner, size, h);
    assert h !in FreeBlocks(ring);
  }

  lemma {:induction false} RingSized(ring: seq<nat>, ptr: map<nat, nat>, size: map<nat, nat>, owner: map<nat, nat>,
      live: set<nat>, i: nat)
    requires Listed(ring, ptr, size, owner, live) && 0 < i < |ring|
    ensures ring[i] > 0 && ring[i] in size && size[ring[i]] >= 1 && ring[i] !in live
  {
    assert ring[i] in FreeBlocks(ring);
    assert BlockOk(owner, size, ring[i]);
  }

  /** Memory from sbrk, made to look like an allocated block. */
  lemma {:induction false} NewBlock(ring: seq<nat>, ptr: map<nat, nat>, size: map<nat, nat>, owner: map<nat, nat>,
      live: set<nat>, g: nat, n: nat)
    requires Listed(ring, ptr, size, owner, live) && Spaced(ring, size) && g > 0 && n >= 1 && Units(g, n) !! owner.Keys
    ensures g !in live && g !in ring && Kept(live, size, size[g := n])
    ensures Listed(ring, ptr, size[g := n], Grown(owner, g, n), live + {g}) && Spaced(ring, size[g := n])
    ensures FreeUnits(Grown(owner, g, n), ring) == FreeUnits(owner, ring)
  {
    var heads := live + FreeBlocks(ring);
    GrownTiled(owner, heads, size, g, n);
    assert g !in FreeBlocks(ring);
    assert heads + {g} == live + {g} + FreeBlocks(ring);
    hide Tiled, Linked, Grown, Units;
    NewGaps(ring, size, g, n);
    GrownFree(owner, ring, g, n);
  }

  lemma {:induction false} NewGaps(ring: seq<nat>, size: map<nat, nat>, g: nat, n: nat)
    requires Spaced(ring, size) && g !in ring
    ensures Spaced(ring, size[g := n])
  {
    var size' := size[g := n];
    forall i: nat | i < |ring|
      ensures Gap(ring, size', i)
    {
      assert Gap(ring, size, i);
    }
  }

  lemma {:induction false} GrownFree(owner: map<nat, nat>, ring: seq<nat>, g: nat, n: nat)
    requires g !in FreeBlocks(ring) && Units(g, n) !! owner.Keys
    ensures FreeUnits(Grown(owner, g, n), ring) == FreeUnits(owner, ring)
  {
    hide FreeBlocks, Units;
  }

  /** free's first half, when the block touches the next free one. */
  lemma {:induction false} RightJoined(ring: seq<nat>, ptr: map<nat, nat>, size: map<nat, nat>, owner: map<nat, nat>,
      live: set<nat>, k: nat, h: nat)
    requires Listed(ring, ptr, size, owner, live) && Spaced(ring, size) && Precedes(ring, k, h) && h in live
             && h in size
    requires k + 1 < |ring| && ring[k + 1] in size && h + size[h] == ring[k + 1]
    ensures var next := ring[k + 1];
            var ring', owner' := Removed(Inserted(ring, k, h), k + 2), Given(owner, next, size[next], h);
            var size' := size[h := size[h] + size[next]];
            && next in ptr && Listed(ring', ptr[h := ptr[next]][ring[k] := h], size', owner', live - {h})
                && SpacedBut(ring', size', k)
            && owner'.Keys == owner.Keys && FreeUnits(owner', ring') == FreeUnits(owner, ring) + Units(h, size[h])
            && k + 1 < |ring'| && ring'[k] == ring[k] && ring'[k + 1] == h
  {
    hide Inserted, Removed, Linked, Blocks, Given, FreeUnits, FreeBlocks, Units, Listed, Gap;
    var next, ring1, ptr1 := ring[k + 1], Inserted(ring, k, h), ptr[h := ring[k + 1]][ring[k] := h];
    PointsOn(ring, ptr, size, owner, live, k + 1);
    InsertedHere(ring, k, h);
    Insert(ring, ptr, size, owner, live, k, h);
    InsertedGaps(ring, size, k, h);
    SortedOf(ring1, ptr1, size, owner, live - {h});
    Merge(ring1, ptr1, size, owner, live - {h}, k + 1);
    Reordered(ptr, h, next, ptr[next], ring[k]);
    RemovedAt(ring1, k + 2, k);
    RemovedAt(ring1, k + 2, k + 1);
    MergedSpaced(ring1, size, k + 1, k);
  }

  lemma {:induction false} InsertedHere(ring: seq<nat>, k: nat, h: nat)
    requires k + 1 < |ring|
    ensures var r := Inserted(ring, k, h);
            r[k] == ring[k] && r[k + 1] == h && r[k + 2] == ring[k + 1] && Next(r, k + 2) == Next(ring, k + 1)
  {
    InsertedAt(ring, k, h, 0);
  }

  lemma {:induction false} Reordered(ptr: map<nat, nat>, h: nat, x: nat, y: nat, p: nat)
    requires h != p
    ensures ptr[h := x][p := h][h := y] == ptr[h := y][p := h]
  {
  }

  lemma {:induction false} PointsOn(ring: seq<nat>, ptr: map<nat, nat>, size: map<nat, nat>, owner: map<nat, nat>,
      live: set<nat>, i: nat)
    requires Listed(ring, ptr, size, owner, live) && i < |ring|
    ensures Sorted(ring) && ring[i] in ptr && ptr[ring[i]] == Next(ring, i)
  {
  }

  lemma {:induction false} SortedOf(ring: seq<nat>, ptr: map<nat, nat>, size: map<nat, nat>, owner: map<nat, nat>,
      live: set<nat>)
    requires Listed(ring, ptr, size, owner, live)
    ensures Sorted(ring) && Blocks(owner, ring, live, size)
  {
  }

  lemma {:induction false} MergedSpaced(ring: seq<nat>, size: map<nat, nat>, j: nat, k: nat)
    requires Sorted(ring) && 0 < j && j + 1 < |ring| && ring[j] in size && ring[j + 1] in size
    requires ring[j] + size[ring[j]] == ring[j + 1] && (k == j || k == j - 1)
    requires forall i: nat :: i < |ring| && i != k && i != j ==> Gap(ring, size, i)
    ensures SpacedBut(Removed(ring, j + 1), size[ring[j] := size[ring[j]] + size[ring[j + 1]]], if k == j then |ring|
            else k)
  {
    hide Removed, Gap, Sorted;
    var but := if k == j then |ring| else k;
    var ring', size' := Removed(ring, j + 1), size[ring[j] := size[ring[j]] + size[ring[j + 1]]];
    forall i: nat | i < |ring'| && i != but
      ensures Gap(ring', size', i)
    {
      MergedGaps(ring, size, j, i);
    }
  }

  /** free's first half otherwise. */
  lemma {:induction false} RightApart(ring: seq<nat>, ptr: map<nat, nat>, size: map<nat, nat>, owner: map<nat, nat>,
      live: set<nat>, k: nat, h: nat)
    requires Listed(ring, ptr, size, owner, live) && Spaced(ring, size) && Precedes(ring, k, h) && h in live
             && h in size
    requires k + 1 < |ring| ==> h + size[h] != ring[k + 1]
    ensures var ring' := Inserted(ring, k, h);
            && Listed(ring', ptr[h := Next(ring, k)][ring[k] := h], size, owner, live - {h})
                && SpacedBut(ring', size, k)
            && FreeUnits(owner, ring') == FreeUnits(owner, ring) + Units(h, size[h])
            && ring'[k] == ring[k] && ring'[k + 1] == h
  {
    var ring1 := Inserted(ring, k, h);
    hide Inserted, Linked, Blocks, FreeUnits, Units, Listed;
    InsertedAt(ring, k, h, k);
    InsertedAt(ring, k, h, k + 1);
    SortedOf(ring, ptr, size, owner, live);
    Insert(ring, ptr, size, owner, live, k, h);
    SortedOf(ring1, ptr[h := Next(ring, k)][ring[k] := h], size, owner, live - {h});
    InsertedGaps(ring, size, k, h);
    if k + 1 < |ring| {
      InsertedAt(ring, k, h, k + 2);
      InOrder(owner, ring1, live - {h}, size, k + 1);
    }
  }

  /** free's second half: join the block before, if it touches. */
  lemma {:induction false} LeftJoined(ring: seq<nat>, ptr: map<nat, nat>, size: map<nat, nat>, owner: map<nat, nat>,
      live: set<nat>, k: nat)
    requires Listed(ring, ptr, size, owner, live) && SpacedBut(ring, size, k) && 0 < k && k + 1 < |ring|
    requires ring[k] in size && ring[k + 1] in size && ring[k] + size[ring[k]] == ring[k + 1]
    ensures var p, h := ring[k], ring[k + 1];
            var ring', owner' := Removed(ring, k + 1), Given(owner, h, size[h], p);
            var size' := size[p := size[p] + size[h]];
            && h in ptr && Listed(ring', ptr[p := ptr[h]], size', owner', live) && Spaced(ring', size')
            && owner'.Keys == owner.Keys && FreeUnits(owner', ring') == FreeUnits(owner, ring)
            && k < |ring'| && ring'[k] == p
  {
    hide Removed, Linked, Blocks, Given, FreeUnits, Listed, Gap;
    PointsOn(ring, ptr, size, owner, live, k + 1);
    Merge(ring, ptr, size, owner, live, k);
    RemovedAt(ring, k + 1, k);
    MergedSpaced(ring, size, k, k);
  }

  lemma {:induction false} LeftApart(ring: seq<nat>, ptr: map<nat, nat>, size: map<nat, nat>, owner: map<nat, nat>,
      live: set<nat>, k: nat)
    requires Listed(ring, ptr, size, owner, live) && SpacedBut(ring, size, k) && k + 1 < |ring|
    requires k > 0 ==> ring[k] in size && ring[k] + size[ring[k]] != ring[k + 1]
    ensures Spaced(ring, size)
  {
    if k > 0 { InOrder(owner, ring, live, size, k); }
  }

  /** malloc takes a whole free block off the list. */
  lemma {:induction false} TakeWhole(ring: seq<nat>, ptr: map<nat, nat>, size: map<nat, nat>, owner: map<nat, nat>,
      live: set<nat>, j: nat)
    requires Listed(ring, ptr, size, owner, live) && Spaced(ring, size) && 0 < j < |ring| && ring[j] in size
    ensures var p, ring' := ring[j], Removed(ring, j);
            && p !in live && Listed(ring', ptr[ring[j - 1] := Next(ring, j)], size, owner, live + {p})
                && Spaced(ring', size)
            && Units(p, size[p]) <= FreeUnits(owner, ring)
            && FreeUnits(owner, ring') == FreeUnits(owner, ring) - Units(p, size[p])
            && j - 1 < |ring'| && ring'[j - 1] == ring[j - 1]
  {
    var p, ring' := ring[j], Removed(ring, j);
    RingSized(ring, ptr, size, owner, live, j);
    RemovedSorted(ring, j);
    RemovedLinked(ring, ptr, j);
    RemovedBlocks(ring, j);
    RemovedAt(ring, j, j - 1);
    RemovedGaps(ring, size, j);
    assert p in FreeBlocks(ring);
    hide Removed, Linked, Sorted, Tiled, Next, FreeBlocks, Spaced;
    assert live + {p} + FreeBlocks(ring') == live + FreeBlocks(ring);
    assert FreeBlocks(ring) == FreeBlocks(ring') + {p};
    FreeMore(owner, live + FreeBlocks(ring), size, ring', ring, p);
    FreeApart(owner, live + FreeBlocks(ring), size, ring', p);
  }

  lemma {:induction false} FreeApart(owner: map<nat, nat>, heads: set<nat>, size: map<nat, nat>, ring: seq<nat>, h: nat)
    requires Tiled(owner, heads, size) && h in heads && h in size && h !in FreeBlocks(ring)
    ensures FreeUnits(owner, ring) !! Units(h, size[h])
  {
    hide FreeBlocks, Tiled;
    forall u | u in Units(h, size[h])
      ensures u in owner && owner[u] == h
    {
      Owned(owner, heads, size, h, u);
    }
  }

  lemma {:induction false} RemovedGaps(ring: seq<nat>, size: map<nat, nat>, j: nat)
    requires Sorted(ring) && Spaced(ring, size) && 0 < j < |ring|
    ensures Spaced(Removed(ring, j), size)
  {
    hide Removed;
    var ring' := Removed(ring, j);
    forall i: nat | i < |ring'|
      ensures Gap(ring', size, i)
    {
      RemovedAt(ring, j, i);
      if i + 1 < |ring'| { RemovedAt(ring, j, i + 1); }
      assert Gap(ring, size, if i < j then i else i + 1);
    }
  }

  /** malloc takes the last n units of a larger free block. */
  lemma {:induction false} TakeTail(ring: seq<nat>, ptr: map<nat, nat>, size: map<nat, nat>, owner: map<nat, nat>,
      live: set<nat>, j: nat, n: nat)
    requires Listed(ring, ptr, size, owner, live) && Spaced(ring, size) && 0 < j < |ring| && ring[j] in size
             && 1 <= n < size[ring[j]]
    ensures var h := ring[j];
            var g := h + size[h] - n;
            var owner', size' := Given(owner, g, n, g), SplitSize(size, h, n);
            && g !in live && Listed(ring, ptr, size', owner', live + {g}) && Spaced(ring, size')
                && Kept(live, size, size')
            && Units(g, n) <= FreeUnits(owner, ring) && FreeUnits(owner', ring) == FreeUnits(owner, ring) - Units(g, n)
            && (0 in size && size[0] == 0 ==> 0 in size' && size'[0] == 0)
  {
    hide Tiled, Given, FreeUnits, Units, SplitSize, Linked, Spaced, Sorted;
    var h := ring[j];
    var g := h + size[h] - n;
    RingSized(ring, ptr, size, owner, live, j);
    assert h in FreeBlocks(ring);
    hide FreeBlocks;
    SplitTiled(owner, live + FreeBlocks(ring), size, h, n, g);
    NotListed(ring, g);
    WithOne(live, FreeBlocks(ring), g);
    SplitUnits(owner, live + FreeBlocks(ring), size, ring, h, n, g);
    SplitGaps(ring, size, j, n);
    SplitKept(live, size, h, n);
  }

  lemma {:induction false} NotListed(ring: seq<nat>, g: nat)
    requires g > 0 && g !in FreeBlocks(ring)
    ensures g !in ring
  {
  }

  lemma {:induction false} WithOne(live: set<nat>, free: set<nat>, g: nat)
    requires live !! free && g !in live + free
    ensures live + {g} + free == live + free + {g} && live + {g} !! free && g !in live
  {
  }

  lemma {:induction false} SplitKept(live: set<nat>, size: map<nat, nat>, h: nat, n: nat)
    requires h > 0 && h in size && 1 <= n < size[h] && h !in live && h + size[h] - n !in live
    ensures Kept(live, size, SplitSize(size, h, n))
    ensures 0 in size && size[0] == 0 ==> 0 in SplitSize(size, h, n) && SplitSize(size, h, n)[0] == 0
  {
  }

  lemma {:induction false} SplitUnits(owner: map<nat, nat>, heads: set<nat>, size: map<nat, nat>, ring: seq<nat>,
      h: nat, n: nat, g: nat)
    requires Tiled(owner, heads, size) && h in heads && h in size && 1 <= n < size[h] && g == h + size[h] - n
    requires h in FreeBlocks(ring) && g !in heads && FreeBlocks(ring) <= heads
    ensures Units(g, n) <= FreeUnits(owner, ring)
    ensures FreeUnits(Given(owner, g, n, g), ring) == FreeUnits(owner, ring) - Units(g, n)
  {
    hide FreeBlocks, Tiled;
    forall u | u in Units(g, n)
      ensures u in owner && owner[u] == h
    {
      Owned(owner, heads, size, h, u);
    }
  }

  lemma {:induction false} SplitGaps(ring: seq<nat>, size: map<nat, nat>, j: nat, n: nat)
    requires Sorted(ring) && Spaced(ring, size) && 0 < j < |ring| && ring[j] in size && 1 <= n < size[ring[j]]
    requires ring[j] + size[ring[j]] - n !in ring
    ensures Spaced(ring, SplitSize(size, ring[j], n))
  {
    var size' := SplitSize(size, ring[j], n);
    forall i: nat | i < |ring|
      ensures Gap(ring, size', i)
    {
      assert Gap(ring, size, i);
    }
  }

  // ---------------------------------------------------------------- malloc's search

  /** The list as malloc walks it: from the element after position k round to position k. */
  ghost function Order(ring: seq<nat>, k: nat): (r: seq<nat>)
    requires k < |ring|
    ensures |r| == |ring|
  {
    ring[k + 1..] + ring[..k + 1]
  }

  function SizeOf(size: map<nat, nat>, h: nat): nat {
    if h in size then size[h] else 0
  }

  /** The first block on the way that holds n units; the length of the way if there is none. */
  ghost function FirstFit(order: seq<nat>, size: map<nat, nat>, n: nat): (d: nat)
    ensures d <= |order| && (d < |order| ==> SizeOf(size, order[d]) >= n)
    ensures forall e :: 0 <= e < d ==> SizeOf(size, order[e]) < n
  {
    if order == [] || SizeOf(size, order[0]) >= n then 0 else 1 + FirstFit(order[1..], size, n)
  }

  lemma {:induction false} FirstFitIs(order: seq<nat>, size: map<nat, nat>, n: nat, d: nat)
    requires d <= |order| && (d < |order| ==> SizeOf(size, order[d]) >= n)
    requires forall e :: 0 <= e < d ==> SizeOf(size, order[e]) < n
    ensures d == FirstFit(order, size, n)
  {
    var f := FirstFit(order, size, n);
    assert !(f < d);
  }

  /** Position in the list of the d-th element on the way. */
  function Turn(k: nat, d: nat, n: nat): (j: nat)
    requires k < n && d < n
    ensures j < n
  {
    if k + 1 + d < n then k + 1 + d else k + 1 + d - n
  }

  lemma {:induction false} OrderAt(ring: seq<nat>, k: nat, d: nat)
    requires k < |ring| && d < |ring|
    ensures Order(ring, k)[d] == ring[Turn(k, d, |ring|)]
  {
  }

  lemma {:induction false} TurnFacts(ring: seq<nat>, k: nat, d: nat)
    requires Sorted(ring) && k < |ring| && d < |ring|
    ensures var j := Turn(k, d, |ring|);
            && j < |ring| && Order(ring, k)[d] == ring[j] && (ring[j] == ring[k] <==> d == |ring| - 1)
            && (d + 1 < |ring| ==> Next(ring, j) == ring[Turn(k, d + 1, |ring|)]
                                   && Turn(k, d + 1, |ring|) == if j + 1 < |ring| then j + 1 else 0)
    ensures Next(ring, k) == ring[Turn(k, 0, |ring|)] && Turn(k, 0, |ring|) == if k + 1 < |ring| then k + 1 else 0
  {
    assert forall i, j :: 0 <= i < |ring| && 0 <= j < |ring| && i != j ==> ring[i] != ring[j];
    OrderAt(ring, k, d);
  }

  lemma {:induction false} OrderHas(ring: seq<nat>, k: nat, h: nat)
    requires k < |ring|
    ensures h in Order(ring, k) <==> h in ring
  {
    assert ring == ring[..k + 1] + ring[k + 1..];
  }

  // ---------------------------------------------------------------- sbrk

  /** malloc rounds up to whole headers, and adds one. */
  function UnitsFor(nbytes: nat): nat {
    (nbytes + HEADER - 1) / HEADER + 1
  }

  function Asked(nu: nat): nat {
    if nu < MINUNITS then MINUNITS else nu
  }

  /** sbrk takes an int: the low 32 bits of the byte count, signed. */
  function SbrkArgument(nu: nat): int {
    var low := (nu * HEADER) % 0x1_0000_0000;
    if low <= INT_MAX then low else low - 0x1_0000_0000
  }

  /** The requests for which sbrk is asked for the memory that morecore then hands out. */
  predicate Fits(nbytes: nat) {
    nbytes <= 0x7fff_ffe0
  }

  lemma {:induction false} SbrkAskedRight(nbytes: nat)
    requires nbytes < 0x1_0000_0000
    ensures SbrkArgument(Asked(UnitsFor(nbytes))) == Asked(UnitsFor(nbytes)) * HEADER <==> Fits(nbytes)
  {
    var nu := Asked(UnitsFor(nbytes));
    assert nu * HEADER <= 0x1_0000_0010;
    if Fits(nbytes) { assert UnitsFor(nbytes) <= 0x7ff_ffff; } else { assert UnitsFor(nbytes) >= 0x800_0000; }
  }

  /** 4294967280 bytes: sbrk is asked for 0 bytes, and morecore hands out 2^28 units. */
  lemma {:induction false} SbrkAskedWrong()
    ensures Asked(UnitsFor(0xffff_fff0)) == 0x1000_0000 && SbrkArgument(Asked(UnitsFor(0xffff_fff0))) == 0
  {
  }

  // ---------------------------------------------------------------- the allocator

  class Allocator {
    var ptr: map<nat, nat>       // s.ptr of the header at each address
    var size: map<nat, nat>      // s.size
    var freep: nat
    var started: bool            // freep != 0
    ghost var ring: seq<nat>
    ghost var at: nat            // position of freep
    ghost var live: set<nat>     // allocated blocks
    ghost var owner: map<nat, nat>

    ghost predicate Valid()
      reads this
    {
      if started then
        && Listed(ring, ptr, size, owner, live) && Spaced(ring, size)
        && 0 in size && size[0] == 0 && at < |ring| && freep == ring[at]
      else ring == [0] && live == {} && owner == map[] && at == 0
    }

    constructor ()
      ensures Valid() && live == {} && owner == map[] && ring == [0] && at == 0 && !started
    {
      ptr, size, freep, started := map[], map[], 0, false;
      ring, live, owner, at := [0], {}, map[], 0;
    }

    /** free, lines 33-37: joins bp to the next free block, or links it before that. */
    method JoinRight(bp: nat, p: nat, ghost k: nat)
      requires started && Valid() && bp in live && Precedes(ring, k, bp) && p == ring[k]
      modifies this`ptr, this`size, this`ring, this`live, this`owner
      ensures Listed(ring, ptr[p := bp], size, owner, live) && SpacedBut(ring, size, k)
      ensures k + 1 < |ring| && ring[k] == p && ring[k + 1] == bp && 0 in size && size[0] == 0
      ensures live == old(live) - {bp} && owner.Keys == old(owner.Keys) && p in ptr && bp in ptr
      ensures bp in old(size) && FreeUnits(owner, ring) == old(FreeUnits(owner, ring)) + Units(bp, old(size[bp]))
      ensures Kept(old(live) - {bp}, old(size), size)
    {
      hide Listed, Spaced, SpacedBut, FreeUnits, Units, Given, Inserted, Removed;
      PointsOn(ring, ptr, size, owner, live, k);
      HeadOk(ring, ptr, size, owner, live, bp);
      ghost var size0, live0 := size, live;
      if bp + size[bp] == ptr[p] {
        PointsOn(ring, ptr, size, owner, live, k + 1);
        RingSized(ring, ptr, size, owner, live, k + 1);
        RightJoined(ring, ptr, size, owner, live, k, bp);
        ghost var next := ptr[p];
        ring, owner, live := Removed(Inserted(ring, k, bp), k + 2), Given(owner, next, size[next], bp), live - {bp};
        size := size[bp := size[bp] + size[ptr[p]]];
        ptr := ptr[bp := ptr[ptr[p]]];
      } else {
        RightApart(ring, ptr, size, owner, live, k, bp);
        ring, live := Inserted(ring, k, bp), live - {bp};
        ptr := ptr[bp := ptr[p]];
      }
    }

    /** free, lines 38-43: joins bp to the free block before it, or links it after that. */
    method JoinLeft(bp: nat, p: nat, ghost k: nat)
      requires started && Listed(ring, ptr[p := bp], size, owner, live) && SpacedBut(ring, size, k) && p in ptr
               && bp in ptr
      requires k + 1 < |ring| && ring[k] == p && ring[k + 1] == bp && 0 in size && size[0] == 0
      modifies this`ptr, this`size, this`freep, this`ring, this`at, this`owner
      ensures Valid() && owner.Keys == old(owner.Keys) && FreeUnits(owner, ring) == old(FreeUnits(owner, ring))
      ensures Kept(live, old(size), size)
    {
      hide Listed, Spaced, SpacedBut, FreeUnits, Given, Removed;
      ghost var ptr1 := ptr[p := bp];
      PointsOn(ring, ptr1, size, owner, live, k + 1);
      RingSized(ring, ptr1, size, owner, live, k + 1);
      if k > 0 { RingSized(ring, ptr1, size, owner, live, k); }
      if p + size[p] == bp {
        LeftJoined(ring, ptr1, size, owner, live, k);
        ring, owner := Removed(ring, k + 1), Given(owner, bp, size[bp], p);
        size := size[p := size[p] + size[bp]];
        ptr := ptr[p := ptr[bp]];
        assert ptr == ptr1[p := ptr1[bp]];
      } else {
        LeftApart(ring, ptr1, size, owner, live, k);
        ptr := ptr[p := bp];
      }
      freep := p;
      at := k;
    }

    /** Walks the list from freep to the place of bp. */
    method FindPlace(bp: nat) returns (p: nat, ghost k: nat)
      requires started && Valid() && bp in live
      ensures Precedes(ring, k, bp) && p == ring[k]
    {
      hide Listed, Spaced;
      HeadOk(ring, ptr, size, owner, live, bp);
      SortedOf(ring, ptr, size, owner, live);
      ghost var t := FindSlot(ring, bp, |ring|);
      p, k := freep, at;
      PointsOn(ring, ptr, size, owner, live, k);
      while !(bp > p && bp < ptr[p])
        invariant k < |ring| && p == ring[k] && p in ptr && ptr[p] == Next(ring, k)
        decreases if k <= t then t - k else t - k + |ring|
      {
        if p >= ptr[p] && (bp > p || bp < ptr[p]) {
          break;
        }
        p := ptr[p];
        k := if k + 1 < |ring| then k + 1 else 0;
        PointsOn(ring, ptr, size, owner, live, k);
      }
    }

    /** free(ap), for the block whose header is at bp = ap - 1. */
    method Free(bp: nat)
      requires Valid() && bp in live
      modifies this
      ensures Valid() && started && live == old(live) - {bp} && owner.Keys == old(owner.Keys)
      ensures bp in old(size) && FreeUnits(owner, ring) == old(FreeUnits(owner, ring)) + Units(bp, old(size[bp]))
      ensures Kept(live, old(size), size)
    {
      hide Listed, Spaced, SpacedBut, FreeUnits, Units;
      var p;
      ghost var k;
      p, k := FindPlace(bp);
      ghost var size0 := size;
      JoinRight(bp, p, k);
      JoinLeft(bp, p, k);
    }

    /** morecore, given what sbrk returned. */
    method MoreCore(nunits: nat, grant: Option<nat>) returns (ok: bool)
      requires started && Valid() && nunits >= 1
      requires grant.Some? ==> grant.value > 0 && Units(grant.value, Asked(nunits)) !! owner.Keys
      modifies this
      ensures Valid() && started && live == old(live) && ok == grant.Some? && Kept(live, old(size), size)
      ensures !ok ==> ring == old(ring) && size == old(size) && owner == old(owner) && at == old(at) && ptr == old(ptr)
      ensures ok ==>
                var added := Units(grant.value, if nunits < 4096 then 4096 else nunits);
                owner.Keys == old(owner.Keys) + added && FreeUnits(owner, ring) == old(FreeUnits(owner, ring)) + added
    {
      var nu := nunits;
      if nu < MINUNITS {
        nu := MINUNITS;
      }
      match grant
      case None => ok := false;
      case Some(hp) =>
        hide Listed, Spaced, FreeUnits, Units;
        NewBlock(ring, ptr, size, owner, live, hp, nu);
        ghost var live0, size0 := live, size;
        size := size[hp := nu];
        owner, live := Grown(owner, hp, nu), live + {hp};
        Free(hp);
        ok := true;
    }

    /** What malloc sees at the d-th element on its way. */
    lemma {:induction false} LookAt(d: nat)
      requires started && Valid() && d < |ring|
      ensures var j := Turn(at, d, |ring|);
              && Order(ring, at)[d] == ring[j] && (ring[j] == freep <==> d == |ring| - 1)
              && ring[j] in ptr && ring[j] in size && SizeOf(size, ring[j]) == size[ring[j]]
                  && (j == 0 ==> size[ring[j]] == 0)
              && (d + 1 < |ring| ==> ptr[ring[j]] == ring[Turn(at, d + 1, |ring|)]
                                     && Turn(at, d + 1, |ring|) == if j + 1 < |ring| then j + 1 else 0)
    {
      hide Listed, Spaced, Turn, Order;
      var j := Turn(at, d, |ring|);
      PointsOn(ring, ptr, size, owner, live, j);
      TurnFacts(ring, at, d);
      if j > 0 { RingSized(ring, ptr, size, owner, live, j); }
    }

    /** malloc's loop, up to the first block that fits or once round the list. */
    method Search(nunits: nat) returns (found: bool, prevp: nat, p: nat, ghost d: nat)
      requires started && Valid() && nunits >= 1
      ensures d == FirstFit(Order(ring, at), size, nunits) && found == (d < |ring|)
      ensures found ==> var j := Turn(at, d, |ring|); j > 0 && p == ring[j] && prevp == ring[j - 1]
    {
      hide Listed, Spaced, Order, FirstFit, Turn, Sorted, SizeOf, Next;
      prevp := freep;
      PointsOn(ring, ptr, size, owner, live, at);
      p := ptr[prevp];
      d := 0;
      found := false;
      TurnFacts(ring, at, 0);
      ghost var j := Turn(at, 0, |ring|);
      while true
        invariant d < |ring| && j == Turn(at, d, |ring|) && p == ring[j]
                  && prevp == ring[if j > 0 then j - 1 else |ring| - 1]
        invariant forall e :: 0 <= e < d ==> SizeOf(size, Order(ring, at)[e]) < nunits
        decreases |ring| - d
      {
        LookAt(d);
        if size[p] >= nunits {
          FirstFitIs(Order(ring, at), size, nunits, d);
          found := true;
          return;
        }
        if p == freep {
          FirstFitIs(Order(ring, at), size, nunits, d + 1);
          d := d + 1;
          return;
        }
        prevp := p;
        p := ptr[p];
        d := d + 1;
        j := Turn(at, d, |ring|);
      }
    }

    /** malloc, lines 76-83: unlinks a block that fits exactly, or takes the tail of a larger one. */
    method Carve(nunits: nat, prevp: nat, found: nat, ghost j: nat) returns (p: nat)
      requires started && Valid() && nunits >= 1 && 0 < j < |ring| && found == ring[j] && prevp == ring[j - 1]
      requires found in size && size[found] >= nunits
      modifies this
      ensures Valid() && started && p == found + old(size[found]) - nunits && freep == prevp
      ensures p !in old(live) && live == old(live) + {p} && p in size && size[p] == nunits
              && Kept(old(live), old(size), size)
      ensures owner.Keys == old(owner.Keys)
      ensures Units(p, nunits) <= old(FreeUnits(owner, ring))
      ensures FreeUnits(owner, ring) == old(FreeUnits(owner, ring)) - Units(p, nunits)
    {
      p := found;
      hide Listed, Spaced, FreeUnits, Units, Removed, Given, SplitSize;
      PointsOn(ring, ptr, size, owner, live, j);
      RingSized(ring, ptr, size, owner, live, j);
      if size[p] == nunits {
        TakeWhole(ring, ptr, size, owner, live, j);
        ring, live := Removed(ring, j), live + {p};
        ptr := ptr[prevp := ptr[p]];
      } else {
        TakeTail(ring, ptr, size, owner, live, j, nunits);
        ghost var g := found + size[found] - nunits;
        SplitSizeIs(size, found, nunits);
        owner, live := Given(owner, g, nunits, g), live + {g};
        size := size[p := size[p] - nunits];
        p := p + size[p];
        size := size[p := nunits];
      }
      freep := prevp;
      at := j - 1;
    }

    /** Some free block holds n units. */
    ghost predicate HasFit(n: nat)
      reads this
    {
      exists h :: h in FreeBlocks(ring) && SizeOf(size, h) >= n
    }

    /** What malloc leaves of the free units, given what it started from. */
    ghost predicate Took(h: nat, n: nat, was: set<nat>, obtained: set<nat>, liveWas: set<nat>, sizeWas: map<nat, nat>)
      reads this
    {
      && h !in liveWas && live == liveWas + {h} && h in size && size[h] == n && Kept(liveWas, sizeWas, size)
      && owner.Keys == obtained && Units(h, n) <= was && FreeUnits(owner, ring) == was - Units(h, n)
    }

    /** malloc, lines 70-73. */
    method Start()
      requires Valid() && !started
      modifies this
      ensures Valid() && started && ring == old(ring) && at == old(at) && live == old(live) && owner == old(owner)
      ensures FreeBlocks(ring) == {}
    {
      ptr, freep := ptr[0 := 0], 0;
      size := size[0 := 0];
      started := true;
    }

    lemma {:induction false} FitFound(n: nat, d: nat)
      requires started && Valid() && n >= 1 && d == FirstFit(Order(ring, at), size, n)
      ensures d < |ring| <==> HasFit(n)
    {
      hide Listed, Spaced, Turn, Order, FirstFit;
      if d < |ring| {
        var h := Order(ring, at)[d];
        OrderHas(ring, at, h);
        assert h in FreeBlocks(ring);
      }
      if HasFit(n) {
        var h :| h in FreeBlocks(ring) && SizeOf(size, h) >= n;
        OrderHas(ring, at, h);
        var e :| 0 <= e < |Order(ring, at)| && Order(ring, at)[e] == h;
        assert d <= e;
      }
    }

    lemma {:induction false} NowFits(n: nat, g: nat)
      requires started && Valid() && n >= 1 && Units(g, Asked(n)) <= FreeUnits(owner, ring)
      ensures HasFit(n)
    {
      RunTogether(owner, ring, live, size, g, Asked(n));
    }

    /** malloc(nbytes), where sbrk, if called, answers `grant`: None for -1, or the address of the new memory. */
    method Malloc(nbytes: nat, grant: Option<nat>) returns (r: Option<nat>)
      requires Valid() && nbytes < 0x1_0000_0000 && (Fits(nbytes) || HasFit(UnitsFor(nbytes)))
      requires grant.Some? ==> grant.value > 0 && Units(grant.value, Asked(UnitsFor(nbytes))) !! owner.Keys
      modifies this
      ensures Valid() && started
      ensures r.None? <==> grant.None? && !old(HasFit(UnitsFor(nbytes)))
      ensures r.None? ==> live == old(live) && owner == old(owner) && ring == old(ring) && Kept(live, old(size), size)
      ensures nbytes <= (UnitsFor(nbytes) - 1) * HEADER < nbytes + HEADER && (r.Some? ==> r.value >= 1)
      ensures r.Some? && old(HasFit(UnitsFor(nbytes))) ==>
                Took(r.value - 1, UnitsFor(nbytes), old(FreeUnits(owner, ring)), old(owner.Keys), old(live), old(size))
      ensures r.Some? && old(HasFit(UnitsFor(nbytes))) ==>
                var way := Order(old(ring), old(at));
                var d := FirstFit(way, old(size), UnitsFor(nbytes));
                d < |way| && r.value - 1 == way[d] + SizeOf(old(size), way[d]) - UnitsFor(nbytes)
      ensures r.Some? && !old(HasFit(UnitsFor(nbytes))) ==>
                var added := Units(grant.value, Asked(UnitsFor(nbytes)));
                Took(r.value - 1, UnitsFor(nbytes), old(FreeUnits(owner, ring)) + added, old(owner.Keys) + added,
                    old(live), old(size))
    {
      hide Listed, Spaced, FreeUnits, Units, Order, FirstFit, Turn, FreeBlocks;
      var nunits := UnitsFor(nbytes);
      if !started {
        Start();
      }
      var found, prevp, p;
      ghost var d;
      found, prevp, p, d := Search(nunits);
      FitFound(nunits, d);
      if !found {
        var ok := MoreCore(nunits, grant);
        if !ok {
          return None;
        }
        NowFits(nunits, grant.value);
        found, prevp, p, d := Search(nunits);
        FitFound(nunits, d);
      }
      OrderAt(ring, at, d);
      var h := Carve(nunits, prevp, p, Turn(at, d, |ring|));
      return Some(h + 1);
    }
  }
}
