/**
 * The buffer cache: binit, bget, bread, bwrite, brelse, bpin and bunpin of kernel/bio.c over a
 * doubly linked ring of buffers in order of last use.
 *
 * bcache.lock makes bget, brelse, bpin and bunpin atomic; the sleep-lock of a buffer guards its
 * contents.  Between any two methods other processes may run any others.
 */
module Bcache {

  datatype Option<T> = None | Some(value: T)

  type Content = seq<nat>

  datatype Buf = Buf(valid: bool, dev: nat, blockno: nat, refcnt: nat, locked: bool, data: Content)

  // ---------------------------------------------------------------- rings

  function Succ(i: nat, n: nat): nat {
    if i + 1 < n then i + 1 else 0
  }

  ghost predicate Distinct(s: seq<nat>) {
    forall i, j :: 0 <= i < j < |s| ==> s[i] != s[j]
  }

  /** Following next from nodes[0] goes round nodes, following prev goes back. */
  ghost predicate Cyclic(nodes: seq<nat>, next: seq<nat>, prev: seq<nat>) {
    && |nodes| >= 1 && |next| == |prev| && Distinct(nodes)
    && (forall i :: 0 <= i < |nodes| ==> nodes[i] < |next|)
    && (forall i :: 0 <= i < |nodes| ==> next[nodes[i]] == nodes[Succ(i, |nodes|)])
    && (forall i :: 0 <= i < |nodes| ==> prev[nodes[Succ(i, |nodes|)]] == nodes[i])
  }

  function Without(s: seq<nat>, k: nat): (r: seq<nat>)
    requires k < |s|
    ensures |r| == |s| - 1
  {
    s[..k] + s[k + 1..]
  }

  lemma {:induction false} WithoutAt(s: seq<nat>, k: nat, i: nat)
    requires k < |s| && i < |s| - 1
    ensures Without(s, k)[i] == if i < k then s[i] else s[i + 1]
  {
  }

  lemma {:induction false} WithoutDistinct(s: seq<nat>, k: nat)
    requires k < |s| && Distinct(s)
    ensures Distinct(Without(s, k)) && s[k] !in Without(s, k)
  {
    hide Without;
    var r := Without(s, k);
    forall i, j | 0 <= i < j < |r|
      ensures r[i] != r[j]
    {
      WithoutAt(s, k, i);
      WithoutAt(s, k, j);
    }
    forall i | 0 <= i < |r|
      ensures r[i] != s[k]
    {
      WithoutAt(s, k, i);
    }
  }

  /** b->next->prev = b->prev; b->prev->next = b->next takes b out of the ring. */
  lemma {:induction false} UnlinkOk(nodes: seq<nat>, next: seq<nat>, prev: seq<nat>, k: nat)
    requires Cyclic(nodes, next, prev) && 0 < k < |nodes|
    ensures var b := nodes[k];
            && b < |next| && next[b] < |next| && prev[b] < |next|
            && Cyclic(Without(nodes, k), next[prev[b] := next[b]], prev[next[b] := prev[b]])
  {
    hide Without;
    var n, b, r := |nodes|, nodes[k], Without(nodes, k);
    assert next[b] == nodes[Succ(k, n)];
    assert prev[nodes[Succ(k - 1, n)]] == nodes[k - 1];
    var next', prev' := next[prev[b] := next[b]], prev[next[b] := prev[b]];
    WithoutDistinct(nodes, k);
    forall i | 0 <= i < |r|
      ensures r[i] < |next'| && r[Succ(i, |r|)] < |next'| && next'[r[i]] == r[Succ(i, |r|)]
              && prev'[r[Succ(i, |r|)]] == r[i]
    {
      UnlinkAt(nodes, next, prev, k, i);
    }
  }

  lemma {:induction false} UnlinkAt(nodes: seq<nat>, next: seq<nat>, prev: seq<nat>, k: nat, i: nat)
    requires Cyclic(nodes, next, prev) && 0 < k < |nodes| && i < |nodes| - 1
    ensures var b, r := nodes[k], Without(nodes, k);
            && b < |next| && next[b] < |next| && prev[b] < |next| && r[i] < |next|
            && next[prev[b] := next[b]][r[i]] == r[Succ(i, |r|)]
            && r[Succ(i, |r|)] < |next| && prev[next[b] := prev[b]][r[Succ(i, |r|)]] == r[i]
  {
    hide Without;
    var n, b := |nodes|, nodes[k];
    var o := if i < k then i else i + 1;
    WithoutAt(nodes, k, i);
    WithoutAt(nodes, k, Succ(i, n - 1));
    assert next[b] == nodes[Succ(k, n)] && prev[nodes[Succ(k - 1, n)]] == nodes[k - 1];
    assert next[nodes[o]] == nodes[Succ(o, n)] && prev[nodes[Succ(o, n)]] == nodes[o];
    assert o != k - 1 ==> nodes[o] != nodes[k - 1];
    assert Succ(o, n) != Succ(k, n) ==> nodes[Succ(o, n)] != nodes[Succ(k, n)];
  }

  /** b->next = head.next; b->prev = head; head.next->prev = b; head.next = b puts b first. */
  lemma {:induction false} InsertOk(nodes: seq<nat>, next: seq<nat>, prev: seq<nat>, b: nat)
    requires Cyclic(nodes, next, prev) && b < |next| && b !in nodes
    ensures var h := nodes[0];
            && h < |next| && next[h] < |next|
            && Cyclic([h, b] + nodes[1..], next[b := next[h]][h := b], prev[b := h][next[h] := b])
  {
    var n, h, r := |nodes|, nodes[0], [nodes[0], b] + nodes[1..];
    assert next[h] == nodes[Succ(0, n)];
    var next', prev' := next[b := next[h]][h := b], prev[b := h][next[h] := b];
    assert forall i :: 0 <= i < |r| ==> r[i] == if i == 0 then h else if i == 1 then b else nodes[i - 1];
    assert Distinct(r);
    forall i | 0 <= i < |r|
      ensures r[i] < |next'| && next'[r[i]] == r[Succ(i, |r|)] && prev'[r[Succ(i, |r|)]] == r[i]
    {
      if i > 0 {
        var o := i - 1;
        assert next[nodes[o]] == nodes[Succ(o, n)] && prev[nodes[Succ(o, n)]] == nodes[o];
      }
    }
  }

  // ---------------------------------------------------------------- the cache

  /** The ring, most recently released first, is a permutation of all buffers, and its order is that of the stamps. */
  ghost predicate RingOk(n: nat, order: seq<nat>, next: seq<nat>, prev: seq<nat>, stamp: seq<nat>, clock: nat) {
    && |order| == n && |next| == |prev| == n + 1 && |stamp| == n
    && (forall i :: 0 <= i < |order| ==> order[i] < n)
    && Cyclic([n] + order, next, prev)
    && (forall i, j :: 0 <= i < j < |order| ==> stamp[order[i]] > stamp[order[j]])
    && (forall i :: 0 <= i < n ==> stamp[i] < clock)
  }

  predicate HasKey(b: Buf, dev: nat, blockno: nat) {
    b.dev == dev && b.blockno == blockno
  }

  /** No two buffers hold one block; device 0 is no device. */
  ghost predicate KeysOk(bufs: seq<Buf>) {
    forall i, j :: 0 <= i < j < |bufs| && bufs[i].dev != 0 ==> !HasKey(bufs[j], bufs[i].dev, bufs[i].blockno)
  }

  /** A buffer is locked only by somebody who holds a reference. */
  ghost predicate LocksOk(bufs: seq<Buf>) {
    forall i :: 0 <= i < |bufs| && bufs[i].locked ==> bufs[i].refcnt > 0
  }

  /** A buffer that holds nothing that the disk does not. */
  ghost predicate Clean(b: Buf, disk: map<(nat, nat), Content>) {
    b.dev == 0 || !b.valid || b.data == OnDisk(disk, b.dev, b.blockno)
  }

  /** Every buffer that may be recycled is clean. */
  ghost predicate CleanOk(bufs: seq<Buf>, disk: map<(nat, nat), Content>) {
    forall i :: 0 <= i < |bufs| && bufs[i].refcnt == 0 ==> Clean(bufs[i], disk)
  }

  function OnDisk(disk: map<(nat, nat), Content>, dev: nat, blockno: nat): Content {
    if (dev, blockno) in disk then disk[(dev, blockno)] else []
  }

  /** The first of buffers k on that holds the block and is valid; |bufs| if there is none. */
  ghost function Cached(bufs: seq<Buf>, dev: nat, blockno: nat, k: nat): (i: nat)
    requires k <= |bufs|
    ensures k <= i <= |bufs| && (i < |bufs| ==> HasKey(bufs[i], dev, blockno) && bufs[i].valid)
    ensures forall j :: k <= j < i ==> !(HasKey(bufs[j], dev, blockno) && bufs[j].valid)
    decreases |bufs| - k
  {
    if k == |bufs| then k else if HasKey(bufs[k], dev, blockno) && bufs[k].valid then k
        else Cached(bufs, dev, blockno, k + 1)
  }

  /** The logical disk: a cached block counts for what the buffer holds, any other for what the disk does. */
  ghost function Logical(bufs: seq<Buf>, disk: map<(nat, nat), Content>, dev: nat, blockno: nat): Content {
    var i := Cached(bufs, dev, blockno, 0);
    if i < |bufs| then bufs[i].data else OnDisk(disk, dev, blockno)
  }

  lemma {:induction false} LogicalHit(bufs: seq<Buf>, disk: map<(nat, nat), Content>, i: nat)
    requires KeysOk(bufs) && i < |bufs| && bufs[i].valid && bufs[i].dev != 0
    ensures Logical(bufs, disk, bufs[i].dev, bufs[i].blockno) == bufs[i].data
  {
    var j := Cached(bufs, bufs[i].dev, bufs[i].blockno, 0);
    assert !(i < j);
    OnlyHere(bufs, i);
  }

  lemma {:induction false} LogicalMiss(bufs: seq<Buf>, disk: map<(nat, nat), Content>, dev: nat, blockno: nat)
    requires forall i :: 0 <= i < |bufs| ==> !(HasKey(bufs[i], dev, blockno) && bufs[i].valid)
    ensures Logical(bufs, disk, dev, blockno) == OnDisk(disk, dev, blockno)
  {
  }

  /** The logical disk is the same but, perhaps, for block (d, n). */
  ghost predicate SameBut(bufs: seq<Buf>, disk: map<(nat, nat), Content>, bufs': seq<Buf>, disk': map<(nat, nat),
      Content>, d: nat, n: nat) {
    forall dev: nat, blockno: nat :: dev != 0 && (dev, blockno) != (d, n) ==>
          Logical(bufs', disk', dev, blockno) == Logical(bufs, disk, dev, blockno)
  }

  ghost predicate SameLogical(bufs: seq<Buf>, disk: map<(nat, nat), Content>, bufs': seq<Buf>, disk': map<(nat, nat),
      Content>) {
    forall dev: nat, blockno: nat :: dev != 0 ==>
          Logical(bufs', disk', dev, blockno) == Logical(bufs, disk, dev, blockno)
  }

  /** Logical disks agree on a block if each buffer that holds it in one holds it, alike, in the other. */
  lemma {:induction false} LogicalAgree(bufs: seq<Buf>, disk: map<(nat, nat), Content>, bufs': seq<Buf>,
      disk': map<(nat, nat), Content>, dev: nat, blockno: nat)
    requires KeysOk(bufs) && KeysOk(bufs') && |bufs'| == |bufs| && dev != 0
    requires OnDisk(disk', dev, blockno) == OnDisk(disk, dev, blockno)
    requires forall i :: 0 <= i < |bufs| ==>
               (HasKey(bufs'[i], dev, blockno) && bufs'[i].valid <==> HasKey(bufs[i], dev, blockno) && bufs[i].valid)
    requires forall i :: 0 <= i < |bufs| && HasKey(bufs[i], dev, blockno) && bufs[i].valid ==>
               bufs'[i].data == bufs[i].data
    ensures Logical(bufs', disk', dev, blockno) == Logical(bufs, disk, dev, blockno)
  {
    var i := Cached(bufs, dev, blockno, 0);
    if i < |bufs| {
      LogicalHit(bufs, disk, i);
      LogicalHit(bufs', disk', i);
    } else {
      LogicalMiss(bufs', disk', dev, blockno);
    }
  }

  /** Some buffer has no reference. */
  ghost predicate Spare(bufs: seq<Buf>) {
    exists i :: 0 <= i < |bufs| && bufs[i].refcnt == 0
  }

  /** b is the unreferenced buffer released longest ago. */
  ghost predicate Oldest(bufs: seq<Buf>, stamp: seq<nat>, b: nat)
    requires |stamp| == |bufs|
  {
    b < |bufs| && bufs[b].refcnt == 0 && forall i :: 0 <= i < |bufs| && i != b && bufs[i].refcnt == 0 ==>
          stamp[b] < stamp[i]
  }

  function Refer(b: Buf, d: int): Buf
    requires b.refcnt + d >= 0
  {
    Buf(b.valid, b.dev, b.blockno, b.refcnt + d, b.locked, b.data)
  }

  function Recycled(b: Buf, dev: nat, blockno: nat): Buf {
    Buf(false, dev, blockno, 1, b.locked, b.data)
  }

  // ---------------------------------------------------------------- ring facts

  lemma {:induction false} AllThere(order: seq<nat>, n: nat, b: nat)
    requires |order| == n && b < n && Distinct(order) && forall i :: 0 <= i < |order| ==> order[i] < n
    ensures b in order
  {
    if b !in order {
      var rest := seq(n, i requires 0 <= i < n => if order[i] > b then order[i] - 1 else order[i]);
      assert Distinct(rest);
      Pigeons(rest, n - 1);
    }
  }

  lemma {:induction false} Pigeons(q: seq<nat>, n: nat)
    requires Distinct(q) && forall k :: 0 <= k < |q| ==> q[k] < n
    ensures |q| <= n
    decreases n
  {
    assert |q| > 0 ==> q[0] < n;
    if n > 0 {
      if k :| 0 <= k < |q| && q[k] == n - 1 {
        WithoutDistinct(q, k);
        forall j | 0 <= j < |q| - 1
          ensures Without(q, k)[j] < n - 1
        {
          WithoutAt(q, k, j);
        }
        Pigeons(Without(q, k), n - 1);
      } else {
        Pigeons(q, n - 1);
      }
    }
  }

  /** The i-th node of the ring and its neighbours; node 0 is the head. */
  lemma {:induction false} NodeAt(n: nat, order: seq<nat>, next: seq<nat>, prev: seq<nat>, stamp: seq<nat>, clock: nat,
      i: nat)
    requires RingOk(n, order, next, prev, stamp, clock) && i <= n
    ensures var nodes := [n] + order;
            && nodes[i] <= n && next[nodes[i]] == nodes[Succ(i, n + 1)]
                && prev[nodes[i]] == nodes[if i == 0 then n else i - 1]
            && (nodes[i] == n <==> i == 0)
  {
    var nodes := [n] + order;
    assert next[nodes[i]] == nodes[Succ(i, n + 1)];
    var o := if i == 0 then n else i - 1;
    assert prev[nodes[Succ(o, n + 1)]] == nodes[o];
    assert i > 0 ==> nodes[i] == order[i - 1];
  }

  lemma {:induction false} PlaceOf(n: nat, order: seq<nat>, next: seq<nat>, prev: seq<nat>, stamp: seq<nat>, clock: nat,
      b: nat) returns (k: nat)
    requires RingOk(n, order, next, prev, stamp, clock) && b < n
    ensures k < |order| && order[k] == b
  {
    var nodes := [n] + order;
    forall i, j | 0 <= i < j < |order|
      ensures order[i] != order[j]
    {
      assert nodes[i + 1] != nodes[j + 1];
    }
    AllThere(order, n, b);
    k :| 0 <= k < |order| && order[k] == b;
  }

  /** Moving buffer order[k] to the front, stamped now. */
  lemma {:induction false} FrontOk(n: nat, order: seq<nat>, next: seq<nat>, prev: seq<nat>, stamp: seq<nat>, clock: nat,
      k: nat)
    requires RingOk(n, order, next, prev, stamp, clock) && k < |order|
    ensures var b := order[k];
            && b < |next| && next[b] < |next| && prev[b] < |next| && next[b] != b
            && var next1, prev1 := next[prev[b] := next[b]], prev[next[b] := prev[b]];
               && next1[n] < |next|
               && RingOk(n, [b] + Without(order, k), next1[b := next1[n]][n := b], prev1[b := n][next1[n] := b],
                   stamp[b := clock], clock + 1)
  {
    hide Without, Cyclic;
    FrontCyclic(n, order, next, prev, k);
    FrontStamps(n, order, stamp, clock, k);
  }

  lemma {:induction false} FrontCyclic(n: nat, order: seq<nat>, next: seq<nat>, prev: seq<nat>, k: nat)
    requires Cyclic([n] + order, next, prev) && |order| == n && |next| == |prev| == n + 1 && k < |order|
    ensures var b := order[k];
            && b < |next| && next[b] < |next| && prev[b] < |next| && next[b] != b
            && var next1, prev1 := next[prev[b] := next[b]], prev[next[b] := prev[b]];
               && next1[n] < |next| && Cyclic([n] + ([b] + Without(order, k)), next1[b := next1[n]][n := b],
                   prev1[b := n][next1[n] := b])
  {
    hide Without;
    var nodes, b := [n] + order, order[k];
    assert nodes[k + 1] == b;
    assert next[nodes[k + 1]] == nodes[Succ(k + 1, n + 1)] && Succ(k + 1, n + 1) != k + 1;
    UnlinkOk(nodes, next, prev, k + 1);
    WithoutDistinct(nodes, k + 1);
    WithoutHead(n, order, k);
    hide Cyclic;
    var next1, prev1 := next[prev[b] := next[b]], prev[next[b] := prev[b]];
    var rest := [n] + Without(order, k);
    InsertOk(rest, next1, prev1, b);
    assert [n, b] + rest[1..] == [n] + ([b] + Without(order, k));
  }

  lemma {:induction false} WithoutHead(n: nat, order: seq<nat>, k: nat)
    requires k < |order|
    ensures Without([n] + order, k + 1) == [n] + Without(order, k)
  {
  }

  lemma {:induction false} FrontStamps(n: nat, order: seq<nat>, stamp: seq<nat>, clock: nat, k: nat)
    requires |order| == n == |stamp| && k < |order| && (forall i :: 0 <= i < |order| ==> order[i] < n)
    requires forall i, j :: 0 <= i < j < |order| ==> stamp[order[i]] > stamp[order[j]]
    requires forall i :: 0 <= i < n ==> stamp[i] < clock
    ensures var order', stamp' := [order[k]] + Without(order, k), stamp[order[k] := clock];
            && |order'| == n && (forall i :: 0 <= i < |order'| ==> order'[i] < n)
            && (forall i, j :: 0 <= i < j < |order'| ==> stamp'[order'[i]] > stamp'[order'[j]])
            && forall i :: 0 <= i < n ==> stamp'[i] < clock + 1
  {
    hide Without;
    var order', stamp' := [order[k]] + Without(order, k), stamp[order[k] := clock];
    forall i | 0 <= i < |order'|
      ensures order'[i] == order[if i == 0 then k else if i <= k then i - 1 else i]
    {
      if i > 0 { WithoutAt(order, k, i - 1); }
    }
    assert forall i :: 0 <= i < |order| && i != k ==> order[i] != order[k];
  }

  // ---------------------------------------------------------------- what the methods do to the logical disk

  /** Reference counts and locks do not matter to the logical disk. */
  lemma {:induction false} CountsOnly(bufs: seq<Buf>, disk: map<(nat, nat), Content>, b: nat, x: Buf)
    requires KeysOk(bufs) && b < |bufs|
             && x == Buf(bufs[b].valid, bufs[b].dev, bufs[b].blockno, x.refcnt, x.locked, bufs[b].data)
    ensures KeysOk(bufs[b := x]) && SameLogical(bufs, disk, bufs[b := x], disk)
  {
    hide Logical;
    forall dev: nat, blockno: nat | dev != 0
      ensures Logical(bufs[b := x], disk, dev, blockno) == Logical(bufs, disk, dev, blockno)
    {
      LogicalAgree(bufs, disk, bufs[b := x], disk, dev, blockno);
    }
  }

  /** Taking over an unreferenced buffer can change its own block of the logical disk only, and does not if and only if
      it is clean. */
  lemma {:induction false} RecycleKeeps(bufs: seq<Buf>, disk: map<(nat, nat), Content>, b: nat, dev: nat, blockno: nat)
    requires KeysOk(bufs) && b < |bufs| && bufs[b].refcnt == 0 && dev != 0
    requires forall i :: 0 <= i < |bufs| ==> !HasKey(bufs[i], dev, blockno)
    ensures var bufs' := bufs[b := Recycled(bufs[b], dev, blockno)];
            && KeysOk(bufs') && SameBut(bufs, disk, bufs', disk, bufs[b].dev, bufs[b].blockno)
            && (SameLogical(bufs, disk, bufs', disk) <==> Clean(bufs[b], disk))
  {
    hide Logical;
    var bufs' := bufs[b := Recycled(bufs[b], dev, blockno)];
    forall d: nat, n: nat | d != 0
      ensures HasKey(bufs[b], d, n) && bufs[b].valid ==>
                Logical(bufs', disk, d, n) == OnDisk(disk, d, n) && Logical(bufs, disk, d, n) == bufs[b].data
      ensures !(HasKey(bufs[b], d, n) && bufs[b].valid) ==> Logical(bufs', disk, d, n) == Logical(bufs, disk, d, n)
    {
      if HasKey(bufs[b], d, n) && bufs[b].valid {
        LogicalHit(bufs, disk, b);
        LogicalMiss(bufs', disk, d, n);
      } else {
        LogicalAgree(bufs, disk, bufs', disk, d, n);
      }
    }
    if !Clean(bufs[b], disk) {
      assert Logical(bufs', disk, bufs[b].dev, bufs[b].blockno) != Logical(bufs, disk, bufs[b].dev, bufs[b].blockno);
    }
  }

  /** Reading the disk into a buffer that is not valid. */
  lemma {:induction false} FillKeeps(bufs: seq<Buf>, disk: map<(nat, nat), Content>, b: nat, x: Buf)
    requires KeysOk(bufs) && b < |bufs| && !bufs[b].valid && bufs[b].dev != 0
    requires x == Buf(true, bufs[b].dev, bufs[b].blockno, bufs[b].refcnt, bufs[b].locked,
             OnDisk(disk, bufs[b].dev, bufs[b].blockno))
    ensures KeysOk(bufs[b := x]) && SameLogical(bufs, disk, bufs[b := x], disk)
  {
    hide Logical;
    var bufs' := bufs[b := x];
    forall d: nat, n: nat | d != 0
      ensures Logical(bufs', disk, d, n) == Logical(bufs, disk, d, n)
    {
      if HasKey(x, d, n) {
        LogicalHit(bufs', disk, b);
        OnlyHere(bufs, b);
        LogicalMiss(bufs, disk, d, n);
      } else {
        LogicalAgree(bufs, disk, bufs', disk, d, n);
      }
    }
  }

  lemma {:induction false} OnlyHere(bufs: seq<Buf>, b: nat)
    requires KeysOk(bufs) && b < |bufs| && bufs[b].dev != 0
    ensures forall i :: 0 <= i < |bufs| && i != b ==> !HasKey(bufs[i], bufs[b].dev, bufs[b].blockno)
  {
  }

  /** Changing the contents of a buffer changes the logical disk at its block and nowhere else. */
  lemma {:induction false} ModifyAt(bufs: seq<Buf>, disk: map<(nat, nat), Content>, b: nat, x: Buf)
    requires KeysOk(bufs) && b < |bufs| && bufs[b].valid && bufs[b].dev != 0
    requires x == Buf(true, bufs[b].dev, bufs[b].blockno, bufs[b].refcnt, bufs[b].locked, x.data)
    ensures KeysOk(bufs[b := x]) && SameBut(bufs, disk, bufs[b := x], disk, x.dev, x.blockno)
    ensures Logical(bufs[b := x], disk, x.dev, x.blockno) == x.data
  {
    hide Logical;
    var bufs' := bufs[b := x];
    LogicalHit(bufs', disk, b);
    forall d: nat, n: nat | d != 0 && (d, n) != (x.dev, x.blockno)
      ensures Logical(bufs', disk, d, n) == Logical(bufs, disk, d, n)
    {
      LogicalAgree(bufs, disk, bufs', disk, d, n);
    }
  }

  /** Writing a buffer back changes the disk, not the logical disk. */
  lemma {:induction false} WriteKeeps(bufs: seq<Buf>, disk: map<(nat, nat), Content>, b: nat)
    requires KeysOk(bufs) && b < |bufs| && bufs[b].valid && bufs[b].dev != 0 && bufs[b].refcnt > 0
    ensures var disk' := disk[(bufs[b].dev, bufs[b].blockno) := bufs[b].data];
            (CleanOk(bufs, disk) ==> CleanOk(bufs, disk')) && SameLogical(bufs, disk, bufs, disk')
                && bufs[b].data == OnDisk(disk', bufs[b].dev, bufs[b].blockno)
  {
    hide Logical;
    var disk' := disk[(bufs[b].dev, bufs[b].blockno) := bufs[b].data];
    OnlyHere(bufs, b);
    forall d: nat, n: nat | d != 0
      ensures Logical(bufs, disk', d, n) == Logical(bufs, disk, d, n)
    {
      if HasKey(bufs[b], d, n) {
        LogicalHit(bufs, disk, b);
        LogicalHit(bufs, disk', b);
      } else {
        LogicalAgree(bufs, disk, bufs, disk', d, n);
      }
    }
    if CleanOk(bufs, disk) {
      forall i | 0 <= i < |bufs| && bufs[i].refcnt == 0
        ensures Clean(bufs[i], disk')
      {
        assert !HasKey(bufs[i], bufs[b].dev, bufs[b].blockno);
      }
    }
  }

  // ---------------------------------------------------------------- the code

  class Cache {
    var bufs: seq<Buf>
    var next: seq<nat>                       // by buffer number; the head has number |bufs|
    var prev: seq<nat>
    var disk: map<(nat, nat), Content>
    ghost var order: seq<nat>
    ghost var stamp: seq<nat>                // when each buffer last became unreferenced
    ghost var clock: nat

    ghost predicate Valid()
      reads this
    {
      RingOk(|bufs|, order, next, prev, stamp, clock) && KeysOk(bufs) && LocksOk(bufs)
    }

    /** Nothing is lost when a buffer is recycled. */
    ghost predicate Clear()
      reads this
    {
      CleanOk(bufs, disk)
    }

    /** What a referenced buffer can rely on: it is not recycled. */
    twostate predicate HeldKept()
      reads this
    {
      |bufs| == |old(bufs)| && forall i :: 0 <= i < |bufs| && old(bufs)[i].refcnt > 0 ==>
        bufs[i].dev == old(bufs)[i].dev && bufs[i].blockno == old(bufs)[i].blockno
    }

    /** binit */
    constructor (n: nat, disk: map<(nat, nat), Content>)
      ensures Valid() && Clear() && |bufs| == n && this.disk == disk
      ensures forall i :: 0 <= i < n ==> bufs[i] == Buf(false, 0, 0, 0, false, [])
    {
      this.disk := disk;
      bufs := seq(n, _ => Buf(false, 0, 0, 0, false, []));
      var nx: seq<nat>, pv: seq<nat> := seq(n + 1, _ => n), seq(n + 1, _ => n);
      ghost var ord: seq<nat> := [];
      var b := 0;
      while b < n
        invariant b <= n && |nx| == |pv| == n + 1 && |ord| == b && Cyclic([n] + ord, nx, pv)
        invariant forall i :: 0 <= i < |ord| ==> ord[i] == b - 1 - i
      {
        InsertOk([n] + ord, nx, pv, b);
        assert [n, b] + ([n] + ord)[1..] == [n] + ([b] + ord);
        nx, pv := nx[b := nx[n]], pv[b := n];
        pv := pv[nx[n] := b];
        nx := nx[n := b];
        ord := [b] + ord;
        b := b + 1;
      }
      next, prev, order, stamp, clock := nx, pv, ord, seq(n, i => i), n;
    }

    /** bget's first loop. */
    method FindKey(dev: nat, blockno: nat) returns (r: Option<nat>)
      requires Valid() && dev != 0
      ensures r.Some? ==> r.value < |bufs| && HasKey(bufs[r.value], dev, blockno)
      ensures r.None? ==> forall i :: 0 <= i < |bufs| ==> !HasKey(bufs[i], dev, blockno)
    {
      hide KeysOk, CleanOk, RingOk;
      RingShape(|bufs|, order, next, prev, stamp, clock);
      ghost var n, nodes := |bufs|, [|bufs|] + order;
      NodeAt(n, order, next, prev, stamp, clock, 0);
      var b := next[|bufs|];
      ghost var i := Succ(0, n + 1);
      while b != |bufs|
        invariant i <= n && b == nodes[i]
        invariant forall k :: 0 < k < (if i == 0 then n + 1 else i) ==> !HasKey(bufs[nodes[k]], dev, blockno)
        decreases if i == 0 then 0 else n + 1 - i
      {
        NodeAt(n, order, next, prev, stamp, clock, i);
        if bufs[b].dev == dev && bufs[b].blockno == blockno {
          return Some(b);
        }
        b := next[b];
        i := Succ(i, n + 1);
      }
      NodeAt(n, order, next, prev, stamp, clock, i);
      forall x | 0 <= x < n
        ensures !HasKey(bufs[x], dev, blockno)
      {
        var k := PlaceOf(n, order, next, prev, stamp, clock, x);
        assert nodes[k + 1] == x;
      }
      return None;
    }

    /** bget's second loop: the least recently released buffer without references. */
    method FindOldest() returns (r: Option<nat>)
      requires Valid()
      ensures |stamp| == |bufs|
      ensures r.Some? ==> Oldest(bufs, stamp, r.value)
      ensures r.None? ==> !Spare(bufs)
    {
      hide KeysOk, CleanOk, RingOk;
      RingShape(|bufs|, order, next, prev, stamp, clock);
      ghost var n, nodes := |bufs|, [|bufs|] + order;
      NodeAt(n, order, next, prev, stamp, clock, 0);
      var b := prev[|bufs|];
      ghost var i: nat := n;
      while b != |bufs|
        invariant i <= n && b == nodes[i]
        invariant forall k :: i < k <= n ==> bufs[nodes[k]].refcnt > 0
        decreases i
      {
        NodeAt(n, order, next, prev, stamp, clock, i);
        if bufs[b].refcnt == 0 {
          OldestIs(bufs, n, order, next, prev, stamp, clock, i);
          return Some(b);
        }
        b := prev[b];
        i := i - 1;
      }
      NodeAt(n, order, next, prev, stamp, clock, i);
      forall x | 0 <= x < n
        ensures bufs[x].refcnt > 0
      {
        var k := PlaceOf(n, order, next, prev, stamp, clock, x);
        assert nodes[k + 1] == x;
      }
      return None;
    }

    /** The buffer for a block, with one more reference; None where the source panics for want of a buffer. */
    method Bget(dev: nat, blockno: nat) returns (r: Option<nat>)
      requires Valid() && dev != 0
      modifies this`bufs
      ensures Valid() && HeldKept() && (old(Clear()) ==> Clear())
      ensures r.Some? ==> r.value < |bufs| == |old(bufs)| && bufs[r.value].refcnt == old(bufs)[r.value].refcnt + 1
      ensures SameLogical(old(bufs), disk, bufs, disk) <==>
                r.None? || HasKey(old(bufs)[r.value], dev, blockno) || Clean(old(bufs)[r.value], disk)
      ensures Logical(bufs, disk, dev, blockno) == Logical(old(bufs), disk, dev, blockno)
      ensures r.None? <==> !old(Spare(bufs)) && forall i :: 0 <= i < |bufs| ==> !HasKey(old(bufs)[i], dev, blockno)
      ensures r.None? ==> bufs == old(bufs)
      ensures r.Some? ==>
                && r.value < |bufs| && HasKey(bufs[r.value], dev, blockno)
                && if HasKey(old(bufs)[r.value], dev, blockno)
                    then bufs == old(bufs)[r.value := old(bufs)[r.value].(refcnt := old(bufs)[r.value].refcnt + 1)]
                   else && (forall i :: 0 <= i < |bufs| ==> !HasKey(old(bufs)[i], dev, blockno))
                        && |stamp| == |old(bufs)| && Oldest(old(bufs), stamp, r.value)
                        && bufs == old(bufs)[r.value := old(bufs)[r.value].(valid := false, dev := dev,
                            blockno := blockno, refcnt := 1)]
                        && SameBut(old(bufs), disk, bufs, disk, old(bufs)[r.value].dev, old(bufs)[r.value].blockno)
    {
      hide RingOk, Logical, KeysOk;
      r := FindKey(dev, blockno);
      if r.Some? {
        var b := r.value;
        CountsOnly(bufs, disk, b, Refer(bufs[b], 1));
        bufs := bufs[b := Refer(bufs[b], 1)];
        return;
      }
      r := FindOldest();
      if r.Some? {
        var b := r.value;
        RecycleKeeps(bufs, disk, b, dev, blockno);
        bufs := bufs[b := Recycled(bufs[b], dev, blockno)];
      } else {
        assert SameLogical(bufs, disk, bufs, disk);
      }
    }

    /** acquiresleep(&b->lock), once it is free. */
    method Lock(b: nat)
      requires Valid() && b < |bufs| && bufs[b].refcnt > 0 && !bufs[b].locked
      modifies this`bufs
      ensures Valid() && HeldKept() && SameLogical(old(bufs), disk, bufs, disk) && (old(Clear()) ==> Clear())
      ensures bufs == old(bufs)[b := Locked(old(bufs)[b], true)]
    {
      hide RingOk, Logical, KeysOk;
      CountsOnly(bufs, disk, b, Locked(bufs[b], true));
      bufs := bufs[b := Locked(bufs[b], true)];
    }

    /** The rest of bread: the contents, from the disk if need be. */
    method Fill(b: nat)
      requires Valid() && b < |bufs| && bufs[b].refcnt > 0 && bufs[b].locked && bufs[b].dev != 0
      modifies this`bufs
      ensures Valid() && HeldKept() && SameLogical(old(bufs), disk, bufs, disk) && (old(Clear()) ==> Clear())
      ensures bufs[b].valid && bufs[b].data == Logical(old(bufs), disk, bufs[b].dev, bufs[b].blockno)
      ensures bufs == old(bufs)[b := Buf(true, old(bufs)[b].dev, old(bufs)[b].blockno, old(bufs)[b].refcnt, true,
              bufs[b].data)]
    {
      hide RingOk, Logical, KeysOk;
      if !bufs[b].valid {
        var x := Buf(true, bufs[b].dev, bufs[b].blockno, bufs[b].refcnt, bufs[b].locked,
            OnDisk(disk, bufs[b].dev, bufs[b].blockno));
        FillKeeps(bufs, disk, b, x);
        bufs := bufs[b := x];
      }
      LogicalHit(bufs, disk, b);
      assert SameLogical(old(bufs), disk, bufs, disk);
    }

    /** bread: the buffer with its contents, or asleep with a reference to it while another process has it locked. */
    method Bread(dev: nat, blockno: nat) returns (r: Option<nat>, asleep: bool)
      requires Valid() && dev != 0
      modifies this`bufs
      ensures Valid() && HeldKept() && (old(Clear()) ==> Clear() && SameLogical(old(bufs), disk, bufs, disk))
      ensures r.None? <==> !old(Spare(bufs)) && forall i :: 0 <= i < |bufs| ==> !HasKey(old(bufs)[i], dev, blockno)
      ensures r.Some? ==>
                r.value < |bufs| && HasKey(bufs[r.value], dev, blockno) && bufs[r.value].refcnt > 0
                && bufs[r.value].locked
      ensures asleep <==> r.Some? && old(bufs)[r.value].locked
      ensures r.Some? && !asleep ==> bufs[r.value].valid && bufs[r.value].data == Logical(old(bufs), disk, dev, blockno)
    {
      hide RingOk, Logical, KeysOk, CleanOk;
      asleep := false;
      r := Bget(dev, blockno);
      if r.Some? {
        asleep := bufs[r.value].locked;
        if CleanOk(old(bufs), disk) && !HasKey(old(bufs)[r.value], dev,
            blockno) { OldestClean(old(bufs), disk, stamp, r.value); }
        if !asleep {
          BreadLocked(r.value);
        }
      }
    }

    /** The rest of bread, once the lock is free: at once, or on waking. */
    method BreadLocked(b: nat)
      requires Valid() && b < |bufs| && bufs[b].refcnt > 0 && !bufs[b].locked && bufs[b].dev != 0
      modifies this`bufs
      ensures Valid() && HeldKept() && SameLogical(old(bufs), disk, bufs, disk) && (old(Clear()) ==> Clear())
      ensures bufs[b].valid && bufs[b].data == Logical(old(bufs), disk, bufs[b].dev, bufs[b].blockno)
      ensures bufs == old(bufs)[b := Buf(true, old(bufs)[b].dev, old(bufs)[b].blockno, old(bufs)[b].refcnt, true,
              bufs[b].data)]
    {
      hide RingOk, Logical, KeysOk, CleanOk, LocksOk;
      Lock(b);
      ghost var bufs1 := bufs;
      Fill(b);
      assert Logical(bufs1, disk, bufs[b].dev, bufs[b].blockno) == Logical(old(bufs), disk, bufs[b].dev,
             bufs[b].blockno);
    }

    /** The holder of the lock changes b->data. */
    method Modify(b: nat, x: Content)
      requires Valid() && b < |bufs| && bufs[b].refcnt > 0 && bufs[b].locked && bufs[b].valid && bufs[b].dev != 0
      modifies this`bufs
      ensures Valid() && HeldKept() && SameBut(old(bufs), disk, bufs, disk, bufs[b].dev, bufs[b].blockno)
              && (old(Clear()) ==> Clear())
      ensures Logical(bufs, disk, bufs[b].dev, bufs[b].blockno) == x
      ensures bufs == old(bufs)[b := Buf(true, old(bufs)[b].dev, old(bufs)[b].blockno, old(bufs)[b].refcnt, true, x)]
    {
      hide RingOk, Logical, KeysOk;
      var y := Buf(true, bufs[b].dev, bufs[b].blockno, bufs[b].refcnt, bufs[b].locked, x);
      ModifyAt(bufs, disk, b, y);
      bufs := bufs[b := y];
    }

    method Bwrite(b: nat)
      requires Valid() && b < |bufs| && bufs[b].refcnt > 0 && bufs[b].locked && bufs[b].valid && bufs[b].dev != 0
      modifies this`disk
      ensures Valid() && SameLogical(bufs, old(disk), bufs, disk) && (old(Clear()) ==> Clear())
      ensures disk == old(disk)[(bufs[b].dev, bufs[b].blockno) := bufs[b].data]
    {
      hide RingOk, Logical, KeysOk, CleanOk;
      WriteKeeps(bufs, disk, b);
      disk := disk[(bufs[b].dev, bufs[b].blockno) := bufs[b].data];
    }

    /** Drops a reference; the last one leaves the buffer first in line to stay.  Nothing can be lost afterwards if and
        only if nothing could before and the buffer is clean or still referenced. */
    method Brelse(b: nat)
      requires Valid() && b < |bufs| && bufs[b].locked && bufs[b].refcnt > 0
      modifies this
      ensures Clear() <==> old(Clear()) && (old(bufs)[b].refcnt == 1 ==> Clean(old(bufs)[b], disk))
      ensures Valid() && HeldKept() && disk == old(disk) && SameLogical(old(bufs), disk, bufs, disk)
      ensures bufs == old(bufs)[b := old(bufs)[b].(refcnt := old(bufs)[b].refcnt - 1, locked := false)]
      ensures |stamp| == |old(stamp)| == |bufs|
      ensures bufs[b].refcnt == 0 ==>
                |order| > 0 && order[0] == b && stamp == old(stamp)[b := stamp[b]]
                && forall i :: 0 <= i < |stamp| && i != b ==> stamp[i] < stamp[b]
      ensures bufs[b].refcnt > 0 ==> order == old(order) && stamp == old(stamp)
    {
      hide Logical, KeysOk, RingOk, SameLogical;
      RingShape(|bufs|, order, next, prev, stamp, clock);
      CountsOnly(bufs, disk, b, Locked(Refer(bufs[b], -1), false));
      CleanAfter(bufs, disk, b, Locked(Refer(bufs[b], -1), false));
      ghost var bufs0 := bufs;
      bufs := bufs[b := Locked(bufs[b], false)];
      bufs := bufs[b := Refer(bufs[b], -1)];
      assert bufs == bufs0[b := Locked(Refer(bufs0[b], -1), false)];
      if bufs[b].refcnt == 0 {
        MoveToFront(b);
      }
    }

    /** brelse, lines 128-133. */
    method MoveToFront(b: nat)
      requires RingOk(|bufs|, order, next, prev, stamp, clock) && b < |bufs|
      modifies this`next, this`prev, this`order, this`stamp, this`clock
      ensures RingOk(|bufs|, order, next, prev, stamp, clock) && |stamp| == |old(stamp)| == |bufs|
      ensures |order| > 0 && order[0] == b && stamp == old(stamp)[b := stamp[b]]
              && forall i :: 0 <= i < |stamp| && i != b ==> stamp[i] < stamp[b]
    {
      hide RingOk, Without;
      RingShape(|bufs|, order, next, prev, stamp, clock);
      ghost var n, next0, prev0 := |bufs|, next, prev;
      ghost var k := PlaceOf(n, order, next, prev, stamp, clock, b);
      FrontOk(n, order, next, prev, stamp, clock, k);
      prev := prev[next[b] := prev[b]];
      next := next[prev[b] := next[b]];
      next := next[b := next[|bufs|]];
      prev := prev[b := |bufs|];
      prev := prev[next[|bufs|] := b];
      next := next[|bufs| := b];
      order, stamp, clock := [b] + Without(order, k), stamp[b := clock], clock + 1;
    }

    method Bpin(b: nat)
      requires Valid() && b < |bufs| && bufs[b].refcnt > 0
      modifies this`bufs
      ensures Valid() && HeldKept() && SameLogical(old(bufs), disk, bufs, disk) && (old(Clear()) ==> Clear())
      ensures bufs == old(bufs)[b := old(bufs)[b].(refcnt := old(bufs)[b].refcnt + 1)]
    {
      hide RingOk, Logical, KeysOk;
      CountsOnly(bufs, disk, b, Refer(bufs[b], 1));
      bufs := bufs[b := Refer(bufs[b], 1)];
    }

    /** Called only while another reference is held. */
    method Bunpin(b: nat)
      requires Valid() && b < |bufs| && bufs[b].refcnt > 1
      modifies this`bufs
      ensures Valid() && HeldKept() && SameLogical(old(bufs), disk, bufs, disk) && (old(Clear()) ==> Clear())
      ensures bufs == old(bufs)[b := old(bufs)[b].(refcnt := old(bufs)[b].refcnt - 1)]
    {
      hide RingOk, Logical, KeysOk;
      CountsOnly(bufs, disk, b, Refer(bufs[b], -1));
      bufs := bufs[b := Refer(bufs[b], -1)];
    }
  }

  lemma {:induction false} CleanAfter(bufs: seq<Buf>, disk: map<(nat, nat), Content>, b: nat, x: Buf)
    requires b < |bufs| && bufs[b].refcnt > 0 && Clean(x, disk) == Clean(bufs[b], disk)
    ensures CleanOk(bufs[b := x], disk) <==> CleanOk(bufs, disk) && (x.refcnt == 0 ==> Clean(bufs[b], disk))
  {
    hide Clean;
    var bufs' := bufs[b := x];
    assert forall i :: 0 <= i < |bufs| && i != b ==> bufs'[i] == bufs[i];
    if CleanOk(bufs', disk) {
      forall i | 0 <= i < |bufs| && bufs[i].refcnt == 0
        ensures Clean(bufs[i], disk)
      {
        assert Clean(bufs'[i], disk);
      }
      assert x.refcnt == 0 ==> Clean(bufs'[b], disk);
    }
  }

  lemma {:induction false} OldestClean(bufs: seq<Buf>, disk: map<(nat, nat), Content>, stamp: seq<nat>, b: nat)
    requires b < |bufs| && CleanOk(bufs, disk) && |stamp| == |bufs| && Oldest(bufs, stamp, b)
    ensures Clean(bufs[b], disk)
  {
  }

  function Locked(b: Buf, v: bool): Buf {
    Buf(b.valid, b.dev, b.blockno, b.refcnt, v, b.data)
  }

  lemma {:induction false} RingShape(n: nat, order: seq<nat>, next: seq<nat>, prev: seq<nat>, stamp: seq<nat>,
      clock: nat)
    requires RingOk(n, order, next, prev, stamp, clock)
    ensures |order| == n && |next| == |prev| == n + 1 && |stamp| == n
    ensures (forall i :: 0 <= i < |order| ==> order[i] < n) && (forall i :: 0 <= i < n ==> stamp[i] < clock)
  {
  }

  /** The last unreferenced buffer in the ring is the one released longest ago. */
  lemma {:induction false} OldestIs(bufs: seq<Buf>, n: nat, order: seq<nat>, next: seq<nat>, prev: seq<nat>,
      stamp: seq<nat>, clock: nat, i: nat)
    requires |bufs| == n && RingOk(n, order, next, prev, stamp, clock) && 0 < i <= n && order[i - 1] < n
             && bufs[order[i - 1]].refcnt == 0
    requires forall k :: i < k <= n ==> ([n] + order)[k] < n && bufs[([n] + order)[k]].refcnt > 0
    ensures Oldest(bufs, stamp, order[i - 1])
  {
    var b := order[i - 1];
    forall x | 0 <= x < |bufs| && x != b && bufs[x].refcnt == 0
      ensures stamp[b] < stamp[x]
    {
      var k := PlaceOf(n, order, next, prev, stamp, clock, x);
      assert ([n] + order)[k + 1] == x;
      assert k + 1 <= i;
    }
  }
}
