/**
 * Copy-on-write user memory: kernel/kalloc.c, the user part of kernel/vm.c and
 * the store-fault path of kernel/trap.c, over flat page tables (PageTable.dfy
 * shows that the three-level tables are such maps).
 */
module Cow {

  const NPROC: nat := 64
  const PGSIZE: nat := 4096

  type Byte = x: int | 0 <= x < 256
  type Page = s: seq<Byte> | |s| == PGSIZE witness seq(PGSIZE, _ => 0)

  /** The page of an address, its offset there, and the address of a page: PGROUNDDOWN taken apart. */
  function PageOf(va: nat): nat {
    va / PGSIZE
  }

  function OffsetOf(va: nat): (o: nat)
    ensures o < PGSIZE
  {
    va % PGSIZE
  }

  function PageStart(v: nat): nat {
    v * PGSIZE
  }

  function Filled(b: Byte): Page {
    seq(PGSIZE, _ => b)
  }

  datatype Flags = Flags(r: bool, w: bool, x: bool, u: bool, cow: bool)

  /** A valid leaf PTE. */
  datatype Pte = Pte(frame: nat, flags: Flags)

  /** A table below the root, by the pages it serves: 512 * 512 of them, or 512. */
  datatype Dir = Mid(i: nat) | Low(ij: nat)

  /** A process: its size in bytes, its leaf PTEs by page number, the frames the kernel holds for it
      (page-table pages, trapframe), which tables it has below the root, and whether it is a zombie, which
      keeps its memory until its parent waits. */
  datatype Proc = Proc(sz: nat, pt: map<nat, Pte>, tables: set<nat>, dirs: set<Dir>, dead: bool)

  /** Physical memory, refer_count, the free list, the processes, and the frames that
      kernel code has in hand (kalloc'ed, not yet mapped) or keeps for itself. */
  datatype Vm = Vm(mem: seq<Page>, refs: seq<nat>, free: seq<nat>, procs: map<nat, Proc>, held: set<nat>)

  // ---------------------------------------------------------------- who uses a frame

  ghost predicate Maps(proc: Proc, f: nat) {
    exists v :: v in proc.pt && proc.pt[v].frame == f
  }

  ghost predicate Uses(proc: Proc, f: nat) {
    Maps(proc, f) || f in proc.tables
  }

  ghost function Users(procs: map<nat, Proc>, f: nat): set<nat> {
    set p | p in procs && Uses(procs[p], f)
  }

  // ---------------------------------------------------------------- invariant

  ghost predicate ProcOk(proc: Proc, frames: nat) {
    && (forall v :: v in proc.pt ==> proc.pt[v].frame < frames && proc.pt[v].frame !in proc.tables)
    && (forall v, v' :: v in proc.pt && v' in proc.pt && v != v' ==> proc.pt[v].frame != proc.pt[v'].frame)
    && (forall f :: f in proc.tables ==> f < frames)
  }

  ghost predicate ProcsOk(procs: map<nat, Proc>, frames: nat) {
    && |procs| <= NPROC
    && (forall p :: p in procs ==> ProcOk(procs[p], frames))
  }

  ghost function Held(held: set<nat>, f: nat): nat {
    if f in held then 1 else 0
  }

  /** refer_count of every frame is the number of processes that use it, plus one if the kernel holds it. */
  ghost predicate Counted(s: Vm) {
    && |s.refs| == |s.mem|
    && (forall f :: 0 <= f < |s.refs| ==> s.refs[f] == |Users(s.procs, f)| + Held(s.held, f))
  }

  /** What the kernel holds nobody maps, and a page-table page serves one process only. */
  ghost predicate Owned(s: Vm) {
    && (forall f: nat :: f in s.held ==> f < |s.mem| && Users(s.procs, f) == {})
    && (forall p, f :: p in s.procs && f in s.procs[p].tables ==> Users(s.procs, f) == {p})
  }

  /** The free list holds exactly the frames with count 0, each once. */
  ghost predicate FreeOk(refs: seq<nat>, free: seq<nat>) {
    && (forall i, j :: 0 <= i < j < |free| ==> free[i] != free[j])
    && (forall f: nat :: f in free <==> f < |refs| && refs[f] == 0)
  }

  ghost predicate Conserved(s: Vm) {
    ProcsOk(s.procs, |s.mem|) && Counted(s) && Owned(s) && FreeOk(s.refs, s.free)
  }

  /** No PTE of q that lets the hardware write names a shared frame, unless q never runs again. */
  ghost predicate ExclusiveFor(procs: map<nat, Proc>, q: nat)
    requires q in procs
  {
    !procs[q].dead ==>
      forall v :: v in procs[q].pt && procs[q].pt[v].flags.w ==> Users(procs, procs[q].pt[v].frame) == {q}
  }

  ghost predicate Exclusive(procs: map<nat, Proc>) {
    forall q :: q in procs ==> ExclusiveFor(procs, q)
  }

  /** Every process that wrote only to frames of its own still does. */
  ghost predicate StillExclusive(procs: map<nat, Proc>, procs': map<nat, Proc>) {
    forall q :: q in procs' && (q in procs ==> ExclusiveFor(procs, q)) ==> ExclusiveFor(procs', q)
  }

  ghost predicate Inv(s: Vm) {
    Conserved(s) && Exclusive(s.procs)
  }

  // ---------------------------------------------------------------- what processes see

  /** A page of the eager model: its bytes, and whether the process may write them. */
  datatype VPage = VPage(data: Page, r: bool, x: bool, u: bool, writable: bool)

  /** The memory of every process, by process and page number. */
  type Views = map<nat, map<nat, VPage>>

  ghost function Seen(mem: seq<Page>, pte: Pte): VPage {
    VPage(if pte.frame < |mem| then mem[pte.frame] else Filled(0),
          pte.flags.r, pte.flags.x, pte.flags.u, pte.flags.w || pte.flags.cow)
  }

  ghost function Space(mem: seq<Page>, proc: Proc): map<nat, VPage> {
    map v | v in proc.pt :: Seen(mem, proc.pt[v])
  }

  /** The memories of all processes, as if each page had been copied at fork. */
  ghost function View(s: Vm): Views {
    map p | p in s.procs :: Space(s.mem, s.procs[p])
  }

  // ---------------------------------------------------------------- users of a frame after an update

  lemma {:induction false} UsersUpdate(procs: map<nat, Proc>, p: nat, proc: Proc, f: nat)
    ensures Users(procs[p := proc], f) == if Uses(proc, f) then Users(procs, f) + {p} else Users(procs, f) - {p}
  {
  }

  lemma {:induction false} UsersRemove(procs: map<nat, Proc>, p: nat, f: nat)
    ensures Users(procs - {p}, f) == Users(procs, f) - {p}
  {
  }

  lemma {:induction false} UsersBound(s: Vm, f: nat)
    requires ProcsOk(s.procs, |s.mem|)
    ensures Users(s.procs, f) <= s.procs.Keys && |Users(s.procs, f)| <= NPROC
  {
    SubsetCard(Users(s.procs, f), s.procs.Keys);
  }

  lemma {:induction false} SubsetCard(a: set<nat>, b: set<nat>)
    requires a <= b
    ensures |a| <= |b|
  {
    assert b == a + (b - a);
  }

  // ---------------------------------------------------------------- kalloc.c

  /** kalloc: the head of the free list, filled with junk, counted once. */
  ghost function Kalloc(s: Vm): Vm
    requires s.free != [] && s.free[0] < |s.mem| == |s.refs|
  {
    var f := s.free[0];
    s.(mem := s.mem[f := Filled(5)], refs := s.refs[f := 1], free := s.free[1..], held := s.held + {f})
  }

  lemma {:induction false} KallocKeeps(s: Vm)
    requires Conserved(s) && s.free != []
    ensures s.free[0] < |s.mem| == |s.refs| && s.free[0] !in s.held && Users(s.procs, s.free[0]) == {}
    ensures Conserved(Kalloc(s)) && View(Kalloc(s)) == View(s)
  {
    var f := s.free[0];
    assert f in s.free;
    FreePop(s.refs, s.free);
    Unused(s, f);
    ViewElsewhere(s, f, Filled(5));
  }

  lemma {:induction false} FreePop(refs: seq<nat>, free: seq<nat>)
    requires FreeOk(refs, free) && free != []
    ensures free[0] in free && free[0] < |refs| && FreeOk(refs[free[0] := 1], free[1..])
  {
    assert free[0] in free;
    var refs', free' := refs[free[0] := 1], free[1..];
    forall f: nat
      ensures f in free' <==> f < |refs'| && refs'[f] == 0
    {
      assert f in free <==> f == free[0] || f in free';
    }
  }

  lemma {:induction false} Unused(s: Vm, f: nat)
    requires Users(s.procs, f) == {}
    ensures forall p :: p in s.procs ==> !Uses(s.procs[p], f)
  {
    forall p | p in s.procs
      ensures !Uses(s.procs[p], f)
    {
      assert p !in Users(s.procs, f);
    }
  }

  /** Changing a frame nobody maps changes nobody's memory. */
  lemma {:induction false} ViewElsewhere(s: Vm, f: nat, page: Page)
    requires f < |s.mem| && forall p :: p in s.procs ==> !Uses(s.procs[p], f)
    ensures View(s.(mem := s.mem[f := page])) == View(s)
  {
    forall p | p in s.procs
      ensures Space(s.mem[f := page], s.procs[p]) == Space(s.mem, s.procs[p])
    {
      assert !Maps(s.procs[p], f);
    }
  }

  /** kfree: one reference less, in a uint8; the last one puts the junk-filled frame on the free list. */
  ghost function Kfree(s: Vm, f: nat): Vm
    requires f < |s.mem| == |s.refs|
  {
    var c := (s.refs[f] + 255) % 256;
    if c > 0 then s.(refs := s.refs[f := c])
    else s.(mem := s.mem[f := Filled(1)], refs := s.refs[f := 0], free := [f] + s.free)
  }

  /** increase_refer, also in a uint8. */
  ghost function IncreaseRefer(s: Vm, f: nat): Vm
    requires f < |s.refs|
  {
    s.(refs := s.refs[f := (s.refs[f] + 1) % 256])
  }

  ghost function Total(procs: map<nat, Proc>, held: set<nat>, f: nat): nat {
    |Users(procs, f)| + Held(held, f)
  }

  /** kfree does the accounting for any change that takes one user away from f alone. */
  lemma {:induction false} KfreeCounts(s: Vm, f: nat, procs: map<nat, Proc>, held: set<nat>)
    requires Conserved(s) && f < |s.mem|
    requires Total(s.procs, s.held, f) == Total(procs, held, f) + 1 <= 255
    requires forall g: nat :: g != f ==> Total(procs, held, g) == Total(s.procs, s.held, g)
    ensures |Kfree(s, f).mem| == |s.mem|
    ensures Counted(Kfree(s, f).(procs := procs, held := held))
    ensures FreeOk(Kfree(s, f).refs, Kfree(s, f).free)
  {
    var s' := Kfree(s, f);
    assert s.refs[f] == Total(s.procs, s.held, f);
    assert s'.refs[f] == s.refs[f] - 1;
    forall g: nat | g < |s'.refs|
      ensures s'.refs[g] == Total(procs, held, g)
    {
      assert s.refs[g] == Total(s.procs, s.held, g);
    }
    if s'.refs[f] == 0 { FreePush(s.refs, s.free, f); } else { FreeSame(s.refs, s.free, f, s'.refs[f]); }
  }

  lemma {:induction false} FreePush(refs: seq<nat>, free: seq<nat>, f: nat)
    requires FreeOk(refs, free) && f < |refs| && refs[f] != 0
    ensures FreeOk(refs[f := 0], [f] + free)
  {
    assert f !in free;
    var refs', free' := refs[f := 0], [f] + free;
    forall g: nat
      ensures g in free' <==> g < |refs'| && refs'[g] == 0
    {
      assert g in free' <==> g == f || g in free;
    }
  }

  lemma {:induction false} FreeSame(refs: seq<nat>, free: seq<nat>, f: nat, c: nat)
    requires FreeOk(refs, free) && f < |refs| && refs[f] != 0 && c != 0
    ensures FreeOk(refs[f := c], free)
  {
    forall g: nat
      ensures g in free <==> g < |refs| && refs[f := c][g] == 0
    {
      assert g in free <==> g < |refs| && refs[g] == 0;
    }
  }

  /** increase_refer does the accounting for one more user of f alone. */
  lemma {:induction false} IncreaseCounts(s: Vm, f: nat, procs: map<nat, Proc>)
    requires Conserved(s) && f < |s.mem| && s.refs[f] > 0
    requires Total(procs, s.held, f) == Total(s.procs, s.held, f) + 1 <= 255
    requires forall g: nat :: g != f ==> Total(procs, s.held, g) == Total(s.procs, s.held, g)
    ensures Counted(IncreaseRefer(s, f).(procs := procs))
    ensures FreeOk(IncreaseRefer(s, f).refs, s.free)
  {
    hide Users;
    var s' := IncreaseRefer(s, f).(procs := procs);
    assert s.refs[f] == Total(s.procs, s.held, f);
    forall g: nat | g < |s'.refs|
      ensures s'.refs[g] == Total(procs, s.held, g)
    {
      assert s.refs[g] == Total(s.procs, s.held, g);
    }
    FreeSame(s.refs, s.free, f, s.refs[f] + 1);
  }

  // ---------------------------------------------------------------- taking a mapping or a table page away

  ghost function Unmapped(proc: Proc, v: nat): Proc {
    proc.(pt := proc.pt - {v})
  }

  ghost function TableGone(proc: Proc, f: nat): Proc {
    proc.(tables := proc.tables - {f})
  }

  /** Dropping a leaf drops exactly its own frame from the process. */
  lemma {:induction false} UnmappedUses(proc: Proc, v: nat, frames: nat, g: nat)
    requires ProcOk(proc, frames) && v in proc.pt
    ensures Uses(Unmapped(proc, v), g) <==> g != proc.pt[v].frame && Uses(proc, g)
  {
    if g != proc.pt[v].frame && Maps(proc, g) {
      var w :| w in proc.pt && proc.pt[w].frame == g;
      assert w in Unmapped(proc, v).pt && Unmapped(proc, v).pt[w].frame == g;
    }
  }

  lemma {:induction false} TableGoneUses(proc: Proc, f: nat, frames: nat, g: nat)
    requires ProcOk(proc, frames) && f in proc.tables
    ensures Uses(TableGone(proc, f), g) <==> g != f && Uses(proc, g)
  {
    if Maps(proc, g) {
      var w :| w in proc.pt && proc.pt[w].frame == g;
      assert TableGone(proc, f).pt[w].frame == g;
    }
    if Maps(TableGone(proc, f), g) {
      var w :| w in proc.pt && proc.pt[w].frame == g;
    }
  }

  /** A process that gives up frame f and nothing else. */
  ghost predicate GivesUp(proc: Proc, proc': Proc, f: nat) {
    && Uses(proc, f)
    && (forall g: nat :: Uses(proc', g) <==> g != f && Uses(proc, g))
    && proc'.tables <= proc.tables && proc'.dead == proc.dead
    && (forall v :: v in proc'.pt ==> v in proc.pt && proc'.pt[v] == proc.pt[v])
  }

  lemma {:induction false} GiveUpUsers(s: Vm, p: nat, proc': Proc, f: nat, g: nat)
    requires p in s.procs && GivesUp(s.procs[p], proc', f)
    ensures Users(s.procs[p := proc'], g) == if g == f then Users(s.procs, g) - {p} else Users(s.procs, g)
    ensures p in Users(s.procs, f)
  {
    UsersUpdate(s.procs, p, proc', g);
    if g != f && Uses(proc', g) { assert p in Users(s.procs, g); }
    if g != f && !Uses(proc', g) { assert p !in Users(s.procs, g); }
  }

  lemma {:induction false} GiveUpOwned(s: Vm, p: nat, proc': Proc, f: nat)
    requires Owned(s) && p in s.procs && GivesUp(s.procs[p], proc', f)
    requires forall g: nat :: Users(s.procs[p := proc'], g) == if g == f then Users(s.procs, g) - {p}
             else Users(s.procs, g)
    requires p in Users(s.procs, f)
    ensures f !in s.held && Owned(s.(procs := s.procs[p := proc']))
  {
    hide Users;
    var procs := s.procs[p := proc'];
    assert Uses(proc', f) == false;
    forall q, g | q in procs && g in procs[q].tables
      ensures Users(procs, g) == {q}
    {
      assert g in s.procs[q].tables;
      assert Users(s.procs, g) == {q};
    }
  }

  lemma {:induction false} GiveUpExclusive(s: Vm, p: nat, proc': Proc, f: nat)
    requires p in s.procs && GivesUp(s.procs[p], proc', f)
    requires forall g: nat :: Users(s.procs[p := proc'], g) == if g == f then Users(s.procs, g) - {p}
             else Users(s.procs, g)
    requires p in Users(s.procs, f)
    ensures StillExclusive(s.procs, s.procs[p := proc'])
  {
    hide Users;
    var procs := s.procs[p := proc'];
    forall q, v | q in procs && ExclusiveFor(s.procs, q) && !procs[q].dead && v in procs[q].pt
                  && procs[q].pt[v].flags.w
      ensures Users(procs, procs[q].pt[v].frame) == {q}
    {
      assert v in s.procs[q].pt && s.procs[q].pt[v] == procs[q].pt[v];
      if q == p { assert Maps(proc', proc'.pt[v].frame); }
    }
  }

  lemma {:induction false} ProcsUpdate(procs: map<nat, Proc>, p: nat, proc': Proc, frames: nat)
    requires ProcsOk(procs, frames) && p in procs && ProcOk(proc', frames)
    ensures ProcsOk(procs[p := proc'], frames)
  {
    hide ProcOk;
    assert procs[p := proc'].Keys == procs.Keys;
  }

  lemma {:induction false} GiveUpKeeps(s: Vm, p: nat, proc': Proc, f: nat)
    requires Conserved(s) && p in s.procs && f < |s.mem| && GivesUp(s.procs[p], proc', f) && ProcOk(proc', |s.mem|)
    ensures Conserved(Kfree(s, f).(procs := s.procs[p := proc']))
    ensures StillExclusive(s.procs, s.procs[p := proc'])
  {
    hide Users, Uses, FreeOk, Owned, ProcsOk, StillExclusive;
    var procs := s.procs[p := proc'];
    forall g: nat
      ensures Users(procs, g) == if g == f then Users(s.procs, g) - {p} else Users(s.procs, g)
    {
      GiveUpUsers(s, p, proc', f, g);
    }
    GiveUpUsers(s, p, proc', f, f);
    UsersBound(s, f);
    GiveUpOwned(s, p, proc', f);
    KfreeCounts(s, f, procs, s.held);
    OwnedOnly(s.(procs := procs), Kfree(s, f).(procs := procs));
    ProcsUpdate(s.procs, p, proc', |s.mem|);
    GiveUpExclusive(s, p, proc', f);
  }

  /** Owned does not depend on contents, counts or the free list. */
  lemma {:induction false} OwnedOnly(s: Vm, s': Vm)
    requires Owned(s) && s'.procs == s.procs && s'.held == s.held && |s'.mem| == |s.mem|
    ensures Owned(s')
  {
  }

  // ---------------------------------------------------------------- adding a mapping or a table page

  ghost function Mapped(proc: Proc, v: nat, pte: Pte): Proc {
    proc.(pt := proc.pt[v := pte])
  }

  ghost function TableAdded(proc: Proc, f: nat, ds: set<Dir>): Proc {
    proc.(tables := proc.tables + {f}, dirs := proc.dirs + ds)
  }

  /** A process that takes on frame f and nothing else; f is not mapped writable unless `w`. */
  ghost predicate TakesOn(proc: Proc, proc': Proc, f: nat) {
    && !Uses(proc, f)
    && (forall g: nat :: Uses(proc', g) <==> g == f || Uses(proc, g))
    && proc.tables <= proc'.tables <= proc.tables + {f} && proc'.dead == proc.dead
    && (forall v :: v in proc'.pt ==> proc'.pt[v].frame == f || (v in proc.pt && proc'.pt[v] == proc.pt[v]))
  }

  lemma {:induction false} MappedTakesOn(proc: Proc, v: nat, pte: Pte, frames: nat)
    requires ProcOk(proc, frames) && v !in proc.pt && !Uses(proc, pte.frame) && pte.frame < frames
    ensures TakesOn(proc, Mapped(proc, v, pte), pte.frame) && ProcOk(Mapped(proc, v, pte), frames)
  {
    var proc' := Mapped(proc, v, pte);
    forall g: nat
      ensures Uses(proc', g) <==> g == pte.frame || Uses(proc, g)
    {
      if Maps(proc, g) {
        var w :| w in proc.pt && proc.pt[w].frame == g;
        assert w in proc'.pt && proc'.pt[w].frame == g;
      }
      assert v in proc'.pt && proc'.pt[v].frame == pte.frame;
    }
  }

  lemma {:induction false} TableTakesOn(proc: Proc, f: nat, ds: set<Dir>, frames: nat)
    requires ProcOk(proc, frames) && !Uses(proc, f) && f < frames
    ensures TakesOn(proc, TableAdded(proc, f, ds), f) && ProcOk(TableAdded(proc, f, ds), frames)
  {
    var proc' := TableAdded(proc, f, ds);
    forall g: nat
      ensures Maps(proc', g) <==> Maps(proc, g)
    {
      if Maps(proc, g) {
        var w :| w in proc.pt && proc.pt[w].frame == g;
        assert w in proc'.pt && proc'.pt[w].frame == g;
      }
    }
  }

  lemma {:induction false} TakeOnUsers(s: Vm, p: nat, proc': Proc, f: nat, g: nat)
    requires p in s.procs && TakesOn(s.procs[p], proc', f)
    ensures Users(s.procs[p := proc'], g) == if g == f then Users(s.procs, g) + {p} else Users(s.procs, g)
    ensures p !in Users(s.procs, f)
  {
    UsersUpdate(s.procs, p, proc', g);
    if g != f && Uses(proc', g) { assert p in Users(s.procs, g); }
    if g != f && !Uses(proc', g) { assert p !in Users(s.procs, g); }
  }

  /** A frame in the kernel's hand becomes a page or a table page of p. */
  lemma {:induction false} AdoptKeeps(s: Vm, p: nat, proc': Proc, f: nat)
    requires Conserved(s) && p in s.procs && f in s.held && TakesOn(s.procs[p], proc', f) && ProcOk(proc', |s.mem|)
    ensures Conserved(s.(procs := s.procs[p := proc'], held := s.held - {f}))
    ensures StillExclusive(s.procs, s.procs[p := proc'])
  {
    hide Users, Uses, FreeOk, ProcsOk, StillExclusive;
    var procs := s.procs[p := proc'];
    var s' := s.(procs := procs, held := s.held - {f});
    forall g: nat
      ensures Users(procs, g) == if g == f then {p} else Users(s.procs, g)
    {
      TakeOnUsers(s, p, proc', f, g);
    }
    forall g: nat | g < |s.refs|
      ensures s'.refs[g] == |Users(s'.procs, g)| + Held(s'.held, g)
    {
      assert s.refs[g] == |Users(s.procs, g)| + Held(s.held, g);
    }
    ProcsUpdate(s.procs, p, proc', |s.mem|);
    AdoptOwned(s, p, proc', f);
    AdoptExclusive(s, p, proc', f);
  }

  lemma {:induction false} AdoptOwned(s: Vm, p: nat, proc': Proc, f: nat)
    requires Owned(s) && p in s.procs && f in s.held && TakesOn(s.procs[p], proc', f)
    requires forall g: nat :: Users(s.procs[p := proc'], g) == if g == f then {p} else Users(s.procs, g)
    ensures Owned(s.(procs := s.procs[p := proc'], held := s.held - {f}))
  {
    hide Users, Uses;
    var procs := s.procs[p := proc'];
    forall q, g | q in procs && g in procs[q].tables
      ensures Users(procs, g) == {q}
    {
      if q != p || g != f { assert g in s.procs[q].tables && Users(s.procs, g) == {q}; }
    }
  }

  lemma {:induction false} AdoptExclusive(s: Vm, p: nat, proc': Proc, f: nat)
    requires Users(s.procs, f) == {} && p in s.procs && TakesOn(s.procs[p], proc', f)
    requires forall g: nat :: Users(s.procs[p := proc'], g) == if g == f then {p} else Users(s.procs, g)
    ensures StillExclusive(s.procs, s.procs[p := proc'])
  {
    hide Users, Uses;
    var procs := s.procs[p := proc'];
    forall q, v | q in procs && ExclusiveFor(s.procs, q) && !procs[q].dead && v in procs[q].pt
                  && procs[q].pt[v].flags.w
      ensures Users(procs, procs[q].pt[v].frame) == {q}
    {
      if q != p || procs[q].pt[v].frame != f {
        assert v in s.procs[q].pt && s.procs[q].pt[v] == procs[q].pt[v];
        assert Users(s.procs, procs[q].pt[v].frame) == {q};
      }
    }
  }

  /** fork's sharing: p also maps frame f, which someone else maps already. */
  lemma {:induction false} ShareKeeps(s: Vm, p: nat, proc': Proc, f: nat)
    requires Conserved(s) && p in s.procs && TakesOn(s.procs[p], proc', f) && ProcOk(proc', |s.mem|)
    requires f < |s.mem| && f !in s.held && Users(s.procs, f) != {}
    requires proc'.tables == s.procs[p].tables && forall q :: q in s.procs ==> f !in s.procs[q].tables
    ensures Conserved(IncreaseRefer(s, f).(procs := s.procs[p := proc']))
  {
    hide Users, Uses, FreeOk, ProcsOk;
    var procs := s.procs[p := proc'];
    forall g: nat
      ensures Users(procs, g) == if g == f then Users(s.procs, g) + {p} else Users(s.procs, g)
    {
      TakeOnUsers(s, p, proc', f, g);
    }
    TakeOnUsers(s, p, proc', f, f);
    ProcsUpdate(s.procs, p, proc', |s.mem|);
    UsersBound(s, f);
    assert s.refs[f] == |Users(s.procs, f)| + Held(s.held, f);
    IncreaseCounts(s, f, procs);
    ShareOwned(s, p, proc', f);
    OwnedOnly(s.(procs := procs), IncreaseRefer(s, f).(procs := procs));
  }

  lemma {:induction false} ShareOwned(s: Vm, p: nat, proc': Proc, f: nat)
    requires Owned(s) && p in s.procs && f !in s.held && proc'.tables == s.procs[p].tables
    requires forall q :: q in s.procs ==> f !in s.procs[q].tables
    requires forall g: nat :: g != f ==> Users(s.procs[p := proc'], g) == Users(s.procs, g)
    ensures Owned(s.(procs := s.procs[p := proc']))
  {
    hide Users;
    var procs := s.procs[p := proc'];
    forall q, g | q in procs && g in procs[q].tables
      ensures Users(procs, g) == {q}
    {
      assert g in s.procs[q].tables && g != f;
      assert Users(s.procs, g) == {q};
    }
  }

  lemma {:induction false} ShareExclusive(s: Vm, p: nat, proc': Proc, f: nat)
    requires p in s.procs && TakesOn(s.procs[p], proc', f)
    requires forall q, v :: q in s.procs && v in s.procs[q].pt && s.procs[q].pt[v].frame == f ==>
               s.procs[q].dead || !s.procs[q].pt[v].flags.w
    requires forall v :: v in proc'.pt && proc'.pt[v].frame == f ==> !proc'.pt[v].flags.w
    ensures StillExclusive(s.procs, s.procs[p := proc'])
  {
    hide Users, Uses;
    var procs := s.procs[p := proc'];
    forall q, v | q in procs && ExclusiveFor(s.procs, q) && !procs[q].dead && v in procs[q].pt
                  && procs[q].pt[v].flags.w
      ensures Users(procs, procs[q].pt[v].frame) == {q}
    {
      TakeOnUsers(s, p, proc', f, procs[q].pt[v].frame);
      assert v in s.procs[q].pt && s.procs[q].pt[v] == procs[q].pt[v];
    }
  }

  // ---------------------------------------------------------------- changing the flags of a PTE

  /** A process that neither grew, shrank nor exited. */
  ghost predicate SameSlot(proc: Proc, proc': Proc) {
    proc'.sz == proc.sz && proc'.dead == proc.dead
  }

  /** A process after a change of PTE flags only. */
  ghost predicate SameFrames(proc: Proc, proc': Proc) {
    && proc'.tables == proc.tables && proc'.pt.Keys == proc.pt.Keys
    && forall v :: v in proc.pt ==> proc'.pt[v].frame == proc.pt[v].frame
  }

  lemma {:induction false} SameUsers(procs: map<nat, Proc>, p: nat, proc': Proc, g: nat)
    requires p in procs && SameFrames(procs[p], proc')
    ensures Users(procs[p := proc'], g) == Users(procs, g)
  {
    if Maps(procs[p], g) {
      var v :| v in procs[p].pt && procs[p].pt[v].frame == g;
      assert v in proc'.pt && proc'.pt[v].frame == g;
    }
    if Maps(proc', g) {
      var v :| v in proc'.pt && proc'.pt[v].frame == g;
      assert v in procs[p].pt && procs[p].pt[v].frame == g;
    }
  }

  lemma {:induction false} SameKeeps(s: Vm, p: nat, proc': Proc)
    requires Conserved(s) && p in s.procs && SameFrames(s.procs[p], proc')
    ensures Conserved(s.(procs := s.procs[p := proc']))
    ensures forall g: nat :: Users(s.procs[p := proc'], g) == Users(s.procs, g)
  {
    hide Users, Uses, FreeOk;
    var procs := s.procs[p := proc'];
    forall g: nat
      ensures Users(procs, g) == Users(s.procs, g)
    {
      SameUsers(s.procs, p, proc', g);
    }
    ProcsUpdate(s.procs, p, proc', |s.mem|);
    forall q, g | q in procs && g in procs[q].tables
      ensures Users(procs, g) == {q}
    {
      assert g in s.procs[q].tables;
      assert Users(s.procs, g) == {q} && Users(procs, g) == Users(s.procs, g);
    }
  }

  // ---------------------------------------------------------------- what a change does to the view

  lemma {:induction false} ViewProc(s: Vm, p: nat, proc': Proc)
    ensures View(s.(procs := s.procs[p := proc'])) == View(s)[p := Space(s.mem, proc')]
  {
  }

  lemma {:induction false} ViewGone(s: Vm, p: nat)
    ensures View(s.(procs := s.procs - {p})) == View(s) - {p}
  {
  }

  /** kfree fills a frame with junk only when no process sees it. */
  lemma {:induction false} ViewKfree(s: Vm, f: nat, procs: map<nat, Proc>)
    requires f < |s.mem| == |s.refs| && Counted(Kfree(s, f).(procs := procs))
    ensures View(Kfree(s, f).(procs := procs)) == View(s.(procs := procs))
  {
    var s' := Kfree(s, f).(procs := procs);
    if s'.mem != s.mem {
      assert s'.refs[f] == 0;
      Unused(s', f);
      ViewElsewhere(s.(procs := procs), f, Filled(1));
    }
  }

  lemma {:induction false} SpaceUnmapped(mem: seq<Page>, proc: Proc, v: nat)
    ensures Space(mem, Unmapped(proc, v)) == Space(mem, proc) - {v}
  {
  }

  lemma {:induction false} SpaceMapped(mem: seq<Page>, proc: Proc, v: nat, pte: Pte)
    ensures Space(mem, Mapped(proc, v, pte)) == Space(mem, proc) + map[v := Seen(mem, pte)]
  {
  }

  ghost function PutPage(view: Views, p: nat, v: nat, vp: VPage): Views
    requires p in view
  {
    view[p := view[p] + map[v := vp]]
  }

  ghost function SetPage(view: Views, p: nat, v: nat, page: Page): Views
    requires p in view && v in view[p]
  {
    view[p := view[p][v := view[p][v].(data := page)]]
  }

  /** Writing a frame that only p uses is a write to p's own page. */
  lemma {:induction false} WriteOwn(s: Vm, p: nat, v: nat, page: Page)
    requires ProcsOk(s.procs, |s.mem|) && p in s.procs && v in s.procs[p].pt
    requires Users(s.procs, s.procs[p].pt[v].frame) == {p}
    ensures View(s.(mem := s.mem[s.procs[p].pt[v].frame := page])) == SetPage(View(s), p, v, page)
  {
    var f := s.procs[p].pt[v].frame;
    var mem' := s.mem[f := page];
    forall q | q in s.procs && q != p
      ensures Space(mem', s.procs[q]) == Space(s.mem, s.procs[q])
    {
      assert q !in Users(s.procs, f);
      assert !Maps(s.procs[q], f);
    }
    SpaceWritten(s.mem, s.procs[p], v, page);
    hide Space, Users, ProcsOk;
    var view, view' := View(s), View(s.(mem := mem'));
    forall q | q in s.procs
      ensures view'[q] == SetPage(view, p, v, page)[q]
    {
    }
  }

  lemma {:induction false} SpaceWritten(mem: seq<Page>, proc: Proc, v: nat, page: Page)
    requires ProcOk(proc, |mem|) && v in proc.pt
    ensures var mem' := mem[proc.pt[v].frame := page];
            Space(mem', proc) == Space(mem, proc)[v := Space(mem, proc)[v].(data := page)]
  {
  }

  /** In-place writing is faithful for every page of data exactly when the frame is not shared,
      which is to say exactly when its refer_count is 1. */
  lemma {:induction false} InPlaceIffUnshared(s: Vm, p: nat, v: nat)
    requires Conserved(s) && p in s.procs && v in s.procs[p].pt
    ensures var f := s.procs[p].pt[v].frame;
            f < |s.mem| == |s.refs| &&
            ((forall page: Page :: View(s.(mem := s.mem[f := page])) == SetPage(View(s), p, v, page)) <==>
                  s.refs[f] == 1)
  {
    var f := s.procs[p].pt[v].frame;
    assert ProcOk(s.procs[p], |s.mem|);
    assert Maps(s.procs[p], f) && p in Users(s.procs, f);
    assert s.refs[f] == |Users(s.procs, f)|;
    if s.refs[f] == 1 {
      Singleton(Users(s.procs, f), p);
      forall page: Page
        ensures View(s.(mem := s.mem[f := page])) == SetPage(View(s), p, v, page)
      {
        WriteOwn(s, p, v, page);
      }
    } else {
      SharedWriteLeaks(s, p, v);
    }
  }

  lemma {:induction false} AloneIfCountOne(s: Vm, p: nat, v: nat)
    requires Conserved(s) && p in s.procs && v in s.procs[p].pt
    ensures var f := s.procs[p].pt[v].frame; f < |s.refs| && (s.refs[f] == 1 <==> Users(s.procs, f) == {p})
  {
    var f := s.procs[p].pt[v].frame;
    assert ProcOk(s.procs[p], |s.mem|);
    assert Maps(s.procs[p], f) && p in Users(s.procs, f);
    assert s.refs[f] == |Users(s.procs, f)|;
    if s.refs[f] == 1 { Singleton(Users(s.procs, f), p); }
  }

  lemma {:induction false} Singleton(a: set<nat>, x: nat)
    requires x in a && |a| == 1
    ensures a == {x}
  {
    assert |a - {x}| == 0;
  }

  /** A page that several processes map is mapped by one other than p. */
  lemma {:induction false} Sharer(s: Vm, p: nat, v: nat) returns (q: nat, u: nat)
    requires Conserved(s) && p in s.procs && v in s.procs[p].pt
    requires s.procs[p].pt[v].frame < |s.mem| == |s.refs| && s.refs[s.procs[p].pt[v].frame] != 1
    ensures q != p && q in s.procs && u in s.procs[q].pt && s.procs[q].pt[u].frame == s.procs[p].pt[v].frame
  {
    var f := s.procs[p].pt[v].frame;
    assert Maps(s.procs[p], f) && p in Users(s.procs, f);
    assert s.refs[f] == |Users(s.procs, f)|;
    assert |Users(s.procs, f) - {p}| == |Users(s.procs, f)| - 1 > 0;
    q :| q in Users(s.procs, f) - {p};
    assert f !in s.procs[q].tables;
    u :| u in s.procs[q].pt && s.procs[q].pt[u].frame == f;
  }

  lemma {:induction false} SharedWriteLeaks(s: Vm, p: nat, v: nat)
    requires Conserved(s) && p in s.procs && v in s.procs[p].pt
    requires s.procs[p].pt[v].frame < |s.mem| == |s.refs| && s.refs[s.procs[p].pt[v].frame] != 1
    ensures exists page: Page ::
              View(s.(mem := s.mem[s.procs[p].pt[v].frame := page])) != SetPage(View(s), p, v, page)
  {
    hide Conserved;
    var f := s.procs[p].pt[v].frame;
    var q, v' := Sharer(s, p, v);
    var page := if s.mem[f] == Filled(0) then Filled(1) else Filled(0);
    assert Filled(0)[0] != Filled(1)[0];
    var s' := s.(mem := s.mem[f := page]);
    assert View(s')[q][v'].data == page && View(s)[q][v'].data == s.mem[f];
    assert SetPage(View(s), p, v, page)[q] == View(s)[q];
  }

  // ---------------------------------------------------------------- processes coming and going

  lemma {:induction false} NewProcKeeps(s: Vm, c: nat)
    requires Conserved(s) && c !in s.procs && |s.procs| < NPROC
    ensures Conserved(s.(procs := s.procs[c := Proc(0, map[], {}, {}, false)]))
    ensures StillExclusive(s.procs, s.procs[c := Proc(0, map[], {}, {}, false)])
    ensures View(s.(procs := s.procs[c := Proc(0, map[], {}, {}, false)])) == View(s)[c := map[]]
  {
    hide FreeOk, Users, View, Space;
    var empty := Proc(0, map[], {}, {}, false);
    var procs := s.procs[c := empty];
    forall g: nat
      ensures Users(procs, g) == Users(s.procs, g)
    {
      NobodyNew(s.procs, c, g);
    }
    assert procs.Keys == s.procs.Keys + {c};
    forall q, g | q in procs && g in procs[q].tables
      ensures Users(procs, g) == {q}
    {
      assert g in s.procs[q].tables;
      assert Users(s.procs, g) == {q};
    }
    ViewProc(s, c, empty);
    assert Space(s.mem, empty) == map[] by { EmptySpace(s.mem, empty); }
  }

  lemma {:induction false} NobodyNew(procs: map<nat, Proc>, c: nat, g: nat)
    requires c !in procs
    ensures Users(procs[c := Proc(0, map[], {}, {}, false)], g) == Users(procs, g)
  {
    UsersUpdate(procs, c, Proc(0, map[], {}, {}, false), g);
  }

  lemma {:induction false} EmptySpace(mem: seq<Page>, proc: Proc)
    requires proc.pt == map[]
    ensures Space(mem, proc) == map[]
  {
  }

  lemma {:induction false} GoneProcKeeps(s: Vm, p: nat)
    requires Conserved(s) && p in s.procs && s.procs[p].pt == map[] && s.procs[p].tables == {}
    ensures Conserved(s.(procs := s.procs - {p}))
    ensures StillExclusive(s.procs, s.procs - {p})
    ensures View(s.(procs := s.procs - {p})) == View(s) - {p}
  {
    hide FreeOk;
    var procs := s.procs - {p};
    forall g: nat
      ensures Users(procs, g) == Users(s.procs, g)
    {
      UsersRemove(s.procs, p, g);
      assert !Uses(s.procs[p], g);
    }
    hide Users;
    SubsetCard(procs.Keys, s.procs.Keys);
    forall q, g | q in procs && g in procs[q].tables
      ensures Users(procs, g) == {q}
    {
      assert g in s.procs[q].tables;
      assert Users(s.procs, g) == {q};
    }
    ViewGone(s, p);
  }

  // ---------------------------------------------------------------- reference counts

  /** The leaf PTEs, over all live page tables, that map frame f. */
  ghost function Leaves(procs: map<nat, Proc>, f: nat): set<(nat, nat)> {
    set p, v | p in procs && v in procs[p].pt && procs[p].pt[v].frame == f :: (p, v)
  }

  /** refer_count of a user frame is the number of leaf PTEs that map it; a count of 0 means on the
      free list, which has no duplicates; and no count exceeds NPROC, so the uint8 does not wrap. */
  lemma {:induction false} RefcountConservation(s: Vm, f: nat)
    requires Conserved(s) && f < |s.mem|
    ensures |s.refs| == |s.mem| && s.refs[f] <= NPROC < 256
    ensures f !in s.held && (forall p :: p in s.procs ==> f !in s.procs[p].tables) ==> s.refs[f] == |Leaves(s.procs, f)|
    ensures s.refs[f] == 0 <==> f in s.free
    ensures forall i, j :: 0 <= i < j < |s.free| ==> s.free[i] != s.free[j]
  {
    UsersBound(s, f);
    assert s.refs[f] == |Users(s.procs, f)| + Held(s.held, f);
    if f in s.held { assert Users(s.procs, f) == {}; }
    if f !in s.held && forall p :: p in s.procs ==> f !in s.procs[p].tables {
      forall p | p in s.procs
        ensures ProcOk(s.procs[p], |s.mem|)
      {
      }
      LeavesAreUsers(s.procs, f, |s.mem|);
    }
  }

  /** Each process maps a frame at most once. */
  lemma {:induction false} LeavesAreUsers(procs: map<nat, Proc>, f: nat, frames: nat)
    requires forall p :: p in procs ==> ProcOk(procs[p], frames) && f !in procs[p].tables
    ensures |Leaves(procs, f)| == |Users(procs, f)|
  {
    var leaves, users := Leaves(procs, f), Users(procs, f);
    forall p
      ensures p in users <==> exists v :: (p, v) in leaves
    {
      if p in users {
        var v :| v in procs[p].pt && procs[p].pt[v].frame == f;
        assert (p, v) in leaves;
      }
      if exists v :: (p, v) in leaves {
        var v :| (p, v) in leaves;
        assert Maps(procs[p], f);
      }
    }
    forall p, v, v' | (p, v) in leaves && (p, v') in leaves
      ensures v == v'
    {
      assert ProcOk(procs[p], frames);
    }
    ProjectionCard(leaves, users);
  }

  lemma {:induction false} ProjectionCard(a: set<(nat, nat)>, b: set<nat>)
    requires forall p :: p in b <==> exists v :: (p, v) in a
    requires forall p, v, v' :: (p, v) in a && (p, v') in a ==> v == v'
    ensures |a| == |b|
    decreases a
  {
    if a == {} {
      assert forall p :: p !in b;
      assert b == {};
    } else {
      var x :| x in a;
      var a', b' := a - {x}, b - {x.0};
      assert x == (x.0, x.1);
      forall p
        ensures p in b' <==> exists v :: (p, v) in a'
      {
        if p in b' {
          var v :| (p, v) in a;
          assert (p, v) in a';
        }
      }
      ProjectionCard(a', b');
      assert x.0 in b;
    }
  }

  // ---------------------------------------------------------------- the code

  datatype Option<T> = None | Some(value: T)

  predicate Between(lo: nat, u: nat, hi: nat) {
    lo <= u < hi
  }

  function Range(lo: nat, hi: nat): set<nat> {
    set u: nat | lo <= u < hi && Between(lo, u, hi)
  }

  lemma {:induction false} RangeGrows(lo: nat, hi: nat)
    requires lo <= hi
    ensures Range(lo, hi + 1) == Range(lo, hi) + {hi}
  {
    assert Between(lo, hi, hi + 1);
    forall u: nat
      ensures u in Range(lo, hi + 1) <==> u in Range(lo, hi) || u == hi
    {
      assert Between(lo, u, hi) || !Between(lo, u, hi);
      assert Between(lo, u, hi + 1) || !Between(lo, u, hi + 1);
    }
  }

  lemma {:induction false} InRange(lo: nat, hi: nat)
    ensures forall u: nat :: u in Range(lo, hi) <==> lo <= u < hi
  {
    forall u: nat
      ensures u in Range(lo, hi) <==> lo <= u < hi
    {
      assert Between(lo, u, hi) || !Between(lo, u, hi);
    }
  }

  lemma {:induction false} MinusGrows<T>(m: map<nat, T>, lo: nat, hi: nat)
    requires lo <= hi
    ensures m - Range(lo, hi) - {hi} == m - Range(lo, hi + 1)
    ensures m - Range(lo, lo) == m
  {
    RangeGrows(lo, hi);
  }

  function PagesOf(sz: nat): nat {
    (sz + PGSIZE - 1) / PGSIZE
  }

  /** Between operations a process maps exactly the pages below its size. */
  ghost predicate Sized(proc: Proc) {
    proc.pt.Keys == Range(0, PagesOf(proc.sz))
  }

  /** Nothing but the process p may differ, and nobody's count or ownership is off. */
  ghost predicate Keeps(s: Vm, s': Vm) {
    && Conserved(s') && |s'.mem| == |s.mem| && s'.held == s.held
    && StillExclusive(s.procs, s'.procs)
  }

  lemma {:induction false} KeepsSelf(s: Vm)
    requires Conserved(s)
    ensures Keeps(s, s)
  {
    hide Conserved, ExclusiveFor;
  }

  lemma {:induction false} KeepsTwice(a: Vm, b: Vm, c: Vm)
    requires Keeps(a, b) && Keeps(b, c)
    ensures Keeps(a, c)
  {
    hide Conserved, ExclusiveFor;
  }

  lemma {:induction false} UnmapKeeps(s: Vm, p: nat, v: nat)
    requires Conserved(s) && p in s.procs && v in s.procs[p].pt
    ensures s.procs[p].pt[v].frame < |s.mem| == |s.refs|
    ensures var s' := Kfree(s, s.procs[p].pt[v].frame).(procs := s.procs[p := Unmapped(s.procs[p], v)]);
            Keeps(s, s') && View(s') == View(s)[p := View(s)[p] - {v}]
  {
    var proc := s.procs[p];
    var proc' := Unmapped(proc, v);
    var f := proc.pt[v].frame;
    assert ProcOk(proc, |s.mem|);
    forall g: nat
      ensures Uses(proc', g) <==> g != f && Uses(proc, g)
    {
      UnmappedUses(proc, v, |s.mem|, g);
    }
    assert Maps(proc, f);
    GiveUpKeeps(s, p, proc', f);
    ViewKfree(s, f, s.procs[p := proc']);
    ViewProc(s, p, proc');
    SpaceUnmapped(s.mem, proc, v);
  }

  lemma {:induction false} Known(s: Vm, p: nat)
    requires Conserved(s) && p in s.procs
    ensures ProcOk(s.procs[p], |s.mem|) && |s.refs| == |s.mem|
  {
  }

  lemma {:induction false} KnownHeld(s: Vm, f: nat)
    requires Conserved(s) && f in s.held
    ensures f < |s.mem| == |s.refs| && Users(s.procs, f) == {}
    ensures forall p :: p in s.procs ==> !Uses(s.procs[p], f)
  {
    Unused(s, f);
  }

  lemma {:induction false} ViewOf(s: Vm)
    ensures View(s).Keys == s.procs.Keys
    ensures forall p :: p in s.procs ==> View(s)[p] == Space(s.mem, s.procs[p])
  {
  }

  /** A table page taken from the kernel's hand, or given back. */
  lemma {:induction false} TableKeeps(s: Vm, p: nat, f: nat, ds: set<Dir>)
    requires Conserved(s) && p in s.procs && f in s.held
    ensures var s' := s.(procs := s.procs[p := TableAdded(s.procs[p], f, ds)], held := s.held - {f});
            && Conserved(s') && View(s') == View(s)
            && StillExclusive(s.procs, s'.procs)
  {
    hide Conserved, StillExclusive, Users, Uses, ProcOk, TakesOn, View;
    var proc := s.procs[p];
    KnownHeld(s, f);
    Known(s, p);
    TableTakesOn(proc, f, ds, |s.mem|);
    AdoptKeeps(s, p, TableAdded(proc, f, ds), f);
    ViewProc(s.(held := s.held - {f}), p, TableAdded(proc, f, ds));
    assert Space(s.mem, TableAdded(proc, f, ds)) == Space(s.mem, proc);
    SameView(s, s.(held := s.held - {f}));
    ViewOf(s);
  }

  lemma {:induction false} SameView(s: Vm, s': Vm)
    requires s'.mem == s.mem && s'.procs == s.procs
    ensures View(s') == View(s)
  {
  }

  lemma {:induction false} TableFreeKeeps(s: Vm, p: nat, f: nat)
    requires Conserved(s) && p in s.procs && f in s.procs[p].tables
    ensures f < |s.mem| == |s.refs|
    ensures var s' := Kfree(s, f).(procs := s.procs[p := TableGone(s.procs[p], f)]);
            Keeps(s, s') && View(s') == View(s)
  {
    hide Conserved, StillExclusive, Users, View;
    var proc := s.procs[p];
    var proc' := TableGone(proc, f);
    Known(s, p);
    TableGivesUp(proc, f, |s.mem|);
    hide GivesUp, ProcOk;
    GiveUpKeeps(s, p, proc', f);
    KfreeView(s, f, s.procs[p := proc']);
    ViewProc(s, p, proc');
    assert Space(s.mem, proc') == Space(s.mem, proc);
    ViewOf(s);
  }

  lemma {:induction false} TableGivesUp(proc: Proc, f: nat, frames: nat)
    requires ProcOk(proc, frames) && f in proc.tables
    ensures GivesUp(proc, TableGone(proc, f), f) && ProcOk(TableGone(proc, f), frames)
  {
    forall g: nat
      ensures Uses(TableGone(proc, f), g) <==> g != f && Uses(proc, g)
    {
      TableGoneUses(proc, f, frames, g);
    }
  }

  lemma {:induction false} KfreeView(s: Vm, f: nat, procs: map<nat, Proc>)
    requires f < |s.mem| == |s.refs| && Conserved(Kfree(s, f).(procs := procs))
    ensures View(Kfree(s, f).(procs := procs)) == View(s.(procs := procs))
  {
    ViewKfree(s, f, procs);
  }

  /** kfree of a frame that was never mapped. */
  lemma {:induction false} HeldFreeKeeps(s: Vm, f: nat)
    requires Conserved(s) && f in s.held
    ensures f < |s.mem| == |s.refs|
    ensures var s' := Kfree(s, f).(held := s.held - {f});
            Conserved(s') && |s'.mem| == |s.mem| && s'.procs == s.procs && View(s') == View(s)
  {
    var s' := Kfree(s, f).(held := s.held - {f});
    KfreeCounts(s, f, s.procs, s.held - {f});
    Unused(s, f);
    if s'.mem != s.mem { ViewElsewhere(s, f, Filled(1)); }
    assert View(s') == View(s.(mem := s'.mem));
  }

  /** A fresh page, once filled, becomes page v of p. */
  lemma {:induction false} MapHeldKeeps(s: Vm, p: nat, v: nat, pte: Pte)
    requires Conserved(s) && p in s.procs && pte.frame in s.held && v !in s.procs[p].pt
    ensures var s' := s.(procs := s.procs[p := Mapped(s.procs[p], v, pte)], held := s.held - {pte.frame});
            && Conserved(s') && View(s') == PutPage(View(s), p, v, Seen(s.mem, pte))
            && StillExclusive(s.procs, s'.procs)
  {
    hide Conserved, StillExclusive, Users, Uses, ProcOk, TakesOn, View;
    var proc := s.procs[p];
    KnownHeld(s, pte.frame);
    Known(s, p);
    MappedTakesOn(proc, v, pte, |s.mem|);
    AdoptKeeps(s, p, Mapped(proc, v, pte), pte.frame);
    ViewProc(s.(held := s.held - {pte.frame}), p, Mapped(proc, v, pte));
    SpaceMapped(s.mem, proc, v, pte);
    SameView(s, s.(held := s.held - {pte.frame}));
    ViewOf(s);
  }

  /** memset or memmove into a frame in the kernel's hand. */
  lemma {:induction false} FillHeldKeeps(s: Vm, f: nat, page: Page)
    requires Conserved(s) && f in s.held
    ensures f < |s.mem| && Conserved(s.(mem := s.mem[f := page])) && View(s.(mem := s.mem[f := page])) == View(s)
  {
    hide Users, FreeOk, ProcsOk;
    var s' := s.(mem := s.mem[f := page]);
    OwnedOnly(s, s');
    Unused(s, f);
    ViewElsewhere(s, f, page);
  }

  ghost function ZeroPage(flags: Flags): VPage {
    VPage(Filled(0), flags.r, flags.x, flags.u, flags.w || flags.cow)
  }

  /** Zeroed pages [lo, hi). */
  ghost function ZeroPages(lo: nat, hi: nat, flags: Flags): map<nat, VPage> {
    map u | u in Range(lo, hi) :: ZeroPage(flags)
  }

  ghost function EagerGrow(view: Views, p: nat, lo: nat, hi: nat, flags: Flags): Views
    requires p in view
  {
    view[p := view[p] + ZeroPages(lo, hi, flags)]
  }

  ghost function EagerShrink(view: Views, p: nat, lo: nat, hi: nat): Views
    requires p in view
  {
    view[p := view[p] - Range(lo, hi)]
  }

  lemma {:induction false} GrowOne(view: Views, p: nat, lo: nat, hi: nat, flags: Flags)
    requires p in view && lo <= hi
    ensures PutPage(EagerGrow(view, p, lo, hi, flags), p, hi, ZeroPage(flags)) == EagerGrow(view, p, lo, hi + 1, flags)
    ensures EagerGrow(view, p, lo, lo, flags) == view
  {
    RangeGrows(lo, hi);
    var m, m' := view[p] + ZeroPages(lo, hi, flags), view[p] + ZeroPages(lo, hi + 1, flags);
    assert m + map[hi := ZeroPage(flags)] == m';
    assert view[p := m][p := m'] == view[p := m'];
    assert Range(lo, lo) == {};
    assert view[p] + ZeroPages(lo, lo, flags) == view[p];
  }

  /** Unmapping what was just mapped restores the memory. */
  lemma {:induction false} GrowUndone(view: Views, p: nat, lo: nat, hi: nat, flags: Flags)
    requires p in view && lo <= hi && view[p].Keys !! Range(lo, hi)
    ensures EagerShrink(EagerGrow(view, p, lo, hi, flags), p, lo, hi) == view
  {
    assert view[p] + ZeroPages(lo, hi, flags) - Range(lo, hi) == view[p];
  }

  lemma {:induction false} UndoneKeys(view: Views, p: nat, lo: nat, hi: nat, flags: Flags)
    requires p in view && view[p].Keys == Range(0, lo) && lo <= hi
    ensures EagerShrink(EagerGrow(view, p, lo, hi, flags), p, lo, hi) == view
    ensures Range(0, hi) - Range(lo, hi) == Range(0, lo)
  {
    InRange(0, lo);
    InRange(0, hi);
    InRange(lo, hi);
    GrowUndone(view, p, lo, hi, flags);
  }

  // ---------------------------------------------------------------- PTE flags and copying

  ghost function SetFlags(proc: Proc, v: nat, flags: Flags): Proc
    requires v in proc.pt
  {
    proc.(pt := proc.pt[v := proc.pt[v].(flags := flags)])
  }

  /** The two flag words allow the process the same things. */
  ghost predicate SameRights(a: Flags, b: Flags) {
    a.r == b.r && a.x == b.x && a.u == b.u && (a.w || a.cow) == (b.w || b.cow)
  }

  lemma {:induction false} FlagsKeep(s: Vm, p: nat, v: nat, flags: Flags)
    requires Conserved(s) && p in s.procs && v in s.procs[p].pt && SameRights(flags, s.procs[p].pt[v].flags)
    ensures var s' := s.(procs := s.procs[p := SetFlags(s.procs[p], v, flags)]);
            && Conserved(s') && View(s') == View(s)
            && (forall g: nat :: Users(s'.procs, g) == Users(s.procs, g))
  {
    hide Users, Conserved;
    var proc' := SetFlags(s.procs[p], v, flags);
    assert SameFrames(s.procs[p], proc');
    SameKeeps(s, p, proc');
    FlagsView(s, p, v, flags);
  }

  lemma {:induction false} FlagsView(s: Vm, p: nat, v: nat, flags: Flags)
    requires p in s.procs && v in s.procs[p].pt && SameRights(flags, s.procs[p].pt[v].flags)
    ensures View(s.(procs := s.procs[p := SetFlags(s.procs[p], v, flags)])) == View(s)
  {
    var proc' := SetFlags(s.procs[p], v, flags);
    ViewProc(s, p, proc');
    assert Space(s.mem, proc') == Space(s.mem, s.procs[p]);
    ViewOf(s);
    hide View;
    assert View(s)[p := View(s)[p]] == View(s);
  }

  /** Setting PTE_W is harmless on a frame of one's own, clearing it always. */
  lemma {:induction false} FlagsExclusive(procs: map<nat, Proc>, p: nat, v: nat, flags: Flags)
    requires p in procs && v in procs[p].pt
    requires flags.w ==> Users(procs, procs[p].pt[v].frame) == {p}
    requires forall g: nat :: Users(procs[p := SetFlags(procs[p], v, flags)], g) == Users(procs, g)
    ensures StillExclusive(procs, procs[p := SetFlags(procs[p], v, flags)])
  {
    hide Users;
    var procs' := procs[p := SetFlags(procs[p], v, flags)];
    forall q, u | q in procs' && ExclusiveFor(procs, q) && !procs'[q].dead && u in procs'[q].pt
                  && procs'[q].pt[u].flags.w
      ensures Users(procs', procs'[q].pt[u].frame) == {q}
    {
      if q != p || u != v { assert procs[q].pt[u] == procs'[q].pt[u]; }
      assert Users(procs', procs'[q].pt[u].frame) == Users(procs, procs'[q].pt[u].frame);
    }
  }

  /** Replacing page v of p by a private copy of it, which lies in frame g. */
  lemma {:induction false} CopyKeeps(s: Vm, p: nat, v: nat, g: nat, flags: Flags)
    requires Conserved(s) && p in s.procs && v in s.procs[p].pt && SameRights(flags, s.procs[p].pt[v].flags)
    requires g in s.held && g < |s.mem| && s.procs[p].pt[v].frame < |s.mem| == |s.refs|
    requires s.mem[g] == s.mem[s.procs[p].pt[v].frame]
    ensures var f := s.procs[p].pt[v].frame;
            var s' := Kfree(s, f).(procs := s.procs[p := Mapped(s.procs[p], v, Pte(g, flags))], held := s.held - {g});
            && Conserved(s') && View(s') == View(s) && StillExclusive(s.procs, s'.procs)
            && Users(s'.procs, g) == {p}
  {
    hide Conserved, StillExclusive, View, Users, Uses, ProcOk;
    var proc := s.procs[p];
    var f := proc.pt[v].frame;
    KnownHeld(s, g);
    NotOwnFrame(proc, v, g);
    UnmapKeeps(s, p, v);
    var s1 := Kfree(s, f).(procs := s.procs[p := Unmapped(proc, v)]);
    MapHeldKeeps(s1, p, v, Pte(g, flags));
    var proc1 := Mapped(Unmapped(proc, v), v, Pte(g, flags));
    assert (proc.pt - {v})[v := Pte(g, flags)] == proc.pt[v := Pte(g, flags)];
    assert s.procs[p := Unmapped(proc, v)][p := proc1] == s.procs[p := proc1];
    ViewOf(s);
    PutBack(View(s), p, v, Seen(s1.mem, Pte(g, flags)));
    CopyUsers(s, p, v, g, flags);
    StillTwice(s.procs, s1.procs, s.procs[p := proc1]);
  }

  lemma {:induction false} NotOwnFrame(proc: Proc, v: nat, g: nat)
    requires v in proc.pt && !Uses(proc, g)
    ensures proc.pt[v].frame != g
  {
    assert !Maps(proc, g);
  }

  lemma {:induction false} PutBack(view: Views, p: nat, v: nat, vp: VPage)
    requires p in view && v in view[p] && view[p][v] == vp
    ensures PutPage(view[p := view[p] - {v}], p, v, vp) == view
  {
    assert view[p] - {v} + map[v := vp] == view[p];
  }

  lemma {:induction false} StillTwice(a: map<nat, Proc>, b: map<nat, Proc>, c: map<nat, Proc>)
    requires StillExclusive(a, b) && StillExclusive(b, c) && a.Keys == b.Keys
    ensures StillExclusive(a, c)
  {
    hide ExclusiveFor;
  }

  lemma {:induction false} CopyUsers(s: Vm, p: nat, v: nat, g: nat, flags: Flags)
    requires p in s.procs && Users(s.procs, g) == {}
    ensures Users(s.procs[p := Mapped(s.procs[p], v, Pte(g, flags))], g) == {p}
  {
    var proc' := Mapped(s.procs[p], v, Pte(g, flags));
    assert v in proc'.pt && proc'.pt[v].frame == g;
    assert Maps(proc', g);
    UsersUpdate(s.procs, p, proc', g);
  }

  // ---------------------------------------------------------------- fork

  /** The pages below i of an address space. */
  ghost function Below(m: map<nat, VPage>, i: nat): map<nat, VPage> {
    map u | u in m && u < i :: m[u]
  }

  /** The child's PTEs so far name the same frames as the parent's. */
  ghost predicate Mirrors(child: Proc, parent: Proc) {
    forall u :: u in child.pt ==> u in parent.pt && child.pt[u].frame == parent.pt[u].frame
  }

  lemma {:induction false} ChildLacksFrame(s: Vm, p: nat, c: nat, v: nat)
    requires Conserved(s) && p in s.procs && c in s.procs && p != c
    requires v in s.procs[p].pt && v !in s.procs[c].pt && Mirrors(s.procs[c], s.procs[p])
    ensures var f := s.procs[p].pt[v].frame;
            && f < |s.mem| == |s.refs| && f !in s.held && p in Users(s.procs, f)
            && !Uses(s.procs[c], f) && forall q :: q in s.procs ==> f !in s.procs[q].tables
  {
    var f := s.procs[p].pt[v].frame;
    assert ProcOk(s.procs[p], |s.mem|);
    assert Maps(s.procs[p], f) && p in Users(s.procs, f);
    forall q | q in s.procs
      ensures f !in s.procs[q].tables
    {
      assert Users(s.procs, f) != {q} || q == p;
    }
    forall u | u in s.procs[c].pt
      ensures s.procs[c].pt[u].frame != f
    {
      assert u != v && s.procs[p].pt[u].frame == s.procs[c].pt[u].frame;
    }
  }

  /** One page of uvmcopy: the child maps the parent's frame, and the count goes up. */
  lemma {:induction false} SharePage(s: Vm, p: nat, c: nat, v: nat, flags: Flags)
    requires Inv(s) && p in s.procs && c in s.procs && p != c
    requires v in s.procs[p].pt && v !in s.procs[c].pt && Mirrors(s.procs[c], s.procs[p])
    requires !flags.w && !s.procs[p].pt[v].flags.w
    ensures s.procs[p].pt[v].frame < |s.mem| == |s.refs|
    ensures var pte := Pte(s.procs[p].pt[v].frame, flags);
            var s' := IncreaseRefer(s, pte.frame).(procs := s.procs[c := Mapped(s.procs[c], v, pte)]);
            Inv(s') && View(s') == PutPage(View(s), c, v, Seen(s.mem, pte))
  {
    hide Conserved, Users, Uses, View, TakesOn;
    var f := s.procs[p].pt[v].frame;
    var pte := Pte(f, flags);
    var child := s.procs[c];
    ChildLacksFrame(s, p, c, v);
    Known(s, c);
    MappedTakesOn(child, v, pte, |s.mem|);
    ShareKeeps(s, c, Mapped(child, v, pte), f);
    NoWriter(s, p, v);
    ShareStill(s, c, v, pte);
    ViewProc(s, c, Mapped(child, v, pte));
    SpaceMapped(s.mem, child, v, pte);
    ViewOf(s);
    SameView(s.(procs := s.procs[c := Mapped(child, v, pte)]),
        IncreaseRefer(s, f).(procs := s.procs[c := Mapped(child, v, pte)]));
  }

  lemma {:induction false} NoWriter(s: Vm, p: nat, v: nat)
    requires Inv(s) && p in s.procs && v in s.procs[p].pt && !s.procs[p].pt[v].flags.w
    ensures forall q, u :: q in s.procs && u in s.procs[q].pt && s.procs[q].pt[u].frame == s.procs[p].pt[v].frame ==>
              s.procs[q].dead || !s.procs[q].pt[u].flags.w
  {
    var f := s.procs[p].pt[v].frame;
    assert Maps(s.procs[p], f) && p in Users(s.procs, f);
    forall q, u | q in s.procs && u in s.procs[q].pt && s.procs[q].pt[u].frame == f
      ensures s.procs[q].dead || !s.procs[q].pt[u].flags.w
    {
      assert ExclusiveFor(s.procs, q);
      assert ProcOk(s.procs[p], |s.mem|);
    }
  }

  lemma {:induction false} ShareStill(s: Vm, c: nat, v: nat, pte: Pte)
    requires Exclusive(s.procs) && c in s.procs && v !in s.procs[c].pt && !pte.flags.w
    requires TakesOn(s.procs[c], Mapped(s.procs[c], v, pte), pte.frame)
    requires forall q, u :: q in s.procs && u in s.procs[q].pt && s.procs[q].pt[u].frame == pte.frame ==>
               s.procs[q].dead || !s.procs[q].pt[u].flags.w
    ensures Exclusive(s.procs[c := Mapped(s.procs[c], v, pte)])
  {
    hide Users;
    ShareExclusive(s, c, Mapped(s.procs[c], v, pte), pte.frame);
    hide ExclusiveFor;
  }

  lemma {:induction false} Emptied<T>(m: map<nat, T>, i: nat)
    requires m.Keys <= Range(0, i)
    ensures m - Range(0, i) == map[]
  {
  }

  lemma {:induction false} BelowGrows(view: Views, p: nat, c: nat, i: nat)
    requires p in view && i in view[p]
    ensures PutPage(view[c := Below(view[p], i)], c, i, view[p][i]) == view[c := Below(view[p], i + 1)]
  {
    var m, m' := Below(view[p], i), Below(view[p], i + 1);
    assert m + map[i := view[p][i]] == m';
    assert view[c := m][c := m'] == view[c := m'];
  }

  lemma {:induction false} BelowKeys(m: map<nat, VPage>, i: nat, n: nat)
    requires m.Keys == Range(0, n) && i <= n
    ensures Below(m, i).Keys == Range(0, i) && Below(m, n) == m && Below(m, 0) == map[]
  {
    InRange(0, n);
    InRange(0, i);
  }

  lemma {:induction false} MirrorsSame(child: Proc, parent: Proc, parent': Proc)
    requires Mirrors(child, parent) && SameFrames(parent, parent')
    ensures Mirrors(child, parent')
  {
  }

  lemma {:induction false} MirrorsSamePages(child: Proc, child': Proc, parent: Proc)
    requires Mirrors(child, parent) && child'.pt == child.pt
    ensures Mirrors(child', parent)
  {
  }

  lemma {:induction false} MirrorsMapped(child: Proc, parent: Proc, v: nat, pte: Pte)
    requires Mirrors(child, parent) && v in parent.pt && parent.pt[v].frame == pte.frame
    ensures Mirrors(Mapped(child, v, pte), parent)
  {
  }

  lemma {:induction false} EmptyMirrors(child: Proc, parent: Proc)
    requires child.pt == map[]
    ensures Mirrors(child, parent)
  {
  }

  ghost predicate OnlyChanges(procs: map<nat, Proc>, procs': map<nat, Proc>, ps: set<nat>) {
    procs'.Keys == procs.Keys && forall q :: q in procs && q !in ps ==> procs'[q] == procs[q]
  }

  lemma {:induction false} ChangedOne(a: map<nat, Proc>, b: map<nat, Proc>, p: nat, c: nat, proc: Proc)
    requires OnlyChanges(a, b, {p, c}) && c in b
    ensures OnlyChanges(a, b[c := proc], {p, c})
  {
  }

  lemma {:induction false} OtherKept(a: map<nat, Proc>, b: map<nat, Proc>, p: nat, c: nat)
    requires OnlyChanges(a, b, {p}) && c in a && p in a && c != p
    ensures p in b && c in b && b[c] == a[c]
  {
  }

  lemma {:induction false} ChangesMore(a: map<nat, Proc>, b: map<nat, Proc>, p: nat, c: nat)
    requires OnlyChanges(a, b, {p})
    ensures OnlyChanges(a, b, {p, c})
  {
  }

  lemma {:induction false} UpdatedTwice<T>(m: map<nat, T>, c: nat, x: T, y: T)
    ensures m[c := x][c := y] == m[c := y]
  {
  }

  // ---------------------------------------------------------------- writing bytes

  /** Page v after the bytes are written to virtual addresses va and up. */
  ghost function Blend(data: Page, v: nat, va: nat, bytes: seq<Byte>): Page {
    seq(PGSIZE, o requires 0 <= o < PGSIZE =>
      if va <= PageStart(v) + o < va + |bytes| then bytes[PageStart(v) + o - va] else data[o])
  }

  /** The eager model's write: byte by byte, to p's own pages. */
  ghost function EagerCopy(view: Views, p: nat, va: nat, bytes: seq<Byte>): Views
    requires p in view
  {
    view[p := map v | v in view[p] :: view[p][v].(data := Blend(view[p][v].data, v, va, bytes))]
  }

  /** memmove into a page. */
  function Splice(data: Page, off: nat, bytes: seq<Byte>): Page
    requires off + |bytes| <= PGSIZE
  {
    data[..off] + bytes + data[off + |bytes|..]
  }

  lemma {:induction false} BlendStep(data: Page, u: nat, va: nat, src: seq<Byte>, k: nat, n: nat, v: nat, off: nat)
    requires k + n <= |src| && PageStart(v) + off == va + k && off + n <= PGSIZE
    ensures Blend(data, u, va, src[..k + n]) ==
            if u == v then Splice(Blend(data, u, va, src[..k]), off, src[k..k + n]) else Blend(data, u, va, src[..k])
  {
    assert u < v ==> PageStart(u) + PGSIZE <= PageStart(v);
    assert v < u ==> PageStart(v) + PGSIZE <= PageStart(u);
  }

  lemma {:induction false} BlendNone(data: Page, u: nat, va: nat)
    ensures Blend(data, u, va, []) == data
  {
  }

  lemma {:induction false} CopyNone(view: Views, p: nat, va: nat)
    requires p in view
    ensures EagerCopy(view, p, va, []) == view
  {
    hide Blend;
    forall u | u in view[p]
      ensures view[p][u].(data := Blend(view[p][u].data, u, va, [])) == view[p][u]
    {
      BlendNone(view[p][u].data, u, va);
    }
    assert EagerCopy(view, p, va, [])[p] == view[p];
  }

  lemma {:induction false} CopyStep(view: Views, p: nat, va: nat, src: seq<Byte>, k: nat, n: nat, v: nat, off: nat)
    requires p in view && v in view[p]
    requires k + n <= |src| && PageStart(v) + off == va + k && off + n <= PGSIZE
    ensures var view1 := EagerCopy(view, p, va, src[..k]);
            SetPage(view1, p, v, Splice(view1[p][v].data, off, src[k..k + n])) == EagerCopy(view, p, va, src[..k + n])
  {
    hide Blend, Splice;
    var view1: Views := EagerCopy(view, p, va, src[..k]);
    var view2: Views := EagerCopy(view, p, va, src[..k + n]);
    var page := Splice(view1[p][v].data, off, src[k..k + n]);
    forall u | u in view[p]
      ensures view2[p][u] == SetPage(view1, p, v, page)[p][u]
    {
      BlendStep(view[p][u].data, u, va, src, k, n, v, off);
    }
    assert view2[p] == SetPage(view1, p, v, page)[p];
  }

  ghost predicate AllSized(procs: map<nat, Proc>) {
    forall q :: q in procs ==> Sized(procs[q])
  }

  /** Everything the kernel keeps between two operations. */
  ghost predicate Good(s: Vm) {
    Inv(s) && AllSized(s.procs)
  }

  /** The hardware and the eager kernel would let p store at va. */
  ghost predicate MayStore(view: Views, p: nat, va: nat) {
    && p in view && PageOf(va) in view[p]
    && view[p][PageOf(va)].u && view[p][PageOf(va)].writable
  }

  lemma {:induction false} StillAll(procs: map<nat, Proc>, procs': map<nat, Proc>)
    requires Exclusive(procs) && StillExclusive(procs, procs')
    ensures Exclusive(procs')
  {
    hide ExclusiveFor;
  }

  lemma {:induction false} OthersExclusive(procs: map<nat, Proc>, procs1: map<nat, Proc>, p: nat)
    requires Exclusive(procs) && OnlyChanges(procs, procs1, {p})
    requires forall g: nat :: Users(procs1, g) == Users(procs, g)
    ensures forall q :: q in procs1 && q != p ==> ExclusiveFor(procs1, q)
  {
    hide Users;
    forall q | q in procs1 && q != p
      ensures ExclusiveFor(procs1, q)
    {
      assert procs1[q] == procs[q] && ExclusiveFor(procs, q);
    }
  }

  /** What the kernel knows of a process beside its memory. */
  datatype Slot = Slot(sz: nat, dead: bool)

  ghost function Sizes(procs: map<nat, Proc>): map<nat, Slot> {
    map p | p in procs :: Slot(procs[p].sz, procs[p].dead)
  }

  /** A process that has exited: it is still there, and so is its memory. */
  lemma {:induction false} DeadKeeps(s: Vm, p: nat)
    requires Conserved(s) && AllSized(s.procs) && p in s.procs
    requires forall q :: q in s.procs && q != p ==> ExclusiveFor(s.procs, q)
    ensures var s' := s.(procs := s.procs[p := s.procs[p].(dead := true)]);
            && Good(s') && View(s') == View(s)
            && Sizes(s'.procs) == Sizes(s.procs)[p := Slot(s.procs[p].sz, true)]
  {
    hide Users, Uses, View, Conserved, Range;
    var proc' := s.procs[p].(dead := true);
    var procs' := s.procs[p := proc'];
    assert SameFrames(s.procs[p], proc');
    SameKeeps(s, p, proc');
    ViewProc(s, p, proc');
    assert Space(s.mem, proc') == Space(s.mem, s.procs[p]);
    ViewOf(s);
    assert View(s)[p := View(s)[p]] == View(s);
    forall q | q in procs'
      ensures ExclusiveFor(procs', q)
    {
      if q != p { assert ExclusiveFor(s.procs, q); }
    }
  }

  lemma {:induction false} SizeKeeps(s: Vm, p: nat, sz: nat)
    requires Inv(s) && p in s.procs
    ensures var s' := s.(procs := s.procs[p := s.procs[p].(sz := sz)]); Inv(s') && View(s') == View(s)
  {
    hide Users, Uses, View, Conserved, Exclusive;
    var proc' := s.procs[p].(sz := sz);
    assert SameFrames(s.procs[p], proc');
    SameKeeps(s, p, proc');
    ViewProc(s, p, proc');
    assert Space(s.mem, proc') == Space(s.mem, s.procs[p]);
    ViewOf(s);
    assert View(s)[p := View(s)[p]] == View(s);
    SizeExclusive(s.procs, p, sz);
  }

  lemma {:induction false} SizeExclusive(procs: map<nat, Proc>, p: nat, sz: nat)
    requires Exclusive(procs) && p in procs
    requires forall g: nat :: Users(procs[p := procs[p].(sz := sz)], g) == Users(procs, g)
    ensures Exclusive(procs[p := procs[p].(sz := sz)])
  {
    hide Users;
    var procs' := procs[p := procs[p].(sz := sz)];
    forall q, u | q in procs' && !procs'[q].dead && u in procs'[q].pt && procs'[q].pt[u].flags.w
      ensures Users(procs', procs'[q].pt[u].frame) == {q}
    {
      assert ExclusiveFor(procs, q) && procs[q].pt[u] == procs'[q].pt[u];
      assert Users(procs', procs'[q].pt[u].frame) == Users(procs, procs'[q].pt[u].frame);
    }
  }

  /** Sizes and page ranges after a fork that went through, or did not. */
  lemma {:induction false} ForkSizes(was: map<nat, Proc>, now: map<nat, Proc>, p: nat, c: nat)
    requires AllSized(was) && p in was && c !in was && was.Keys <= now.Keys <= was.Keys + {c}
    requires forall q :: q in was && q != p ==> now[q] == was[q]
    requires SameSlot(was[p], now[p]) && now[p].pt.Keys == was[p].pt.Keys
    requires c in now ==> now[c].sz == was[p].sz && !now[c].dead && now[c].pt.Keys == was[p].pt.Keys
    ensures AllSized(now) && Sizes(now) == if c in now then Sizes(was)[c := Slot(was[p].sz, false)] else Sizes(was)
  {
    hide Range;
  }

  lemma {:induction false} FirstView(view: Views, p: nat, flags: Flags, code: seq<Byte>)
    requires |code| < PGSIZE && flags == Flags(true, true, true, true, false)
    ensures var page := Splice(Filled(0), 0, code);
            var view1 := PutPage(view[p := map[]], p, 0, ZeroPage(flags));
            && p in view1 && 0 in view1[p] && view1[p][0].data == Filled(0)
            && SetPage(view1, p, 0, page) == view[p := map[0 := VPage(page, true, true, true, true)]]
  {
    hide Splice;
    var page := Splice(Filled(0), 0, code);
    var view1 := PutPage(view[p := map[]], p, 0, ZeroPage(flags));
    assert SetPage(view1, p, 0, page)[p] == map[0 := VPage(page, true, true, true, true)];
  }

  lemma {:induction false} FirstSizes(was: map<nat, Proc>, p: nat, proc: Proc)
    requires AllSized(was) && p !in was && proc.sz == PGSIZE && !proc.dead && proc.pt.Keys == {0}
    ensures AllSized(was[p := proc]) && Sizes(was[p := proc]) == Sizes(was)[p := Slot(PGSIZE, false)]
  {
    assert PagesOf(PGSIZE) == 1;
    InRange(0, 1);
    assert proc.pt.Keys == Range(0, 1);
    hide Range;
  }

  lemma {:induction false} SizedOne(procs: map<nat, Proc>, p: nat)
    requires AllSized(procs) && p in procs
    ensures Sized(procs[p])
  {
  }

  lemma {:induction false} NoTrace(view: Views, c: nat)
    requires c !in view
    ensures view[c := map[]] - {c} == view
  {
  }

  /** Sizes and page ranges when only PTEs of p have changed. */
  lemma {:induction false} SameSizes(was: map<nat, Proc>, now: map<nat, Proc>, p: nat)
    requires AllSized(was) && p in was && OnlyChanges(was, now, {p})
    requires SameSlot(was[p], now[p]) && now[p].pt.Keys == was[p].pt.Keys
    ensures AllSized(now) && Sizes(now) == Sizes(was)
  {
    hide Range;
  }

  lemma {:induction false} ReapSizes(procs: map<nat, Proc>, p: nat)
    requires AllSized(procs)
    ensures AllSized(procs - {p}) && Sizes(procs - {p}) == Sizes(procs) - {p}
  {
    hide Range;
  }

  lemma {:induction false} OneChange(procs: map<nat, Proc>, p: nat, proc: Proc)
    requires p in procs
    ensures OnlyChanges(procs, procs[p := proc], {p})
  {
  }

  /** What decides whether a store by p at va survives; everything on the right is known beforehand. */
  ghost predicate StoreSurvives(s: Vm, p: nat, va: nat) {
    && p in s.procs
    && var v := PageOf(va);
       var proc := s.procs[p];
       && v in proc.pt && proc.pt[v].flags.u
       && (proc.pt[v].flags.w
           || (proc.pt[v].flags.cow && va <= proc.sz
               && (s.free != [] || (proc.pt[v].frame < |s.refs| && s.refs[proc.pt[v].frame] == 1))))
  }

  lemma {:induction false} AloneIfWritable(s: Vm, p: nat, v: nat)
    requires Inv(s) && p in s.procs && !s.procs[p].dead && v in s.procs[p].pt && s.procs[p].pt[v].flags.w
    ensures Users(s.procs, s.procs[p].pt[v].frame) == {p}
  {
    assert ExclusiveFor(s.procs, p);
  }

  /** A page that the hardware lets a process write has a refer_count of 1. */
  lemma {:induction false} WritableCountOne(s: Vm, p: nat, v: nat)
    requires Good(s) && p in s.procs && !s.procs[p].dead && v in s.procs[p].pt && s.procs[p].pt[v].flags.w
    ensures s.procs[p].pt[v].frame < |s.refs| && s.refs[s.procs[p].pt[v].frame] == 1
  {
    hide Conserved, Exclusive, Users, AllSized;
    AloneIfWritable(s, p, v);
    AloneIfCountOne(s, p, v);
  }

  /** With no processes and every frame on the free list once, the counts are right. */
  lemma {:induction false} AllFree(s: Vm)
    requires s.procs == map[] && s.held == {} && s.refs == seq(|s.mem|, _ => 0)
    requires s.free == Downto(|s.mem|)
    ensures Good(s)
  {
    DowntoAll(|s.mem|);
    forall f | 0 <= f < |s.mem| ensures Users(s.procs, f) == {} {
    }
  }

  /** The free list that freerange builds: n - 1 first. */
  function Downto(n: nat): seq<nat> {
    if n == 0 then [] else [n - 1] + Downto(n - 1)
  }

  lemma {:induction false} DowntoAll(n: nat)
    ensures forall f: nat :: f in Downto(n) <==> f < n
    ensures forall i, j :: 0 <= i < j < |Downto(n)| ==> Downto(n)[i] != Downto(n)[j]
  {
    if n > 0 {
      var rest := Downto(n - 1);
      DowntoAll(n - 1);
      forall i, j | 0 <= i < j < |Downto(n)| ensures Downto(n)[i] != Downto(n)[j] {
        assert Downto(n)[j] == rest[j - 1] && rest[j - 1] in rest;
        if i > 0 { assert Downto(n)[i] == rest[i - 1]; }
      }
    }
  }

  /** copyout may write page v of p as it stands: it is COW and can be copied, or p's alone. */
  ghost predicate Writable(s: Vm, p: nat, v: nat) {
    && p in s.procs && v in s.procs[p].pt && s.procs[p].pt[v].frame < |s.refs|
    && (s.refs[s.procs[p].pt[v].frame] == 1 || (s.procs[p].pt[v].flags.cow && s.free != []))
  }

  /** walkaddr finds a user page. */
  predicate UserPage(procs: map<nat, Proc>, p: nat, v: nat) {
    p in procs && v in procs[p].pt && procs[p].pt[v].flags.u
  }

  /** What a caller of copyout can check beforehand, page by page up to the first that is no user page: a page
      that others share must be COW, and takes one of the free frames. */
  predicate Coverable(procs: map<nat, Proc>, refs: seq<nat>, frames: nat, p: nat, v: nat, end: nat)
    decreases if v < end then end - v else 0
  {
    v >= end || !UserPage(procs, p, v) ||
    (var pte := procs[p].pt[v];
     && pte.frame < |refs|
     && if refs[pte.frame] == 1 then Coverable(procs, refs, frames, p, v + 1, end)
        else pte.flags.cow && frames > 0 && Coverable(procs, refs, frames - 1, p, v + 1, end))
  }

  /** The page after the last one that len bytes from va on touch. */
  function EndPage(va: nat, len: nat): nat {
    if len == 0 then PageOf(va) else PageOf(va + len - 1) + 1
  }

  predicate CopyOutSafe(procs: map<nat, Proc>, refs: seq<nat>, frames: nat, p: nat, va: nat, len: nat) {
    Coverable(procs, refs, frames, p, PageOf(va), EndPage(va, len))
  }

  /** Only the pages from v on matter. */
  lemma {:induction false} CoverSame(procs: map<nat, Proc>, refs: seq<nat>, procs': map<nat, Proc>, refs': seq<nat>,
                                     frames: nat, p: nat, v: nat, end: nat)
    requires p in procs && p in procs' && |refs'| == |refs| && procs'[p].pt.Keys == procs[p].pt.Keys
    requires forall u :: u in procs[p].pt && u >= v ==>
               procs'[p].pt[u] == procs[p].pt[u]
                   && (procs[p].pt[u].frame < |refs| ==> refs'[procs[p].pt[u].frame] == refs[procs[p].pt[u].frame])
    ensures Coverable(procs', refs', frames, p, v, end) == Coverable(procs, refs, frames, p, v, end)
    decreases if v < end then end - v else 0
  {
    assert v in procs'[p].pt.Keys <==> v in procs[p].pt.Keys;
    if v < end && UserPage(procs, p, v) {
      CoverSame(procs, refs, procs', refs', frames, p, v + 1, end);
      if frames > 0 { CoverSame(procs, refs, procs', refs', frames - 1, p, v + 1, end); }
    }
  }

  lemma {:induction false} EagerPages(view: Views, p: nat, va: nat, bytes: seq<Byte>)
    requires p in view
    ensures p in EagerCopy(view, p, va, bytes) && EagerCopy(view, p, va, bytes)[p].Keys == view[p].Keys
    ensures EagerCopy(view, p, va, bytes).Keys == view.Keys
    ensures forall q :: q in view && q != p ==> EagerCopy(view, p, va, bytes)[q] == view[q]
  {
  }

  /** The bytes of a copy that fall into the page of va. */
  function ChunkLength(va: nat, rest: nat): (m: nat)
    requires rest > 0
    ensures 0 < m <= rest && OffsetOf(va) + m <= PGSIZE && PageStart(PageOf(va)) + OffsetOf(va) == va
    ensures m < rest ==> PageOf(va + m) == PageOf(va) + 1
  {
    var m := PGSIZE - OffsetOf(va);
    if m > rest then rest else m
  }

  /** Where the chunk that starts at byte i of a copy of len bytes lies. */
  lemma {:induction false} ChunkPages(va: nat, len: nat, i: nat)
    requires i < len
    ensures var m := ChunkLength(va + i, len - i);
            && PageOf(va + i) < EndPage(va, len)
            && (i + m < len ==> PageOf(va + (i + m)) == PageOf(va + i) + 1)
            && (i + m == len ==> EndPage(va, len) == PageOf(va + i) + 1)
  {
  }

  /** Other pages of p, and the counts of their frames, stay as they are. */
  ghost predicate OthersKept(s: Vm, s': Vm, p: nat, v: nat)
    requires p in s.procs && p in s'.procs
  {
    && |s'.refs| == |s.refs| && s'.procs[p].pt.Keys == s.procs[p].pt.Keys
    && forall u :: u in s.procs[p].pt && u != v ==>
         && s'.procs[p].pt[u] == s.procs[p].pt[u]
         && (s.procs[p].pt[u].frame < |s.refs| ==> s'.refs[s.procs[p].pt[u].frame] == s.refs[s.procs[p].pt[u].frame])
  }

  lemma {:induction false} CountRange(s: Vm, p: nat, v: nat)
    requires Conserved(s) && p in s.procs && v in s.procs[p].pt
    ensures s.procs[p].pt[v].frame < |s.refs| && 1 <= s.refs[s.procs[p].pt[v].frame] <= NPROC
  {
    var f := s.procs[p].pt[v].frame;
    assert ProcOk(s.procs[p], |s.mem|);
    assert Maps(s.procs[p], f) && p in Users(s.procs, f);
    UsersBound(s, f);
    assert f !in s.held;
    assert |Users(s.procs, f)| > 0;
  }

  lemma {:induction false} FreshFrame(procs: map<nat, Proc>, p: nat, v: nat, g: nat)
    requires p in procs && v in procs[p].pt && Users(procs, g) == {}
    ensures procs[p].pt[v].frame != g
  {
    assert Maps(procs[p], procs[p].pt[v].frame) && p in Users(procs, procs[p].pt[v].frame);
  }

  /** Moving page v of p from its frame to a fresh one does not concern its other pages. */
  lemma {:induction false} OthersCopied(s: Vm, s': Vm, p: nat, v: nat, g: nat)
    requires Conserved(s) && p in s.procs && v in s.procs[p].pt && p in s'.procs && g < |s.refs|
             && Users(s.procs, g) == {}
    requires v in s'.procs[p].pt && s'.procs[p].pt == s.procs[p].pt[v := s'.procs[p].pt[v]]
    requires var f := s.procs[p].pt[v].frame;
             f < |s.refs| && s.refs[f] > 0 && s'.refs == s.refs[g := 1][f := s.refs[f] - 1]
    ensures OthersKept(s, s', p, v)
  {
    forall u | u in s.procs[p].pt && u != v
      ensures s.procs[p].pt[u].frame != s.procs[p].pt[v].frame && s.procs[p].pt[u].frame != g
    {
      Apart(s, p, u, v);
      assert Maps(s.procs[p], s.procs[p].pt[u].frame) && p in Users(s.procs, s.procs[p].pt[u].frame);
    }
    hide Conserved, Users;
  }

  /** What one turn of copyout's loop does. */
  ghost predicate ChunkDone(s: Vm, s': Vm, p: nat, va: nat, bytes: seq<Byte>, ok: bool)
    requires OffsetOf(va) + |bytes| <= PGSIZE
  {
    var v := PageOf(va);
    && Conserved(s') && AllSized(s'.procs) && s'.held == s.held && Sizes(s'.procs) == Sizes(s.procs)
    && p in s.procs && p in s'.procs && p in View(s)
    && s'.procs == s.procs[p := s'.procs[p]] && OthersKept(s, s', p, v)
    && (!UserPage(s.procs, p, v) ==> !ok && s' == s)
    && (UserPage(s.procs, p, v) && Writable(s, p, v) ==>
          && ok && v in View(s)[p] && StillExclusive(s.procs, s'.procs)
          && |s'.free| == |s.free| - Copies(s, p, v)
          && View(s') == SetPage(View(s), p, v, Splice(View(s)[p][v].data, OffsetOf(va), bytes)))
  }

  /** Frames that writing page v of p takes. */
  ghost function Copies(s: Vm, p: nat, v: nat): nat
    requires p in s.procs && v in s.procs[p].pt && s.procs[p].pt[v].frame < |s.refs|
  {
    if s.refs[s.procs[p].pt[v].frame] == 1 then 0 else 1
  }

  /** And what it does to a user page it should not write: without memory for the copy of a COW page it
      gives up, leaving W set; a page that is not COW it writes in place, whoever shares it. */
  ghost predicate ChunkUnsafe(s: Vm, s': Vm, p: nat, va: nat, bytes: seq<Byte>, ok: bool)
    requires OffsetOf(va) + |bytes| <= PGSIZE
  {
    var v := PageOf(va);
    UserPage(s.procs, p, v) && !Writable(s, p, v) ==>
      var pte := s.procs[p].pt[v];
      var proc' := SetFlags(s.procs[p], v, pte.flags.(w := true));
      if pte.flags.cow then !ok && View(s') == View(s) && s'.procs == s.procs[p := proc']
      else
        && ok && pte.frame < |s.mem|
        && s' == s.(mem := s.mem[pte.frame := Splice(s.mem[pte.frame], OffsetOf(va), bytes)])
  }

  lemma {:induction false} ChunkKeeps(s: Vm, s': Vm, p: nat, va: nat, bytes: seq<Byte>, ok: bool)
    requires Chunk(s, s', p, va, bytes, ok)
    ensures Conserved(s') && AllSized(s'.procs) && p in s'.procs
  {
    hide Conserved, AllSized, View;
  }

  ghost predicate Chunk(s: Vm, s': Vm, p: nat, va: nat, bytes: seq<Byte>, ok: bool) {
    OffsetOf(va) + |bytes| <= PGSIZE && ChunkDone(s, s', p, va, bytes, ok) && ChunkUnsafe(s, s', p, va, bytes, ok)
  }

  /** The states at the top of copyout's loop, the last one with i bytes copied. */
  ghost predicate CopyPart(states: seq<Vm>, p: nat, va: nat, src: seq<Byte>, i: nat)
    decreases |states|
  {
    var k := |states| - 1;
    if k <= 0 then k == 0 && i == 0
    else exists j :: CopyPart(states[..k], p, va, src, j) && Follows(states[k - 1], states[k], p, va, src, j, i)
  }

  /** The chunk from byte j to byte i goes through. */
  ghost predicate Follows(s: Vm, s': Vm, p: nat, va: nat, src: seq<Byte>, j: nat, i: nat) {
    j < |src| && i == j + ChunkLength(va + j, |src| - j) && Chunk(s, s', p, va + j, src[j..i], true)
  }

  /** The chunk at byte j does not. */
  ghost predicate Fails(s: Vm, s': Vm, p: nat, va: nat, src: seq<Byte>, j: nat) {
    j < |src| && Chunk(s, s', p, va + j, src[j..j + ChunkLength(va + j, |src| - j)], false)
  }

  /** A whole copyout, that ends with n bytes copied. */
  ghost predicate CopyRun(states: seq<Vm>, p: nat, va: nat, src: seq<Byte>, ok: bool, n: nat) {
    var k := |states| - 1;
    k >= 0 && if ok then n == |src| && CopyPart(states, p, va, src, n)
    else k > 0 && CopyPart(states[..k], p, va, src, n) && Fails(states[k - 1], states[k], p, va, src, n)
  }

  /** What the eager kernel makes of the same copyout: it writes to p's own pages up to the end or up to where p has no
      user page. */
  ghost predicate Agrees(s0: Vm, s: Vm, p: nat, va: nat, src: seq<Byte>, n: nat) {
    && Good(s) && s.held == s0.held && Sizes(s.procs) == Sizes(s0.procs) && p in View(s0) && n <= |src|
    && View(s) == EagerCopy(View(s0), p, va, src[..n])
    && (n == |src| || !UserPage(s0.procs, p, PageOf(va + n)))
  }

  /** copyout in step with the eager kernel after i bytes, seen from its start; and what is left to check. */
  ghost predicate Copying(s0: Vm, s: Vm, p: nat, va: nat, src: seq<Byte>, i: nat) {
    && i <= |src| && p in s0.procs && p in s.procs && p in View(s0)
    && Good(s) && s.held == s0.held && Sizes(s.procs) == Sizes(s0.procs)
    && s.procs[p].pt.Keys == s0.procs[p].pt.Keys
    && View(s) == EagerCopy(View(s0), p, va, src[..i])
    && (i < |src| ==> forall u :: u in s0.procs[p].pt && u >= PageOf(va + i) ==> s.procs[p].pt[u] == s0.procs[p].pt[u])
    && (CopyOutSafe(s0.procs, s0.refs, |s0.free|, p, va, |src|) <==>
          (i < |src| ==> Coverable(s.procs, s.refs, |s.free|, p, PageOf(va + i), EndPage(va, |src|))))
  }

  lemma {:induction false} CopyingStart(s: Vm, p: nat, va: nat, src: seq<Byte>)
    requires Good(s) && p in s.procs
    ensures Copying(s, s, p, va, src, 0)
  {
    ViewOf(s);
    CopyNone(View(s), p, va);
    assert src[..0] == [];
  }

  /** The page at which the copy stands is still as it was at the start. */
  lemma {:induction false} CopyingAt(s0: Vm, s: Vm, p: nat, va: nat, src: seq<Byte>, i: nat)
    requires Copying(s0, s, p, va, src, i) && i < |src|
    ensures UserPage(s.procs, p, PageOf(va + i)) <==> UserPage(s0.procs, p, PageOf(va + i))
  {
    hide Good, View, Sizes, EagerCopy, Coverable, CopyOutSafe;
    var v := PageOf(va + i);
    assert v in s.procs[p].pt.Keys <==> v in s0.procs[p].pt.Keys;
  }

  lemma {:induction false} CopyingStep(s0: Vm, s: Vm, s': Vm, p: nat, va: nat, src: seq<Byte>, i: nat, i': nat)
    requires Copying(s0, s, p, va, src, i) && Follows(s, s', p, va, src, i, i') && Writable(s, p, PageOf(va + i))
    ensures Copying(s0, s', p, va, src, i')
  {
    hide Follows, Users, Conserved, ExclusiveFor, View, Sizes, AllSized, EagerCopy, Coverable, CopyOutSafe, Writable,
        Copies, Splice;
    hide SetPage, OffsetOf, PageStart, PageOf, OthersKept, EndPage;
    FollowsFacts(s, s', p, va, src, i, i');
    FollowsWrite(s, s', p, va, src, i, i');
    CopyingPages(s0, s, s', p, va, src, i, i');
    CopyingCover(s0, s, s', p, va, src, i, i');
    StillAll(s.procs, s'.procs);
    EagerPages(View(s0), p, va, src[..i]);
    PageWhole(va + i);
    CopyStep(View(s0), p, va, src, i, i' - i, PageOf(va + i), OffsetOf(va + i));
    assert i + (i' - i) == i';
  }

  lemma {:induction false} PageWhole(va: nat)
    ensures PageStart(PageOf(va)) + OffsetOf(va) == va
  {
  }

  lemma {:induction false} CopyingPages(s0: Vm, s: Vm, s': Vm, p: nat, va: nat, src: seq<Byte>, i: nat, i': nat)
    requires Copying(s0, s, p, va, src, i) && Follows(s, s', p, va, src, i, i')
    ensures p in s0.procs && p in s'.procs && s'.procs[p].pt.Keys == s0.procs[p].pt.Keys
    ensures i' < |src| ==> forall u :: u in s0.procs[p].pt && u >= PageOf(va + i') ==>
              s'.procs[p].pt[u] == s0.procs[p].pt[u]
  {
    hide Follows, Good, Conserved, View, Sizes, AllSized, EagerCopy, Coverable, CopyOutSafe, Writable, OffsetOf,
        PageStart, PageOf;
    hide ChunkLength, EndPage;
    FollowsFacts(s, s', p, va, src, i, i');
    ChunkPages(va, |src|, i);
  }

  lemma {:induction false} CopyingCover(s0: Vm, s: Vm, s': Vm, p: nat, va: nat, src: seq<Byte>, i: nat, i': nat)
    requires Copying(s0, s, p, va, src, i) && Follows(s, s', p, va, src, i, i') && Writable(s, p, PageOf(va + i))
    ensures CopyOutSafe(s0.procs, s0.refs, |s0.free|, p, va, |src|) <==>
              (i' < |src| ==> Coverable(s'.procs, s'.refs, |s'.free|, p, PageOf(va + i'), EndPage(va, |src|)))
  {
    hide Follows, Good, Conserved, View, Sizes, AllSized, EagerCopy, CopyOutSafe, Splice, SetPage, StillExclusive;
    hide OffsetOf, PageStart, PageOf, ChunkLength, EndPage;
    FollowsFacts(s, s', p, va, src, i, i');
    FollowsWrite(s, s', p, va, src, i, i');
    ChunkPages(va, |src|, i);
    var v, end := PageOf(va + i), EndPage(va, |src|);
    CoverSame(s.procs, s.refs, s'.procs, s'.refs, |s'.free|, p, v + 1, end);
  }

  lemma {:induction false} FollowsFacts(s: Vm, s': Vm, p: nat, va: nat, src: seq<Byte>, i: nat, i': nat)
    requires Follows(s, s', p, va, src, i, i')
    ensures i < |src| && i' == i + ChunkLength(va + i, |src| - i) && i' <= |src| && p in s.procs && p in s'.procs
    ensures OthersKept(s, s', p, PageOf(va + i)) && s'.procs == s.procs[p := s'.procs[p]]
    ensures Conserved(s') && AllSized(s'.procs) && s'.held == s.held && Sizes(s'.procs) == Sizes(s.procs)
    ensures UserPage(s.procs, p, PageOf(va + i))
    ensures !Writable(s, p, PageOf(va + i)) ==> !s.procs[p].pt[PageOf(va + i)].flags.cow
  {
    hide Conserved, View, Sizes, AllSized, OthersKept, StillExclusive, Writable, Splice, SetPage, PageOf, OffsetOf;
  }

  lemma {:induction false} FollowsWrite(s: Vm, s': Vm, p: nat, va: nat, src: seq<Byte>, i: nat, i': nat)
    requires Follows(s, s', p, va, src, i, i') && Writable(s, p, PageOf(va + i))
    ensures p in View(s) && i <= i' <= |src| && OffsetOf(va + i) + (i' - i) <= PGSIZE
            && StillExclusive(s.procs, s'.procs)
    ensures var v := PageOf(va + i);
            && v in s.procs[p].pt && v in View(s)[p] && s.procs[p].pt[v].frame < |s.refs|
                && |s'.free| == |s.free| - Copies(s, p, v)
            && View(s') == SetPage(View(s), p, v, Splice(View(s)[p][v].data, OffsetOf(va + i), src[i..i']))
  {
    FollowsFacts(s, s', p, va, src, i, i');
    hide Conserved, View, Sizes, AllSized, OthersKept, StillExclusive, Splice, SetPage, PageOf, OffsetOf;
  }

  lemma {:induction false} FollowsLeak(s: Vm, s': Vm, p: nat, va: nat, src: seq<Byte>, i: nat, i': nat)
    requires Follows(s, s', p, va, src, i, i') && !Writable(s, p, PageOf(va + i))
    ensures i < i' <= |src| && OffsetOf(va + i) + (i' - i) <= PGSIZE
            && PageStart(PageOf(va + i)) + OffsetOf(va + i) == va + i
    ensures var v := PageOf(va + i);
            && p in s.procs && v in s.procs[p].pt && s.procs[p].pt[v].frame < |s.mem|
            && var f := s.procs[p].pt[v].frame;
                s' == s.(mem := s.mem[f := Splice(s.mem[f], OffsetOf(va + i), src[i..i'])])
  {
    FollowsFacts(s, s', p, va, src, i, i');
    hide Conserved, View, Sizes, AllSized, OthersKept, StillExclusive, Splice, SetPage, PageOf, OffsetOf, PageStart;
  }

  /** Every copyout that passes the check does what the eager kernel does. */
  lemma {:induction false} PartAgrees(states: seq<Vm>, p: nat, va: nat, src: seq<Byte>, i: nat)
    requires CopyPart(states, p, va, src, i) && Good(states[0]) && p in states[0].procs
    requires CopyOutSafe(states[0].procs, states[0].refs, |states[0].free|, p, va, |src|)
    ensures Copying(states[0], states[|states| - 1], p, va, src, i)
    decreases |states|
  {
    hide Good, Copying, Follows, CopyOutSafe, Conserved, AllSized, Sizes, OthersKept, PageOf, ChunkLength, Writable,
        UserPage;
    var k := |states| - 1;
    if k == 0 {
      CopyingStart(states[0], p, va, src);
    } else {
      var j :| CopyPart(states[..k], p, va, src, j) && Follows(states[k - 1], states[k], p, va, src, j, i);
      PartAgrees(states[..k], p, va, src, j);
      FollowsFacts(states[k - 1], states[k], p, va, src, j, i);
      SafeWritable(states[0], states[k - 1], p, va, src, j);
      CopyingStep(states[0], states[k - 1], states[k], p, va, src, j, i);
    }
  }

  lemma {:induction false} SafeWritable(s0: Vm, s: Vm, p: nat, va: nat, src: seq<Byte>, i: nat)
    requires Copying(s0, s, p, va, src, i) && i < |src| && CopyOutSafe(s0.procs, s0.refs, |s0.free|, p, va, |src|)
    ensures UserPage(s.procs, p, PageOf(va + i)) ==> Writable(s, p, PageOf(va + i))
  {
    ChunkPages(va, |src|, i);
    hide Good, View, Sizes, EagerCopy, CopyOutSafe, PageOf, ChunkLength, EndPage;
  }

  lemma {:induction false} SafeAgrees(states: seq<Vm>, p: nat, va: nat, src: seq<Byte>, ok: bool, n: nat)
    requires CopyRun(states, p, va, src, ok, n) && Good(states[0]) && p in states[0].procs
    requires CopyOutSafe(states[0].procs, states[0].refs, |states[0].free|, p, va, |src|)
    ensures Agrees(states[0], states[|states| - 1], p, va, src, n)
  {
    hide Good, View, Sizes, EagerCopy, Coverable, CopyOutSafe, CopyPart;
    var k := |states| - 1;
    if ok {
      PartAgrees(states, p, va, src, n);
    } else {
      PartAgrees(states[..k], p, va, src, n);
      SafeWritable(states[0], states[k - 1], p, va, src, n);
      FailsSame(states[k - 1], states[k], p, va, src, n);
      CopyingAt(states[0], states[k - 1], p, va, src, n);
    }
  }

  lemma {:induction false} FailsSame(s: Vm, s': Vm, p: nat, va: nat, src: seq<Byte>, j: nat)
    requires Fails(s, s', p, va, src, j)
    ensures j < |src| && (UserPage(s.procs, p, PageOf(va + j)) ==> !Writable(s, p, PageOf(va + j)))
    ensures !UserPage(s.procs, p, PageOf(va + j)) ==> s' == s
  {
    hide Conserved, View, Sizes, AllSized, OthersKept, StillExclusive, Writable, Splice, SetPage, PageOf, OffsetOf,
        ChunkLength;
  }

  // ---------------------------------------------------------------- copyout where it is not safe

  function Other(b: Byte): Byte {
    if b == 0 then 1 else 0
  }

  /** Bytes that differ from what p sees at va, one by one. */
  ghost function Contrary(pages: map<nat, VPage>, va: nat, len: nat): (src: seq<Byte>)
    ensures |src| == len && forall i :: 0 <= i < len ==> src[i] == ContraryAt(pages, va + i)
  {
    if len == 0 then [] else Contrary(pages, va, len - 1) + [ContraryAt(pages, va + len - 1)]
  }

  ghost function ContraryAt(pages: map<nat, VPage>, va: nat): Byte {
    if PageOf(va) in pages then Other(pages[PageOf(va)].data[OffsetOf(va)]) else 0
  }

  /** Page u of q has the frame of page v of p, and a byte there that is not what q had at the start. */
  ghost predicate Leak(s0: Vm, s: Vm, p: nat, q: nat, u: nat, v: nat, off: nat) {
    && Conserved(s) && p in s.procs && q in s.procs && q != p && u in s.procs[q].pt && v in s.procs[p].pt
    && s.procs[q].pt[u].frame == s.procs[p].pt[v].frame && off < PGSIZE
    && q in View(s0) && u in View(s0)[q] && q in View(s) && u in View(s)[q]
    && View(s)[q][u].data[off] != View(s0)[q][u].data[off]
  }

  ghost predicate Leaked(s0: Vm, s: Vm, p: nat, va: nat, src: seq<Byte>, i: nat) {
    exists q: nat, u: nat, v: nat, off: nat :: Leak(s0, s, p, q, u, v, off) && (i < |src| ==> v < PageOf(va + i))
  }

  lemma {:induction false} NotYet(view: Views, p: nat, va: nat, src: seq<Byte>, i: nat, v: nat, off: nat)
    requires p in view && v in view[p] && i <= |src| && PageStart(v) + off == va + i && off < PGSIZE
    ensures p in EagerCopy(view, p, va, src[..i]) && v in EagerCopy(view, p, va, src[..i])[p]
    ensures EagerCopy(view, p, va, src[..i])[p][v].data[off] == view[p][v].data[off]
  {
  }

  lemma {:induction false} SpliceAt(data: Page, off: nat, bytes: seq<Byte>)
    requires off + |bytes| <= PGSIZE && |bytes| > 0
    ensures Splice(data, off, bytes)[off] == bytes[0]
  {
  }

  /** Writing a shared page that is not COW: the other sharer sees the first byte change. */
  lemma {:induction false} LeakStarts(s0: Vm, s: Vm, s': Vm, p: nat, va: nat, src: seq<Byte>, i: nat, i': nat)
    requires Copying(s0, s, p, va, src, i) && Follows(s, s', p, va, src, i, i') && !Writable(s, p, PageOf(va + i))
    requires src == Contrary(View(s0)[p], va, |src|)
    ensures Leaked(s0, s', p, va, src, i')
  {
    hide Follows, Conserved, Exclusive, Users, Sizes, AllSized, Coverable, CopyOutSafe, OthersKept, EagerCopy, View,
        Splice, Contrary;
    hide PageOf, PageStart, OffsetOf, EndPage, ChunkLength, Writable;
    FollowsFacts(s, s', p, va, src, i, i');
    FollowsLeak(s, s', p, va, src, i, i');
    AloneIfCountOne(s, p, PageOf(va + i));
    ChunkPages(va, |src|, i);
    var v, off := PageOf(va + i), OffsetOf(va + i);
    CountsCover(s);
    WritableIs(s, p, v);
    var q, u := Sharer(s, p, v);
    LeakBytes(s, s', p, v, off, src[i..i'], q, u);
    EagerPages(View(s0), p, va, src[..i]);
    PageIn(s, p, v);
    NotYet(View(s0), p, va, src, i, v, off);
    ContraryIs(View(s0)[p], va, |src|, i);
    assert src[i..i'][0] == src[i];
    assert Leak(s0, s', p, q, u, v, off);
  }

  lemma {:induction false} WritableIs(s: Vm, p: nat, v: nat)
    requires UserPage(s.procs, p, v) && !Writable(s, p, v) && s.procs[p].pt[v].frame < |s.refs|
    ensures s.refs[s.procs[p].pt[v].frame] != 1
  {
  }

  lemma {:induction false} PageIn(s: Vm, p: nat, v: nat)
    requires p in s.procs && v in s.procs[p].pt
    ensures p in View(s) && v in View(s)[p]
  {
  }

  lemma {:induction false} ContraryIs(pages: map<nat, VPage>, va: nat, len: nat, i: nat)
    requires i < len && PageOf(va + i) in pages
    ensures Contrary(pages, va, len)[i] != pages[PageOf(va + i)].data[OffsetOf(va + i)]
  {
  }

  /** Both sharers see the frame, before and after. */
  lemma {:induction false} LeakBytes(s: Vm, s': Vm, p: nat, v: nat, off: nat, bytes: seq<Byte>, q: nat, u: nat)
    requires p in s.procs && v in s.procs[p].pt && q in s.procs && u in s.procs[q].pt
             && s.procs[q].pt[u].frame == s.procs[p].pt[v].frame
    requires s.procs[p].pt[v].frame < |s.mem| && off + |bytes| <= PGSIZE && |bytes| > 0
    requires var f := s.procs[p].pt[v].frame; s' == s.(mem := s.mem[f := Splice(s.mem[f], off, bytes)])
    ensures p in View(s) && v in View(s)[p] && q in View(s) && u in View(s)[q] && q in View(s') && u in View(s')[q]
    ensures View(s)[p][v].data == View(s)[q][u].data && View(s')[q][u].data[off] == bytes[0]
  {
    hide Splice;
    SpliceAt(s.mem[s.procs[p].pt[v].frame], off, bytes);
    ViewOf(s);
    ViewOf(s');
  }

  lemma {:induction false} CountsCover(s: Vm)
    requires Conserved(s)
    ensures |s.mem| == |s.refs|
  {
  }

  /** What has leaked stays so while other pages of p are written. */
  lemma {:induction false} LeakKept(s0: Vm, s: Vm, s': Vm, p: nat, va: nat, bytes: seq<Byte>, ok: bool, q: nat, u: nat,
      v: nat, off: nat)
    requires Leak(s0, s, p, q, u, v, off) && Chunk(s, s', p, va, bytes, ok) && PageOf(va) != v
    ensures Leak(s0, s', p, q, u, v, off)
  {
    hide Conserved, Users, Sizes, AllSized, View, Splice, StillExclusive, Writable, Copies, PageOf, PageStart, OffsetOf;
    var w := PageOf(va);
    if UserPage(s.procs, p, w) { Apart(s, p, v, w); }
    ViewOf(s);
    ViewOf(s');
  }

  lemma {:induction false} Apart(s: Vm, p: nat, v: nat, w: nat)
    requires Conserved(s) && p in s.procs && v in s.procs[p].pt && w in s.procs[p].pt && v != w
    ensures s.procs[p].pt[v].frame != s.procs[p].pt[w].frame
  {
    assert ProcOk(s.procs[p], |s.mem|);
  }

  /** With contrary bytes, copyout is in step with the eager kernel, or something has leaked. */
  lemma {:induction false} PartState(states: seq<Vm>, p: nat, va: nat, src: seq<Byte>, i: nat)
    requires CopyPart(states, p, va, src, i) && Good(states[0]) && p in states[0].procs && p in View(states[0])
    requires src == Contrary(View(states[0])[p], va, |src|)
    ensures Copying(states[0], states[|states| - 1], p, va, src, i)
            || Leaked(states[0], states[|states| - 1], p, va, src, i)
    decreases |states|
  {
    hide Good, View, Copying, Follows, Leaked, Contrary, Writable, PageOf;
    var k := |states| - 1;
    if k == 0 {
      CopyingStart(states[0], p, va, src);
    } else {
      var j :| CopyPart(states[..k], p, va, src, j) && Follows(states[k - 1], states[k], p, va, src, j, i);
      PartState(states[..k], p, va, src, j);
      if !Copying(states[0], states[k - 1], p, va, src, j) {
        StillLeaked(states[0], states[k - 1], states[k], p, va, src, j, i);
      } else if Writable(states[k - 1], p, PageOf(va + j)) {
        CopyingStep(states[0], states[k - 1], states[k], p, va, src, j, i);
      } else {
        LeakStarts(states[0], states[k - 1], states[k], p, va, src, j, i);
      }
    }
  }

  lemma {:induction false} StillLeaked(s0: Vm, s: Vm, s': Vm, p: nat, va: nat, src: seq<Byte>, j: nat, i: nat)
    requires Leaked(s0, s, p, va, src, j) && Follows(s, s', p, va, src, j, i)
    ensures Leaked(s0, s', p, va, src, i)
  {
    hide Leak, Chunk, PageOf, ChunkLength, EndPage;
    ChunkPages(va, |src|, j);
    var q: nat, u: nat, v: nat, off: nat :| Leak(s0, s, p, q, u, v, off) && v < PageOf(va + j);
    LeakKept(s0, s, s', p, va + j, src[j..i], true, q, u, v, off);
  }

  lemma {:induction false} LeakDisagrees(s0: Vm, s: Vm, p: nat, va: nat, src: seq<Byte>, n: nat, q: nat, u: nat, v: nat,
      off: nat)
    requires Leak(s0, s, p, q, u, v, off)
    ensures !Agrees(s0, s, p, va, src, n)
  {
    hide View, Good, Conserved, Sizes, EagerCopy;
    if Agrees(s0, s, p, va, src, n) { EagerPages(View(s0), p, va, src[..n]); }
  }

  /** And every copyout that does not pass it goes wrong for some bytes, whatever the run: it stops short at a
      user page, leaving it writable and shared, or it changes another process's memory. */
  lemma {:induction false} UnsafeDisagrees(s0: Vm, p: nat, va: nat, len: nat) returns (src: seq<Byte>)
    requires Good(s0) && p in s0.procs && !CopyOutSafe(s0.procs, s0.refs, |s0.free|, p, va, len)
    ensures |src| == len
    ensures forall states, ok, n :: CopyRun(states, p, va, src, ok, n) && |states| > 0 && states[0] == s0 ==>
              !Agrees(s0, states[|states| - 1], p, va, src, n)
  {
    hide Good, View, CopyRun, Agrees, CopyOutSafe, Contrary;
    ViewOf(s0);
    src := Contrary(View(s0)[p], va, len);
    forall states, ok, n | CopyRun(states, p, va, src, ok, n) && |states| > 0 && states[0] == s0
      ensures !Agrees(s0, states[|states| - 1], p, va, src, n)
    {
      RunDisagrees(states, p, va, src, ok, n);
    }
  }

  lemma {:induction false} RunDisagrees(states: seq<Vm>, p: nat, va: nat, src: seq<Byte>, ok: bool, n: nat)
    requires CopyRun(states, p, va, src, ok, n) && Good(states[0]) && p in states[0].procs && p in View(states[0])
    requires !CopyOutSafe(states[0].procs, states[0].refs, |states[0].free|, p, va, |src|)
    requires src == Contrary(View(states[0])[p], va, |src|)
    ensures !Agrees(states[0], states[|states| - 1], p, va, src, n)
  {
    hide Good, View, EagerCopy, CopyOutSafe, Contrary, CopyPart, Leak, Sizes, Chunk, PageOf, ChunkLength, EndPage;
    var k := |states| - 1;
    var s0 := states[0];
    if ok {
      PartState(states, p, va, src, n);
      if Leaked(s0, states[k], p, va, src, n) {
        var q: nat, u: nat, v: nat, off: nat :| Leak(s0, states[k], p, q, u, v, off);
        LeakDisagrees(s0, states[k], p, va, src, n, q, u, v, off);
      }
    } else {
      var s := states[k - 1];
      PartState(states[..k], p, va, src, n);
      if Copying(s0, s, p, va, src, n) {
        ChunkPages(va, |src|, n);
        CopyingAt(s0, s, p, va, src, n);
        assert UserPage(s0.procs, p, PageOf(va + n));
      } else {
        var q: nat, u: nat, v: nat, off: nat :| Leak(s0, s, p, q, u, v, off) && v < PageOf(va + n);
        var m := ChunkLength(va + n, |src| - n);
        LeakKept(s0, s, states[k], p, va + n, src[n..n + m], false, q, u, v, off);
        LeakDisagrees(s0, states[k], p, va, src, n, q, u, v, off);
      }
    }
  }

  // ---------------------------------------------------------------- the eager machine

  /** A kernel that copies every page at fork: the memory of each process, and its size. */
  datatype Eager = Eager(view: Views, sizes: map<nat, Slot>)

  ghost function EagerOf(s: Vm): Eager {
    Eager(View(s), Sizes(s.procs))
  }

  datatype Op =
    | OpFork(p: nat, c: nat)
    | OpStore(p: nat, va: nat, b: Byte)
    | OpCopyOut(p: nat, va: nat, src: seq<Byte>)
    | OpGrow(p: nat, n: int)
    | OpExit(p: nat)
    | OpReap(p: nat)      // by its parent's wait

  /** How an operation ended: done, refused for lack of memory or slots, the process killed, or
      copied up to some byte. */
  datatype Outcome = Done | Failed | Killed | Copied(n: nat)

  /** The trapframe, the root, and the two tables below it that map the trapframe and the trampoline. */
  const PROC_FRAMES: nat := 4
  const TRAMPOLINE: nat := 0x3ff_ffff

  function MidOf(v: nat): Dir {
    Mid(v / 262144)
  }

  function LowOf(v: nat): Dir {
    Low(v / 512)
  }

  function DirsOf(v: nat): set<Dir> {
    {MidOf(v), LowOf(v)}
  }

  /** How many tables walk has to add to reach page v. */
  function Need(dirs: set<Dir>, v: nat): nat {
    (if MidOf(v) in dirs then 0 else 1) + (if LowOf(v) in dirs then 0 else 1)
  }

  /** The frames that mapping pages v to hi takes: `page` for each, and the tables. */
  function Cost(dirs: set<Dir>, v: nat, hi: nat, page: nat): nat
    decreases if v < hi then hi - v else 0
  {
    if v >= hi then 0 else page + Need(dirs, v) + Cost(dirs + DirsOf(v), v + 1, hi, page)
  }

  lemma {:induction false} DirsApart(v: nat)
    ensures MidOf(v) != LowOf(v)
  {
  }

  lemma {:induction false} NeedsBoth(v: nat)
    ensures Need({}, v) == 2
  {
  }

  lemma {:induction false} NeedsLow()
    ensures Need(DirsOf(TRAMPOLINE), 0) == 2
  {
  }

  lemma {:induction false} CostStep(dirs: set<Dir>, v: nat, hi: nat, page: nat)
    requires v < hi
    ensures Cost(dirs, v, hi, page) == page + Need(dirs, v) + Cost(dirs + DirsOf(v), v + 1, hi, page)
  {
  }

  lemma {:induction false} CostEnd(dirs: set<Dir>, hi: nat, page: nat)
    ensures Cost(dirs, hi, hi, page) == 0
  {
  }

  /** There is a process slot, and there are frames for a child and the tables of its shared pages. */
  predicate CanFork(procs: map<nat, Proc>, frames: nat, p: nat) {
    p in procs && |procs| < NPROC && frames >= ForkCost(procs[p].sz)
  }

  function ForkCost(sz: nat): nat {
    PROC_FRAMES + Cost(DirsOf(TRAMPOLINE), 0, PagesOf(sz), 0)
  }

  /** There are frames for the pages added and their tables. */
  predicate CanGrow(procs: map<nat, Proc>, frames: nat, p: nat, n: nat) {
    p in procs && frames >= Cost(procs[p].dirs, PagesOf(procs[p].sz), PagesOf(procs[p].sz + n), 1)
  }

  /** Every operation but a copyout is safe; that one is if its pages pass the check. */
  predicate OpSafe(procs: map<nat, Proc>, refs: seq<nat>, frames: nat, op: Op) {
    op.OpCopyOut? && op.p in procs && !procs[op.p].dead ==> CopyOutSafe(procs, refs, frames, op.p, op.va, |op.src|)
  }

  /** Why an operation may end as it did: it fails only for want of memory, a slot or the process,
      kills only where a store does not survive, and copies to the end or to where no user page is. */
  ghost predicate OutcomeOk(s: Vm, op: Op, out: Outcome) {
    if op.p !in s.procs || s.procs[op.p].dead != op.OpReap? || (op.OpFork? && op.c in s.procs) then out.Failed?
    else match op
      case OpFork(p, c) => if CanFork(s.procs, |s.free|, p) then out.Done? else out.Failed?
      case OpStore(p, va, _) => if StoreSurvives(s, p, va) then out.Done? else out.Killed?
      case OpCopyOut(p, va, src) => out.Copied?
          && (out.n == |src| || (out.n < |src| && !UserPage(s.procs, p, PageOf(va + out.n))))
      case OpGrow(p, n) => if n < 0 || CanGrow(s.procs, |s.free|, p, n) then out.Done? else out.Failed?
      case OpExit(_) => out.Done?
      case OpReap(_) => out.Done?
  }

  /** One operation of the lazy kernel, and the eager one in step with it. */
  ghost predicate StepOk(s: Vm, s': Vm, op: Op, out: Outcome) {
    Good(s) && OutcomeOk(s, op, out) && EagerOf(s') == EagerStep(EagerOf(s), op, out)
  }

  const HeapFlags := Flags(true, true, false, true, false)   // PTE_R|PTE_U|PTE_W

  ghost function EagerSbrk(e: Eager, p: nat, n: int): Eager
    requires p in e.view && p in e.sizes
  {
    var sz := e.sizes[p].sz;
    if sz + n < 0 then e
    else if n >= 0 then
      Eager(EagerGrow(e.view, p, PagesOf(sz), PagesOf(sz + n), HeapFlags), e.sizes[p := Slot(sz + n, e.sizes[p].dead)])
    else
      Eager(EagerShrink(e.view, p, PagesOf(sz + n), PagesOf(sz)), e.sizes[p := Slot(sz + n, e.sizes[p].dead)])
  }

  ghost function EagerStep(e: Eager, op: Op, out: Outcome): Eager {
    if op.p !in e.view || op.p !in e.sizes || out.Failed? || (op.OpFork? && op.c in e.view) then e
    else match op
      case OpFork(p, c) => Eager(e.view[c := e.view[p]], e.sizes[c := Slot(e.sizes[p].sz, false)])
      case OpStore(p, va, b) =>
        if out.Killed? then e.(sizes := e.sizes[p := Slot(e.sizes[p].sz, true)])
        else Eager(EagerCopy(e.view, p, va, [b]), e.sizes)
      case OpCopyOut(p, va, src) =>
        if out.Copied? && out.n <= |src| then Eager(EagerCopy(e.view, p, va, src[..out.n]), e.sizes) else e
      case OpGrow(p, n) => EagerSbrk(e, p, n)
      case OpExit(p) => e.(sizes := e.sizes[p := Slot(e.sizes[p].sz, true)])
      case OpReap(p) => Eager(e.view - {p}, e.sizes - {p})
  }

  ghost function EagerRun(e: Eager, ops: seq<Op>, outs: seq<Outcome>): Eager
    requires |ops| == |outs|
  {
    if ops == [] then e
    else EagerStep(EagerRun(e, ops[..|ops| - 1], outs[..|outs| - 1]), ops[|ops| - 1], outs[|outs| - 1])
  }

  lemma {:induction false} SetSize(was: map<nat, Proc>, now: map<nat, Proc>, p: nat)
    requires AllSized(was) && p in was && OnlyChanges(was, now, {p}) && Sized(now[p])
    ensures AllSized(now) && Sizes(now) == Sizes(was)[p := Slot(now[p].sz, now[p].dead)]
  {
    hide Range;
  }

  lemma {:induction false} SizesOf(s: Vm, p: nat)
    requires p in s.procs
    ensures p in View(s) && p in Sizes(s.procs) && Sizes(s.procs)[p] == Slot(s.procs[p].sz, s.procs[p].dead)
  {
  }

  lemma {:induction false} ShrinkKeys(lo: nat, hi: nat)
    requires lo <= hi
    ensures Range(0, hi) - Range(lo, hi) == Range(0, lo)
    ensures forall u :: lo <= u < hi ==> u in Range(0, hi)
  {
    InRange(0, lo);
    InRange(0, hi);
    InRange(lo, hi);
  }

  lemma {:induction false} PagesMonotone(a: nat, b: nat)
    requires a <= b
    ensures PagesOf(a) <= PagesOf(b)
  {
  }

  // ---------------------------------------------------------------- the eager kernel, byte by byte

  /** What process p reads at an address, if it has a page there. */
  ghost function ByteAt(view: Views, p: nat, va: nat): Option<Byte> {
    if p in view && PageOf(va) in view[p] then Some(view[p][PageOf(va)].data[OffsetOf(va)]) else None
  }

  lemma {:induction false} PageSplit(va: nat)
    ensures PageStart(PageOf(va)) + OffsetOf(va) == va && PageOf(va) <= va
  {
  }

  /** copyout goes on for exactly the pages that the process may read as a user. */
  lemma {:induction false} UserPageIs(s: Vm, p: nat, v: nat)
    ensures UserPage(s.procs, p, v) <==> p in View(s) && v in View(s)[p] && View(s)[p][v].u
  {
  }

  /** Writing bytes changes what their own process reads at their own addresses, where it has pages. */
  lemma {:induction false} CopyBytes(view: Views, p: nat, va: nat, bytes: seq<Byte>, q: nat, a: nat)
    requires p in view
    ensures ByteAt(EagerCopy(view, p, va, bytes), q, a) ==
            if q == p && va <= a < va + |bytes| && ByteAt(view, q, a).Some? then Some(bytes[a - va])
            else ByteAt(view, q, a)
  {
    PageSplit(a);
    hide PageOf, OffsetOf, PageStart;
  }

  lemma {:induction false} PagesBelow(sz: nat, v: nat)
    ensures v < PagesOf(sz) <==> PageStart(v) < sz
  {
  }

  /** Every address below the size of a process has a page, and every page begins below the size. */
  lemma {:induction false} SizeMapped(s: Vm, p: nat)
    requires Good(s) && p in s.procs
    ensures forall va: nat :: va < s.procs[p].sz ==> PageOf(va) in s.procs[p].pt
    ensures forall v: nat :: v in s.procs[p].pt <==> PageStart(v) < s.procs[p].sz
  {
    hide Inv, PagesOf, Range, PageOf, PageStart, OffsetOf;
    SizedOne(s.procs, p);
    InRange(0, PagesOf(s.procs[p].sz));
    forall v: nat
      ensures v in s.procs[p].pt <==> PageStart(v) < s.procs[p].sz
    {
      PagesBelow(s.procs[p].sz, v);
    }
    forall va: nat | va < s.procs[p].sz
      ensures PageOf(va) in s.procs[p].pt
    {
      PageSplit(va);
    }
  }

  /** sbrk moves the end of memory by n: pages that begin below the new end and not below the old one read 0 and can
      be stored to, pages that begin at the new end or beyond are gone, and all else reads as before.  It does
      nothing if the end would fall below 0. */
  lemma {:induction false} SbrkBytes(s: Vm, p: nat, n: int, q: nat, a: nat)
    requires Good(s) && p in s.procs && p in View(s) && p in Sizes(s.procs)
    ensures var e := EagerSbrk(EagerOf(s), p, n);
            var sz := s.procs[p].sz;
            var at := PageStart(PageOf(a));
            && e.sizes == Sizes(s.procs)[p := Slot(if sz + n < 0 then sz else sz + n, s.procs[p].dead)]
            && ByteAt(e.view, q, a) == (if q != p || sz + n < 0 then ByteAt(View(s), q, a)
                                        else if at >= sz + n then None
                                        else if at < sz then ByteAt(View(s), q, a)
                                        else Some(0))
            && (sz <= at < sz + n ==> MayStore(e.view, p, a) && e.view[p][PageOf(a)].r && !e.view[p][PageOf(a)].x)
  {
    hide Good, PagesOf, Range, PageOf, PageStart, OffsetOf, View, Sizes;
    SizesOf(s, p);
    ViewOf(s);
    var sz := s.procs[p].sz;
    assert Sizes(s.procs)[p := Slot(sz, s.procs[p].dead)] == Sizes(s.procs);
    assert PageOf(a) in View(s)[p] <==> PageStart(PageOf(a)) < sz by { SizeMapped(s, p); }
    if sz + n >= 0 {
      PagesBelow(sz, PageOf(a));
      PagesBelow(sz + n, PageOf(a));
      InRange(PagesOf(sz), PagesOf(sz + n));
      InRange(PagesOf(sz + n), PagesOf(sz));
      assert Filled(0)[OffsetOf(a)] == 0;
    }
  }

  /** In the words of sbrk's caller. */
  lemma {:induction false} NewMemory(s: Vm, p: nat, n: nat)
    requires Good(s) && p in s.procs && p in View(s) && p in Sizes(s.procs)
    ensures var view := EagerSbrk(EagerOf(s), p, n).view;
            forall a: nat :: s.procs[p].sz <= a < s.procs[p].sz + n && PageOf(a) !in s.procs[p].pt ==>
              ByteAt(view, p, a) == Some(0) && MayStore(view, p, a)
  {
    hide Good, EagerSbrk, ByteAt, MayStore, PageOf, PageStart, OffsetOf;
    var view := EagerSbrk(EagerOf(s), p, n).view;
    forall a: nat | s.procs[p].sz <= a < s.procs[p].sz + n && PageOf(a) !in s.procs[p].pt
      ensures ByteAt(view, p, a) == Some(0) && MayStore(view, p, a)
    {
      SizeMapped(s, p);
      SbrkBytes(s, p, n, p, a);
      PageSplit(a);
    }
  }

  // ---------------------------------------------------------------- what tables cost

  /** Two addresses share a middle table exactly when they lie in one gigabyte, a leaf table in one two-megabyte
      region. */
  lemma {:induction false} TablesShared(va: nat, vb: nat)
    ensures MidOf(PageOf(va)) == MidOf(PageOf(vb)) <==> va / 0x4000_0000 == vb / 0x4000_0000
    ensures LowOf(PageOf(va)) == LowOf(PageOf(vb)) <==> va / 0x20_0000 == vb / 0x20_0000
  {
    assert va / 0x4000_0000 == PageOf(va) / 262144 && vb / 0x4000_0000 == PageOf(vb) / 262144;
    assert va / 0x20_0000 == PageOf(va) / 512 && vb / 0x20_0000 == PageOf(vb) / 512;
  }

  /** The tables on the way to some page from v to hi. */
  ghost function DirsIn(v: nat, hi: nat): set<Dir> {
    set u: nat, d: Dir | u in Range(v, hi) && d in DirsOf(u) :: d
  }

  /** The frames that mapping a range takes are its pages and those of its tables that are missing. */
  lemma {:induction false} CostIs(dirs: set<Dir>, v: nat, hi: nat, page: nat)
    requires v <= hi
    ensures Cost(dirs, v, hi, page) == page * (hi - v) + |DirsIn(v, hi) - dirs|
    decreases hi - v
  {
    hide Cost, DirsIn, DirsOf, Need, Range;
    if v == hi {
      NoDirs(v);
      CostEnd(dirs, hi, page);
      assert {} - dirs == {};
    } else {
      CostIs(dirs + DirsOf(v), v + 1, hi, page);
      CostStep(dirs, v, hi, page);
      DirsInStep(v, hi);
      NeedIs(dirs, v);
      MissingSplit(DirsOf(v), DirsIn(v + 1, hi), dirs);
      Distribute(page, hi - v);
    }
  }

  lemma {:induction false} NoDirs(v: nat)
    ensures DirsIn(v, v) == {}
  {
    InRange(v, v);
  }

  lemma {:induction false} MissingSplit(a: set<Dir>, b: set<Dir>, dirs: set<Dir>)
    ensures |a + b - dirs| == |a - dirs| + |b - (dirs + a)|
  {
    assert a + b - dirs == (a - dirs) + (b - (dirs + a));
  }

  lemma {:induction false} Distribute(a: nat, n: nat)
    requires n > 0
    ensures a * n == a + a * (n - 1)
  {
  }

  lemma {:induction false} DirsInStep(v: nat, hi: nat)
    requires v < hi
    ensures DirsIn(v, hi) == DirsOf(v) + DirsIn(v + 1, hi)
  {
    hide DirsOf, Range;
    InRange(v, hi);
    InRange(v + 1, hi);
    forall d
      ensures d in DirsIn(v, hi) <==> d in DirsOf(v) + DirsIn(v + 1, hi)
    {
    }
  }

  lemma {:induction false} NeedIs(dirs: set<Dir>, v: nat)
    ensures Need(dirs, v) == |DirsOf(v) - dirs|
  {
    var ds := (if MidOf(v) in dirs then {} else {MidOf(v)}) + (if LowOf(v) in dirs then {} else {LowOf(v)});
    assert DirsOf(v) - dirs == ds;
  }

  // ---------------------------------------------------------------- where the code falls short of the eager kernel

  /** A store that the eager kernel allows is answered by killing the process exactly when the
      page is COW and either the address lies above the size, in the last page, or the frame is
      shared and memory has run out. */
  lemma {:induction false} LazyKillsMore(s: Vm, p: nat, va: nat)
    requires Good(s) && MayStore(View(s), p, va)
    ensures p in s.procs && PageOf(va) in s.procs[p].pt && s.procs[p].pt[PageOf(va)].frame < |s.refs|
    ensures !StoreSurvives(s, p, va) <==>
              var pte := s.procs[p].pt[PageOf(va)];
              !pte.flags.w && (va > s.procs[p].sz || (s.refs[pte.frame] != 1 && s.free == []))
  {
    ViewOf(s);
    Known(s, p);
  }

  /** When cow_alloc finds no memory it leaves PTE_W set on the shared frame.  copyout then returns
      -1 and the process runs on: its next store goes straight into the other processes' memory. */
  lemma {:induction false} FailedCowAllocLeaks(s: Vm, p: nat, v: nat)
    requires Conserved(s) && p in s.procs && v in s.procs[p].pt && s.procs[p].pt[v].flags.cow
    requires s.procs[p].pt[v].frame < |s.mem| == |s.refs| && s.refs[s.procs[p].pt[v].frame] != 1
    ensures var s' := s.(procs := s.procs[p := SetFlags(s.procs[p], v, s.procs[p].pt[v].flags.(w := true))]);
            && Conserved(s') && View(s') == View(s)
            && s'.procs[p].pt[v].flags.w && (!s.procs[p].dead ==> !Exclusive(s'.procs))
            && exists page: Page :: View(s'.(mem := s'.mem[s.procs[p].pt[v].frame := page])) != SetPage(View(s'), p, v,
                page)
  {
    hide Users, Conserved, View;
    var flags := s.procs[p].pt[v].flags.(w := true);
    FlagsKeep(s, p, v, flags);
    var s' := s.(procs := s.procs[p := SetFlags(s.procs[p], v, flags)]);
    SharedWriteLeaks(s', p, v);
    AloneIfCountOne(s', p, v);
    if !s.procs[p].dead { assert !ExclusiveFor(s'.procs, p); }
  }

  /** Frames in the kernel's hand keep their contents. */
  ghost predicate HeldSame(s: Vm, s': Vm) {
    |s'.mem| == |s.mem| && forall f :: f in s.held && f < |s.mem| ==> s'.mem[f] == s.mem[f]
  }

  class Kernel {
    var mem: seq<Page>
    var refs: seq<nat>
    var free: seq<nat>
    var procs: map<nat, Proc>
    ghost var held: set<nat>

    ghost function S(): Vm
      reads this
    {
      Vm(mem, refs, free, procs, held)
    }

    /** kinit: freerange hands every frame to kfree, with a count of 1 for it to take away. */
    constructor (mem: seq<Page>)
      ensures Good(S()) && held == {} && procs == map[] && |this.mem| == |mem|
      ensures free == Downto(|mem|)
    {
      hide Good;
      var n := |mem|;
      this.mem, refs, free, procs, held := mem, seq(n, _ => 0), [], map[], {};
      new;
      for f := 0 to n
        invariant |this.mem| == n && refs == seq(n, _ => 0) && procs == map[] && held == {}
        invariant free == Downto(f)
      {
        refs := refs[f := 1];
        FreeFrame(f);
        assert refs == seq(n, _ => 0);
      }
      AllFree(S());
    }

    /** kalloc. */
    method AllocFrame() returns (r: Option<nat>)
      requires Conserved(S())
      modifies this
      ensures old(free) == [] ==> r == None && S() == old(S())
      ensures old(free) != [] ==>
                && r == Some(old(free)[0]) && old(free)[0] < |old(mem)| == |old(refs)|
                && S() == Kalloc(old(S())) && r.value !in old(held) && Users(procs, r.value) == {}
      ensures Conserved(S()) && View(S()) == old(View(S()))
    {
      if free == [] { return None; }
      KallocKeeps(S());
      var f := free[0];
      mem, refs, free := mem[f := Filled(5)], refs[f := 1], free[1..];
      held := held + {f};
      r := Some(f);
    }

    /** kfree. */
    method FreeFrame(f: nat)
      requires f < |mem| == |refs|
      modifies this`mem, this`refs, this`free
      ensures S() == Kfree(old(S()), f)
    {
      var c := (refs[f] + 255) % 256;
      refs := refs[f := c];
      if c > 0 { return; }
      mem := mem[f := Filled(1)];
      free := [f] + free;
    }

    /** One turn of uvmunmap's loop with do_free: kfree, then clear the PTE. */
    method UnmapPage(p: nat, v: nat)
      requires Conserved(S()) && p in procs && v in procs[p].pt
      modifies this`mem, this`refs, this`free, this`procs
      ensures Keeps(old(S()), S())
      ensures procs == old(procs)[p := Unmapped(old(procs)[p], v)]
      ensures View(S()) == old(View(S()))[p := old(View(S()))[p] - {v}]
    {
      ghost var s := S();
      var proc := procs[p];
      var f := proc.pt[v].frame;
      assert ProcOk(proc, |mem|);
      FreeFrame(f);
      procs := procs[p := proc.(pt := proc.pt - {v})];
      UnmapKeeps(s, p, v);
    }

    /** uvmunmap of npages pages from page v on, with do_free. */
    method UvmUnmap(p: nat, v: nat, npages: nat)
      requires Conserved(S()) && p in procs && forall u :: v <= u < v + npages ==> u in procs[p].pt
      modifies this`mem, this`refs, this`free, this`procs
      ensures Keeps(old(S()), S()) && p in old(View(S()))
      ensures procs == old(procs)[p := old(procs)[p].(pt := old(procs)[p].pt - Range(v, v + npages))]
      ensures View(S()) == old(View(S()))[p := old(View(S()))[p] - Range(v, v + npages)]
    {
      hide Users, Conserved, ExclusiveFor, View, Range;
      var a := v;
      ghost var proc, view := procs[p], View(S());
      ViewOf(S());
      MinusGrows(proc.pt, v, v);
      MinusGrows(view[p], v, v);
      assert procs == procs[p := proc] && view == view[p := view[p]];
      while a < v + npages
        invariant v <= a <= v + npages
        invariant Keeps(old(S()), S())
        invariant procs == old(procs)[p := proc.(pt := proc.pt - Range(v, a))]
        invariant View(S()) == view[p := view[p] - Range(v, a)]
      {
        InRange(v, a);
        UnmapPage(p, a);
        MinusGrows(proc.pt, v, a);
        MinusGrows(view[p], v, a);
        a := a + 1;
      }
    }

    /** kalloc of a page that the kernel keeps for a process: its trapframe, or a table that serves ds. */
    method AddTable(p: nat, ds: set<Dir>) returns (ok: bool)
      requires Conserved(S()) && p in procs
      modifies this
      ensures Keeps(old(S()), S()) && View(S()) == old(View(S())) && HeldSame(old(S()), S())
      ensures p in procs && procs == old(procs)[p := old(procs)[p].(tables := procs[p].tables, dirs := procs[p].dirs)]
      ensures ok <==> old(free) != []
      ensures ok ==> |free| == |old(free)| - 1 && procs[p].dirs == old(procs)[p].dirs + ds
      ensures !ok ==> S() == old(S())
    {
      hide Users, Conserved, ExclusiveFor, View;
      assert procs == procs[p := procs[p].(tables := procs[p].tables, dirs := procs[p].dirs)];
      var r := AllocFrame();
      if r.None? { return false; }
      TableKeeps(S(), p, r.value, ds);
      procs := procs[p := procs[p].(tables := procs[p].tables + {r.value}, dirs := procs[p].dirs + ds)];
      held := held - {r.value};
      ok := true;
    }

    /** The kallocs of walk(alloc=1): the tables on the way to page v that are missing.  One that was obtained stays
        in the tree even when the next one fails. */
    method WalkAlloc(p: nat, v: nat) returns (ok: bool)
      requires Conserved(S()) && p in procs
      modifies this
      ensures Keeps(old(S()), S()) && View(S()) == old(View(S())) && HeldSame(old(S()), S())
      ensures p in procs && procs == old(procs)[p := old(procs)[p].(tables := procs[p].tables, dirs := procs[p].dirs)]
      ensures ok <==> Need(old(procs)[p].dirs, v) <= |old(free)|
      ensures |free| == (if ok then |old(free)| - Need(old(procs)[p].dirs, v) else 0)
      ensures ok ==> procs[p].dirs == old(procs)[p].dirs + DirsOf(v)
    {
      hide Users, Conserved, ExclusiveFor, View, MidOf, LowOf;
      assert procs == procs[p := procs[p].(tables := procs[p].tables, dirs := procs[p].dirs)];
      DirsApart(v);
      ok := true;
      if MidOf(v) !in procs[p].dirs {
        ok := AddTable(p, {MidOf(v)});
      }
      if ok && LowOf(v) !in procs[p].dirs {
        ok := AddTable(p, {LowOf(v)});
      }
    }

    /** kfree of a frame that was not mapped after all. */
    method DropHeld(f: nat)
      requires Conserved(S()) && f in held
      modifies this
      ensures Conserved(S()) && |mem| == |old(mem)| && held == old(held) - {f}
      ensures procs == old(procs) && View(S()) == old(View(S()))
    {
      HeldFreeKeeps(S(), f);
      FreeFrame(f);
      held := held - {f};
    }

    /** The PTE store of mappages, for a frame in the kernel's hand. */
    method MapHeld(p: nat, v: nat, pte: Pte)
      requires Conserved(S()) && p in procs && pte.frame in held && v !in procs[p].pt
      modifies this`procs, this`held
      ensures Conserved(S()) && held == old(held) - {pte.frame}
      ensures procs == old(procs)[p := Mapped(old(procs)[p], v, pte)]
      ensures StillExclusive(old(procs), procs)
      ensures p in old(View(S())) && View(S()) == PutPage(old(View(S())), p, v, Seen(mem, pte))
    {
      hide Users, Conserved, StillExclusive, View;
      MapHeldKeeps(S(), p, v, pte);
      ViewOf(S());
      procs := procs[p := procs[p].(pt := procs[p].pt[v := pte])];
      held := held - {pte.frame};
    }

    /** kalloc, memset and mappages of one page, as in uvmalloc. */
    method AddZeroPage(p: nat, v: nat, flags: Flags) returns (ok: bool)
      requires Conserved(S()) && p in procs && v !in procs[p].pt
      modifies this
      ensures Keeps(old(S()), S()) && p in old(View(S())) && p in procs
      ensures View(S()) == if ok then PutPage(old(View(S())), p, v, ZeroPage(flags)) else old(View(S()))
      ensures ok <==> |old(free)| >= 1 + Need(old(procs)[p].dirs, v)
      ensures ok ==>
                |free| == |old(free)| - 1 - Need(old(procs)[p].dirs, v)
                && procs[p].dirs == old(procs)[p].dirs + DirsOf(v)
      ensures procs == old(procs)[p := procs[p]] && SameSlot(old(procs)[p], procs[p])
      ensures procs[p].pt.Keys == old(procs)[p].pt.Keys + (if ok then {v} else {})
      ensures ok ==> procs[p].pt[v].flags == flags
    {
      hide Users, Conserved, ExclusiveFor, View, Need, DirsOf;
      ViewOf(S());
      assert procs == procs[p := procs[p]];
      var r := AllocFrame();
      if r.None? { return false; }
      var f := r.value;
      FillHeldKeeps(S(), f, Filled(0));
      mem := mem[f := Filled(0)];
      ok := WalkAlloc(p, v);
      if !ok {
        DropHeld(f);
      } else {
        assert Seen(mem, Pte(f, flags)) == ZeroPage(flags);
        MapHeld(p, v, Pte(f, flags));
      }
    }

    /** uvmalloc: pages up to newsz, zeroed; on failure those already added are taken back. */
    method UvmAlloc(p: nat, newsz: nat, flags: Flags) returns (ok: bool)
      requires Conserved(S()) && p in procs && Sized(procs[p]) && procs[p].sz <= newsz
      modifies this
      ensures Keeps(old(S()), S()) && p in old(View(S())) && p in procs
      ensures var lo := PagesOf(old(procs)[p].sz);
              View(S()) == if ok then EagerGrow(old(View(S())), p, lo, PagesOf(newsz), flags) else old(View(S()))
      ensures procs == old(procs)[p := procs[p]] && SameSlot(old(procs)[p], procs[p])
      ensures procs[p].pt.Keys == Range(0, PagesOf(if ok then newsz else old(procs)[p].sz))
      ensures ok <==> |old(free)| >= Cost(old(procs)[p].dirs, PagesOf(old(procs)[p].sz), PagesOf(newsz), 1)
    {
      hide Users, Conserved, ExclusiveFor, View, EagerGrow, PutPage, ZeroPage, Range, Need, DirsOf, Cost, PagesOf,
          StillExclusive;
      ghost var view, was := View(S()), procs;
      ViewOf(S());
      var lo, hi := PagesOf(procs[p].sz), PagesOf(newsz);
      PagesMonotone(procs[p].sz, newsz);
      GrowOne(view, p, lo, lo, flags);
      assert procs == procs[p := procs[p]];
      assert Keeps(old(S()), S()) by { KeepsSelf(S()); }
      for v := lo to hi
        invariant Keeps(old(S()), S()) && p in procs
        invariant View(S()) == EagerGrow(view, p, lo, v, flags)
        invariant procs == was[p := procs[p]] && SameSlot(was[p], procs[p])
        invariant procs[p].pt.Keys == Range(0, v)
        invariant |old(free)| - |free| == Cost(was[p].dirs, lo, hi, 1) - Cost(procs[p].dirs, v, hi, 1)
      {
        InRange(0, v);
        CostStep(procs[p].dirs, v, hi, 1);
        ghost var s1 := S();
        ok := AddZeroPage(p, v, flags);
        KeepsTwice(old(S()), s1, S());
        if !ok {
          InRange(lo, v);
          s1 := S();
          UvmUnmap(p, lo, v - lo);
          KeepsTwice(old(S()), s1, S());
          UndoneKeys(view, p, lo, v, flags);
          return;
        }
        GrowOne(view, p, lo, v, flags);
        RangeGrows(0, v);
      }
      CostEnd(procs[p].dirs, hi, 1);
      ok := true;
    }

    /** cow_alloc: keep the frame if it is ours alone, else move to a copy.  The copy keeps
        PTE_RSW_COW; and on out-of-memory PTE_W stays set on the shared frame. */
    method CowAlloc(p: nat, v: nat) returns (r: Option<nat>)
      requires Conserved(S()) && p in procs && v in procs[p].pt && procs[p].pt[v].flags.cow
      modifies this
      ensures Conserved(S()) && View(S()) == old(View(S())) && |mem| == |old(mem)| && held == old(held)
      ensures p in procs && procs == old(procs)[p := procs[p]] && v in procs[p].pt
      ensures procs[p] == old(procs)[p].(pt := old(procs)[p].pt[v := procs[p].pt[v]])
      ensures var f := old(procs)[p].pt[v].frame;
              var flags := old(procs)[p].pt[v].flags;
              && f < |old(refs)|
              && (r.None? <==> old(refs)[f] != 1 && old(free) == [])
              && (r.None? ==> procs[p].pt[v] == Pte(f, flags.(w := true)))
              && (r.None? ==> forall g: nat :: Users(procs, g) == Users(old(procs), g))
              && |free| == |old(free)| - (if old(refs)[f] != 1 && r.Some? then 1 else 0)
              && OthersKept(old(S()), S(), p, v)
              && (r.Some? ==> procs[p].pt[v] == Pte(r.value, flags.(w := true, cow := old(refs)[f] != 1)))
              && (r.Some? ==> Users(procs, r.value) == {p} && StillExclusive(old(procs), procs))
    {
      hide Users, Conserved, StillExclusive, View;
      var pte := procs[p].pt[v];
      var f := pte.frame;
      AloneIfCountOne(S(), p, v);
      CountRange(S(), p, v);
      if refs[f] == 1 {
        var flags := pte.flags.(w := true, cow := false);
        FlagsKeep(S(), p, v, flags);
        FlagsExclusive(procs, p, v, flags);
        procs := procs[p := procs[p].(pt := procs[p].pt[v := Pte(f, flags)])];
        return Some(f);
      }
      var flags := pte.flags.(w := true);
      r := AllocFrame();
      if r.None? {
        FlagsKeep(S(), p, v, flags);
        procs := procs[p := procs[p].(pt := procs[p].pt[v := Pte(f, flags)])];
        return;
      }
      FreshFrame(procs, p, v, r.value);
      MoveToCopy(p, v, r.value, flags);
      OthersCopied(old(S()), S(), p, v, r.value);
    }

    /** The second half of cow_alloc: memmove, mappages, kfree of the old frame. */
    method MoveToCopy(p: nat, v: nat, g: nat, flags: Flags)
      requires Conserved(S()) && p in procs && v in procs[p].pt && SameRights(flags, procs[p].pt[v].flags)
      requires g in held
      modifies this
      ensures Conserved(S()) && View(S()) == old(View(S())) && |mem| == |old(mem)| && held == old(held) - {g}
      ensures procs == old(procs)[p := Mapped(old(procs)[p], v, Pte(g, flags))]
      ensures Users(procs, g) == {p} && StillExclusive(old(procs), procs)
      ensures var f := old(procs)[p].pt[v].frame;
              f < |old(refs)| && (old(refs)[f] != 1 ==> free == old(free) && refs == old(refs)[f := old(refs)[f] - 1])
    {
      hide Users, Conserved, StillExclusive, View;
      KnownHeld(S(), g);
      AloneIfCountOne(S(), p, v);
      CountRange(S(), p, v);
      var f := procs[p].pt[v].frame;
      NotOwnFrame(procs[p], v, g);
      FillHeldKeeps(S(), g, mem[f]);
      mem := mem[g := mem[f]];
      CopyKeeps(S(), p, v, g, flags);
      procs := procs[p := procs[p].(pt := procs[p].pt[v := Pte(g, flags)])];
      held := held - {g};
      FreeFrame(f);
    }

    /** Freeing the table pages and the trapframe of a process without user pages, and its slot. */
    method FreeEmptyProc(p: nat)
      requires Conserved(S()) && p in procs && procs[p].pt == map[]
      modifies this`mem, this`refs, this`free, this`procs
      ensures Keeps(old(S()), S()) && View(S()) == old(View(S())) - {p} && procs == old(procs) - {p}
    {
      hide Users, Conserved, ExclusiveFor, View;
      ghost var was := procs;
      while procs[p].tables != {}
        invariant Keeps(old(S()), S()) && View(S()) == old(View(S()))
        invariant p in procs && procs == was[p := procs[p]] && procs[p].pt == map[]
        decreases procs[p].tables
      {
        var f :| f in procs[p].tables;
        TableFreeKeeps(S(), p, f);
        FreeFrame(f);
        procs := procs[p := procs[p].(tables := procs[p].tables - {f})];
      }
      GoneProcKeeps(S(), p);
      procs := procs - {p};
    }

    /** uvmunmap of all the pages of a process. */
    method UnmapAll(p: nat, npages: nat)
      requires Conserved(S()) && p in procs && procs[p].pt.Keys == Range(0, npages)
      modifies this`mem, this`refs, this`free, this`procs
      ensures Keeps(old(S()), S()) && View(S()) == old(View(S()))[p := map[]]
      ensures procs == old(procs)[p := old(procs)[p].(pt := map[])]
    {
      hide Users, Conserved, ExclusiveFor, View, Range;
      ViewOf(S());
      InRange(0, npages);
      Emptied(procs[p].pt, npages);
      Emptied(View(S())[p], npages);
      UvmUnmap(p, 0, npages);
    }

    /** exit: the process never runs again, and keeps its memory. */
    method Exit(p: nat)
      requires Good(S()) && p in procs
      modifies this`procs
      ensures Good(S()) && View(S()) == old(View(S()))
      ensures Sizes(procs) == Sizes(old(procs))[p := Slot(old(procs)[p].sz, true)]
    {
      hide Users, Conserved, ExclusiveFor, View, Sizes, AllSized;
      DeadKeeps(S(), p);
      procs := procs[p := procs[p].(dead := true)];
    }

    /** freeproc, called by the parent's wait: uvmfree, freewalk. */
    method Reap(p: nat)
      requires Conserved(S()) && p in procs && Sized(procs[p])
      modifies this`mem, this`refs, this`free, this`procs
      ensures Keeps(old(S()), S()) && View(S()) == old(View(S())) - {p} && procs == old(procs) - {p}
    {
      hide Users, Conserved, ExclusiveFor, View;
      UnmapAll(p, PagesOf(procs[p].sz));
      FreeEmptyProc(p);
    }

    /** uvmcopy, on the parent's PTE: a writable page becomes read-only and COW. */
    method MarkCow(p: nat, i: nat) returns (pte: Pte)
      requires Inv(S()) && p in procs && i in procs[p].pt
      modifies this`procs
      ensures Inv(S()) && View(S()) == old(View(S())) && OnlyChanges(old(procs), procs, {p})
      ensures SameFrames(old(procs)[p], procs[p]) && SameSlot(old(procs)[p], procs[p])
      ensures pte == procs[p].pt[i] && !pte.flags.w
    {
      hide Users, Conserved, ExclusiveFor, View;
      pte := procs[p].pt[i];
      if pte.flags.w { pte := pte.(flags := pte.flags.(w := false, cow := true)); }
      FlagsKeep(S(), p, i, pte.flags);
      FlagsExclusive(procs, p, i, pte.flags);
      procs := procs[p := procs[p].(pt := procs[p].pt[i := pte])];
    }

    /** One turn of uvmcopy's loop. */
    method CopyPage(p: nat, c: nat, i: nat) returns (ok: bool)
      requires Inv(S()) && p in procs && c in procs && p != c
      requires i in procs[p].pt && i !in procs[c].pt && Mirrors(procs[c], procs[p])
      modifies this
      ensures Inv(S()) && |mem| == |old(mem)| && held == old(held) && OnlyChanges(old(procs), procs, {p, c})
      ensures p in old(View(S())) && i in old(View(S()))[p] && c in old(View(S()))
      ensures View(S()) == if ok then PutPage(old(View(S())), c, i, old(View(S()))[p][i]) else old(View(S()))
      ensures SameFrames(old(procs)[p], procs[p]) && SameSlot(old(procs)[p], procs[p])
      ensures Mirrors(procs[c], procs[p]) && procs[c].dead == old(procs)[c].dead
      ensures procs[c].pt.Keys == old(procs)[c].pt.Keys + (if ok then {i} else {})
      ensures ok <==> |old(free)| >= Need(old(procs)[c].dirs, i)
      ensures ok ==>
                |free| == |old(free)| - Need(old(procs)[c].dirs, i) && procs[c].dirs == old(procs)[c].dirs + DirsOf(i)
    {
      hide Users, Conserved, ExclusiveFor, View, PutPage, OnlyChanges, Mirrors, Need, DirsOf;
      ViewOf(S());
      ghost var was := procs;
      var pte := MarkCow(p, i);
      ChangesMore(was, procs, p, c);
      ghost var marked := procs;
      OtherKept(was, marked, p, c);
      MirrorsSame(was[c], was[p], marked[p]);
      ok := WalkAlloc(c, i);
      ChangedOne(was, marked, p, c, procs[c]);
      MirrorsSamePages(marked[c], procs[c], procs[p]);
      if ok {
        ghost var walked := procs;
        ShareInto(p, c, i, pte);
        ChangedOne(was, walked, p, c, procs[c]);
        MirrorsMapped(walked[c], procs[p], i, pte);
      }
    }

    /** The PTE store of mappages on the child's table, then increase_refer. */
    method ShareInto(p: nat, c: nat, i: nat, pte: Pte)
      requires Inv(S()) && p in procs && c in procs && p != c
      requires i in procs[p].pt && i !in procs[c].pt && Mirrors(procs[c], procs[p])
      requires pte == procs[p].pt[i] && !pte.flags.w
      modifies this`procs, this`refs
      ensures Inv(S()) && procs == old(procs)[c := Mapped(old(procs)[c], i, pte)]
      ensures p in old(View(S())) && i in old(View(S()))[p] && c in old(View(S()))
      ensures View(S()) == PutPage(old(View(S())), c, i, old(View(S()))[p][i])
    {
      hide Users, Conserved, ExclusiveFor, View, PutPage, Mirrors;
      ViewOf(S());
      SharePage(S(), p, c, i, pte.flags);
      procs := procs[c := procs[c].(pt := procs[c].pt[i := pte])];
      refs := refs[pte.frame := (refs[pte.frame] + 1) % 256];
    }

    /** uvmcopy: shares every page of p with c, read-only and marked COW where it was writable. */
    method UvmCopy(p: nat, c: nat) returns (ok: bool)
      requires Inv(S()) && p in procs && c in procs && p != c && Sized(procs[p]) && procs[c].pt == map[]
      modifies this
      ensures Inv(S()) && |mem| == |old(mem)| && held == old(held) && OnlyChanges(old(procs), procs, {p, c})
      ensures p in old(View(S()))
      ensures View(S()) == old(View(S()))[c := if ok then old(View(S()))[p] else map[]]
      ensures SameFrames(old(procs)[p], procs[p]) && SameSlot(old(procs)[p], procs[p])
      ensures procs[c].dead == old(procs)[c].dead
      ensures if ok then procs[c].pt.Keys == procs[p].pt.Keys else procs[c].pt == map[]
      ensures ok <==> |old(free)| >= Cost(old(procs)[c].dirs, 0, PagesOf(old(procs)[p].sz), 0)
      ensures ok ==>
                Mirrors(procs[c], procs[p])
                && |free| == |old(free)| - Cost(old(procs)[c].dirs, 0, PagesOf(old(procs)[p].sz), 0)
    {
      hide Users, Conserved, ExclusiveFor, View, Mirrors, PutPage, Range, Below, Need, DirsOf, Cost;
      ghost var view, was := View(S()), procs;
      ViewOf(S());
      EmptyMirrors(procs[c], procs[p]);
      var n := PagesOf(procs[p].sz);
      BelowKeys(view[p], 0, n);
      InRange(0, 0);
      assert view == view[c := map[]];
      for i := 0 to n
        invariant Inv(S()) && |mem| == |old(mem)| && held == old(held) && OnlyChanges(was, procs, {p, c})
        invariant View(S()) == view[c := Below(view[p], i)]
        invariant SameFrames(was[p], procs[p]) && SameSlot(was[p], procs[p])
        invariant Mirrors(procs[c], procs[p]) && procs[c].dead == was[c].dead
        invariant procs[c].pt.Keys == Range(0, i)
        invariant |old(free)| - |free| == Cost(was[c].dirs, 0, n, 0) - Cost(procs[c].dirs, i, n, 0)
      {
        InRange(0, i);
        InRange(0, n);
        BelowGrows(view, p, c, i);
        RangeGrows(0, i);
        CostStep(procs[c].dirs, i, n, 0);
        ok := CopyPage(p, c, i);
        if !ok {
          ChangedOne(was, procs, p, c, procs[c].(pt := map[]));
          UpdatedTwice(view, c, Below(view[p], i), map[]);
          UnmapAll(c, i);
          return;
        }
      }
      BelowKeys(view[p], n, n);
      CostEnd(procs[c].dirs, n, 0);
      ok := true;
    }

    /** memmove into the frame of page v of p. */
    method WriteFrame(p: nat, v: nat, off: nat, bytes: seq<Byte>)
      requires Conserved(S()) && p in procs && v in procs[p].pt && off + |bytes| <= PGSIZE
      modifies this`mem
      ensures Conserved(S()) && |mem| == |old(mem)|
      ensures p in old(View(S())) && v in old(View(S()))[p]
      ensures procs[p].pt[v].frame < |old(mem)|
      ensures mem == old(mem)[procs[p].pt[v].frame := Splice(old(mem)[procs[p].pt[v].frame], off, bytes)]
      ensures Users(procs, procs[p].pt[v].frame) == {p} ==>
                View(S()) == SetPage(old(View(S())), p, v, Splice(old(View(S()))[p][v].data, off, bytes))
    {
      hide Users, View, Splice;
      var f := procs[p].pt[v].frame;
      Known(S(), p);
      ghost var s := S();
      ViewOf(S());
      mem := mem[f := Splice(mem[f], off, bytes)];
      if Users(procs, f) == {p} { WriteOwn(s, p, v, mem[f]); }
      OwnedOnly(s, S());
    }

    /** The trapframe, uvmcreate, and the tables that proc_pagetable needs. */
    method AddProcPages(c: nat) returns (ok: bool)
      requires Conserved(S()) && c in procs && procs[c].dirs == {}
      modifies this
      ensures Keeps(old(S()), S()) && View(S()) == old(View(S()))
      ensures c in procs && procs == old(procs)[c := old(procs)[c].(tables := procs[c].tables, dirs := procs[c].dirs)]
      ensures ok <==> |old(free)| >= PROC_FRAMES
      ensures ok ==> |free| == |old(free)| - PROC_FRAMES && procs[c].dirs == DirsOf(TRAMPOLINE)
    {
      hide Users, Conserved, ExclusiveFor, View, Need, DirsOf;
      NeedsBoth(TRAMPOLINE);
      ok := AddTable(c, {});
      if !ok { return; }
      ok := AddTable(c, {});
      if !ok { return; }
      ok := WalkAlloc(c, TRAMPOLINE);
    }

    /** allocproc's memory part: an empty slot, trapframe and first table pages. */
    method AllocProc(c: nat) returns (ok: bool)
      requires Inv(S()) && c !in procs && |procs| < NPROC
      modifies this
      ensures Inv(S()) && held == old(held) && |mem| == |old(mem)|
      ensures View(S()) == old(View(S()))[c := map[]]
      ensures c in procs && procs == old(procs)[c := procs[c]] && procs[c].pt == map[] && !procs[c].dead
      ensures (ok <==> |old(free)| >= PROC_FRAMES)
      ensures ok ==> |free| == |old(free)| - PROC_FRAMES && procs[c].dirs == DirsOf(TRAMPOLINE)
    {
      hide Users, Conserved, ExclusiveFor, View;
      NewProcKeeps(S(), c);
      procs := procs[c := Proc(0, map[], {}, {}, false)];
      ok := AddProcPages(c);
    }

    /** Storing p->sz, which the page table does not depend on. */
    method SetSz(p: nat, sz: nat)
      requires Inv(S()) && p in procs
      modifies this`procs
      ensures Inv(S()) && View(S()) == old(View(S())) && procs == old(procs)[p := old(procs)[p].(sz := sz)]
    {
      hide Users, Conserved, ExclusiveFor, View;
      SizeKeeps(S(), p, sz);
      procs := procs[p := procs[p].(sz := sz)];
    }

    /** fork's memory: a new process that shares every page. */
    method Fork(p: nat, c: nat) returns (ok: bool)
      requires Good(S()) && p in procs && c !in procs
      modifies this
      ensures Good(S()) && p in old(View(S())) && held == old(held)
      ensures View(S()) == if ok then old(View(S()))[c := old(View(S()))[p]] else old(View(S()))
      ensures Sizes(procs) == if ok then Sizes(old(procs))[c := Slot(old(procs)[p].sz, false)] else Sizes(old(procs))
      ensures ok <==> CanFork(old(procs), |old(free)|, p)
      ensures ok ==>
                p in procs && c in procs && Mirrors(procs[c], procs[p])
                && |free| == |old(free)| - ForkCost(old(procs)[p].sz)
    {
      hide Users, Conserved, ExclusiveFor, View, Range, Sizes, AllSized, Cost, DirsOf, Mirrors;
      ViewOf(S());
      if |procs| >= NPROC { return false; }
      ghost var was, view := procs, View(S());
      assert Sized(procs[p]) by { SizedOne(procs, p); }
      ok := AllocProc(c);
      UpdatedTwice(view, c, map[], view[p]);
      UpdatedTwice(view, c, map[], map[]);
      if ok { ok := UvmCopy(p, c); }
      if !ok {
        FreeEmptyProc(c);
        NoTrace(view, c);
      } else {
        MirrorsSamePages(procs[c], procs[c].(sz := procs[p].sz), procs[p]);
        SetSz(c, procs[p].sz);
      }
      ForkSizes(was, procs, p, c);
    }

    /** userinit: the first process, with one page that holds code.  There is memory enough when it is called. */
    method UserInit(p: nat, code: seq<Byte>)
      requires Good(S()) && p !in procs && |procs| < NPROC && |code| < PGSIZE && |free| >= PROC_FRAMES + 3
      modifies this
      ensures Good(S()) && held == old(held) && |free| == |old(free)| - PROC_FRAMES - 3
      ensures View(S()) == old(View(S()))[p := map[0 := VPage(Splice(Filled(0), 0, code), true, true, true, true)]]
      ensures Sizes(procs) == Sizes(old(procs))[p := Slot(PGSIZE, false)] && p in procs
              && procs == old(procs)[p := procs[p]]
    {
      hide Users, Conserved, ExclusiveFor, View, Sizes, AllSized, Splice, Range, DirsOf, Need;
      ghost var was, view := procs, View(S());
      var flags := Flags(true, true, true, true, false);
      NeedsLow();
      var ok := AllocProc(p);
      ghost var made := procs;
      ok := AddZeroPage(p, 0, flags);
      StillAll(made, procs);
      AloneIfWritable(S(), p, 0);
      FirstView(view, p, flags, code);
      WriteFrame(p, 0, 0, code);
      SetSz(p, PGSIZE);
      assert procs == was[p := procs[p]];
      FirstSizes(was, p, procs[p]);
    }

    /** A store fault on page v of p: cow_alloc for a COW page, at an address not above the size. */
    method StoreFault(p: nat, va: nat) returns (killed: bool)
      requires Good(S()) && p in procs
      modifies this
      ensures Good(S()) && held == old(held)
      ensures var v := PageOf(va);
              var proc := old(procs)[p];
              killed <==> va > proc.sz || v !in proc.pt || !proc.pt[v].flags.cow
                          || (proc.pt[v].frame < |old(refs)| && old(refs)[proc.pt[v].frame] != 1 && old(free) == [])
      ensures killed ==>
                View(S()) == old(View(S())) && Sizes(procs) == Sizes(old(procs))[p := Slot(old(procs)[p].sz, true)]
      ensures !killed ==>
                var v := PageOf(va);
                && View(S()) == old(View(S())) && Sizes(procs) == Sizes(old(procs))
                && p in procs && v in procs[p].pt && SameSlot(old(procs)[p], procs[p])
                && procs[p].pt[v].flags.w && procs[p].pt[v].flags.u == old(procs)[p].pt[v].flags.u
                && (procs[p].pt[v].flags.cow ==> old(refs)[old(procs)[p].pt[v].frame] != 1 && Alone(p, v))
    {
      hide Users, Conserved, ExclusiveFor, View, Sizes, AllSized;
      var v := PageOf(va);
      if va > procs[p].sz || v !in procs[p].pt || !procs[p].pt[v].flags.cow {
        Exit(p);
        return true;
      }
      ghost var was := procs;
      var r := CowAlloc(p, v);
      OneChange(was, p, procs[p]);
      SameSizes(was, procs, p);
      if r.None? {
        OthersExclusive(was, procs, p);
        DeadKeeps(S(), p);
        procs := procs[p := procs[p].(dead := true)];
        return true;
      }
      AloneIfCountOne(S(), p, v);
      return false;
    }

    /** get_refcount of page v of p is 1. */
    ghost predicate Alone(p: nat, v: nat)
      reads this
    {
      p in procs && v in procs[p].pt && procs[p].pt[v].frame < |refs| && refs[procs[p].pt[v].frame] == 1
    }

    /** A user store: the hardware writes, or faults until the kernel kills the process or grants
        the write.  The byte ends up where the eager model puts it. */
    method Store(p: nat, va: nat, b: Byte) returns (killed: bool)
      requires Good(S()) && p in procs && !procs[p].dead
      modifies this
      ensures Good(S()) && held == old(held) && p in old(View(S()))
      ensures killed <==> !StoreSurvives(old(S()), p, va)
      ensures View(S()) == if killed then old(View(S())) else EagerCopy(old(View(S())), p, va, [b])
      ensures Sizes(procs) == if killed then Sizes(old(procs))[p := Slot(old(procs)[p].sz, true)] else Sizes(old(procs))
      ensures !killed ==> MayStore(old(View(S())), p, va)
    {
      hide Users, Conserved, Exclusive, View, Sizes, AllSized, EagerCopy;
      ViewOf(S());
      ghost var view := View(S());
      var v := PageOf(va);
      Known(S(), p);
      ghost var first := true;
      while !(v in procs[p].pt && procs[p].pt[v].flags.u && procs[p].pt[v].flags.w)
        invariant Good(S()) && held == old(held) && p in procs && View(S()) == view && Sizes(procs) == Sizes(old(procs))
        invariant first ==> S() == old(S())
        invariant !first ==> v in procs[p].pt && procs[p].pt[v].flags.w && SameSlot(old(procs)[p], procs[p])
        invariant !first ==> v in old(procs)[p].pt && procs[p].pt[v].flags.u == old(procs)[p].pt[v].flags.u
        invariant !first ==> StoreSurvives(old(S()), p, va) == procs[p].pt[v].flags.u
        invariant !first && procs[p].pt[v].flags.cow ==> Alone(p, v)
        decreases if first then 2 else if procs[p].pt[v].flags.cow then 1 else 0
      {
        killed := StoreFault(p, va);
        if killed { return; }
        first := false;
      }
      ViewOf(S());
      AloneIfWritable(S(), p, v);
      WriteByte(p, va, b);
      killed := false;
    }

    method WriteByte(p: nat, va: nat, b: Byte)
      requires Good(S()) && p in procs && PageOf(va) in procs[p].pt
      requires Users(procs, procs[p].pt[PageOf(va)].frame) == {p}
      modifies this`mem
      ensures Good(S()) && p in old(View(S())) && View(S()) == EagerCopy(old(View(S())), p, va, [b])
    {
      hide Users, Conserved, Exclusive, View, EagerCopy;
      ghost var view: Views := View(S());
      var v, off := PageOf(va), OffsetOf(va);
      WriteFrame(p, v, off, [b]);
      CopyStep(view, p, va, [b], 0, 1, v, off);
      CopyNone(view, p, va);
      assert [b][..0] == [] && [b][0..1] == [b] && [b][..1] == [b];
    }

    /** One turn of copyout's loop: the part of the copy that falls into one page. */
    method CopyChunk(p: nat, va: nat, bytes: seq<Byte>) returns (ok: bool)
      requires Conserved(S()) && AllSized(procs) && p in procs && OffsetOf(va) + |bytes| <= PGSIZE
      modifies this
      ensures Chunk(old(S()), S(), p, va, bytes, ok)
    {
      hide Users, Conserved, ExclusiveFor, View, Sizes, AllSized, Splice, Writable, SetPage, PageOf, OffsetOf;
      ViewOf(S());
      var v := PageOf(va);
      if v !in procs[p].pt || !procs[p].pt[v].flags.u { return false; }
      if procs[p].pt[v].flags.cow {
        ok := CopyCow(p, va, bytes);
      } else {
        CopyPlain(p, va, bytes);
        ok := true;
      }
    }

    method CopyCow(p: nat, va: nat, bytes: seq<Byte>) returns (ok: bool)
      requires Conserved(S()) && AllSized(procs) && p in procs && OffsetOf(va) + |bytes| <= PGSIZE
      requires UserPage(procs, p, PageOf(va)) && procs[p].pt[PageOf(va)].flags.cow
      modifies this
      ensures Chunk(old(S()), S(), p, va, bytes, ok)
    {
      hide Users, Conserved, ExclusiveFor, View, Sizes, AllSized, Splice, SetPage, PageOf, OffsetOf;
      ViewOf(S());
      var v := PageOf(va);
      AloneIfCountOne(S(), p, v);
      ghost var was := procs;
      var r := CowAlloc(p, v);
      OneChange(was, p, procs[p]);
      SameSizes(was, procs, p);
      if r.None? { return false; }
      WriteFrame(p, v, OffsetOf(va), bytes);
      ok := true;
    }

    method CopyPlain(p: nat, va: nat, bytes: seq<Byte>)
      requires Conserved(S()) && AllSized(procs) && p in procs && OffsetOf(va) + |bytes| <= PGSIZE
      requires UserPage(procs, p, PageOf(va)) && !procs[p].pt[PageOf(va)].flags.cow
      modifies this
      ensures Chunk(old(S()), S(), p, va, bytes, true)
    {
      hide Users, Conserved, ExclusiveFor, View, Sizes, AllSized, Splice, SetPage, PageOf, OffsetOf;
      ViewOf(S());
      var v := PageOf(va);
      AloneIfCountOne(S(), p, v);
      WriteFrame(p, v, OffsetOf(va), bytes);
    }

    /** copyout.  `n` is how many bytes were copied, and `states` what it went through. */
    method CopyOut(p: nat, dstva: nat, src: seq<Byte>) returns (ok: bool, n: nat, ghost states: seq<Vm>)
      requires Good(S()) && p in procs
      modifies this
      ensures |states| > 0 && states[0] == old(S()) && states[|states| - 1] == S()
              && CopyRun(states, p, dstva, src, ok, n)
      ensures Conserved(S()) && AllSized(procs)
      ensures CopyOutSafe(old(procs), old(refs), |old(free)|, p, dstva, |src|) ==>
                Agrees(old(S()), S(), p, dstva, src, n)
    {
      hide Users, Conserved, Exclusive, View, Sizes, AllSized, CopyOutSafe, Chunk, Agrees;
      n, states := 0, [S()];
      ok := true;
      while n < |src|
        invariant n <= |src| && |states| > 0 && states[0] == old(S()) && states[|states| - 1] == S()
        invariant ok && CopyPart(states, p, dstva, src, n) && Conserved(S()) && AllSized(procs) && p in procs
      {
        var m := ChunkLength(dstva + n, |src| - n);
        ok := CopyChunk(p, dstva + n, src[n..n + m]);
        ghost var before := states;
        states := states + [S()];
        assert states[..|states| - 1] == before;
        ChunkKeeps(before[|before| - 1], S(), p, dstva + n, src[n..n + m], ok);
        if !ok { break; }
        assert Follows(before[|before| - 1], S(), p, dstva, src, n, n + m);
        n := n + m;
      }
      if CopyOutSafe(old(procs), old(refs), |old(free)|, p, dstva, |src|) { SafeAgrees(states, p, dstva, src, ok, n); }
    }

    /** growproc(n) when it grows. */
    method Sbrk(p: nat, n: nat) returns (ok: bool)
      requires Good(S()) && p in procs
      modifies this
      ensures Good(S()) && held == old(held)
      ensures EagerOf(S()) == if ok then EagerStep(old(EagerOf(S())), OpGrow(p, n), Done) else old(EagerOf(S()))
      ensures ok <==> CanGrow(old(procs), |old(free)|, p, n)
      ensures ok ==>
                forall a: nat :: old(procs)[p].sz <= a < old(procs)[p].sz + n && PageOf(a) !in old(procs)[p].pt ==>
                  ByteAt(View(S()), p, a) == Some(0) && MayStore(View(S()), p, a)
    {
      hide Users, Conserved, ExclusiveFor, View, Sizes, AllSized, Range, EagerGrow, ByteAt, MayStore;
      SizedOne(procs, p);
      SizesOf(S(), p);
      NewMemory(S(), p, n);
      ghost var was := procs;
      var newsz := procs[p].sz + n;
      ok := UvmAlloc(p, newsz, HeapFlags);
      OneChange(was, p, procs[p]);
      if ok {
        SetSz(p, newsz);
        OneChange(was, p, procs[p]);
        SetSize(was, procs, p);
      } else {
        SameSizes(was, procs, p);
      }
    }

    /** growproc(-n): uvmdealloc, and nothing at all when the size would wrap below zero. */
    method Shrink(p: nat, n: nat)
      requires Good(S()) && p in procs && n > 0
      modifies this
      ensures Good(S()) && held == old(held)
      ensures EagerOf(S()) == EagerStep(old(EagerOf(S())), OpGrow(p, 0 - n), Done)
    {
      hide Users, Conserved, ExclusiveFor, View, Sizes, AllSized, Range, PagesOf;
      SizedOne(procs, p);
      SizesOf(S(), p);
      if procs[p].sz < n { return; }
      ghost var was := procs;
      var newsz := procs[p].sz - n;
      var lo, hi := PagesOf(newsz), PagesOf(procs[p].sz);
      PagesMonotone(newsz, procs[p].sz);
      ShrinkKeys(lo, hi);
      UvmUnmap(p, lo, hi - lo);
      SetSz(p, newsz);
      OneChange(was, p, procs[p]);
      SetSize(was, procs, p);
    }

    /** One operation of one process; one by a process that does not exist does nothing. */
    method Do(op: Op) returns (out: Outcome)
      requires Good(S())
      modifies this
      ensures Conserved(S())
      ensures (op.OpCopyOut? && op.p in old(procs) && !old(procs)[op.p].dead ==>
                 CopyOutSafe(old(procs), old(refs), |old(free)|, op.p, op.va, |op.src|)) ==>
                Good(S()) && StepOk(old(S()), S(), op, out) && EagerOf(S()) == EagerStep(old(EagerOf(S())), op, out)
    {
      hide Users, Conserved, Exclusive, View, Sizes, AllSized, Range, CopyOutSafe, EagerCopy, EagerSbrk;
      hide StoreSurvives, Cost, ForkCost, CopyRun, Mirrors, UserPage;
      ViewOf(S());
      if op.p !in procs || procs[op.p].dead != op.OpReap? || (op.OpFork? && op.c in procs) { return Failed; }
      SizesOf(S(), op.p);
      match op
      case OpFork(p, c) =>
        var ok := Fork(p, c);
        out := if ok then Done else Failed;
      case OpStore(p, va, b) =>
        var killed := Store(p, va, b);
        out := if killed then Killed else Done;
      case OpCopyOut(p, va, src) =>
        var ok, n;
        ghost var states;
        ok, n, states := CopyOut(p, va, src);
        out := Copied(n);
      case OpGrow(p, n) =>
        if n >= 0 {
          var ok := Sbrk(p, n);
          out := if ok then Done else Failed;
        } else {
          Shrink(p, -n);
          out := Done;
        }
      case OpExit(p) =>
        Exit(p);
        out := Done;
      case OpReap(p) =>
        SizedOne(procs, p);
        ReapSizes(procs, p);
        ghost var was := procs;
        Reap(p);
        StillAll(was, procs);
        out := Done;
    }

    /** Lazy fork refines eager fork, over any sequence of operations: the processes' memories are
        those of the machine that copies at fork.  The run stops only before a copyout that for some
        bytes would not be (UnsafeDisagrees). */
    method Run(ops: seq<Op>) returns (outs: seq<Outcome>, ghost states: seq<Vm>)
      requires Good(S())
      modifies this
      ensures Good(S()) && |outs| <= |ops|
      ensures EagerOf(S()) == EagerRun(old(EagerOf(S())), ops[..|outs|], outs)
      ensures |states| == |outs| + 1 && states[0] == old(S()) && states[|outs|] == S()
      ensures forall i :: 0 <= i < |outs| ==> StepOk(states[i], states[i + 1], ops[i], outs[i])
      ensures |outs| < |ops| ==>
                var op := ops[|outs|];
                && op.OpCopyOut? && op.p in procs && !procs[op.p].dead
                && !CopyOutSafe(procs, refs, |free|, op.p, op.va, |op.src|)
    {
      hide Good, EagerOf, EagerStep, CopyOutSafe, StepOk;
      outs, states := [], [S()];
      assert ops[..0] == [];
      for i := 0 to |ops|
        invariant Good(S()) && |outs| == i && EagerOf(S()) == EagerRun(old(EagerOf(S())), ops[..i], outs)
        invariant |states| == i + 1 && states[0] == old(S()) && states[i] == S()
        invariant forall k :: 0 <= k < i ==> StepOk(states[k], states[k + 1], ops[k], outs[k])
      {
        if !OpSafe(procs, refs, |free|, ops[i]) { return; }
        var out := Do(ops[i]);
        assert ops[..i + 1][..i] == ops[..i] && (outs + [out])[..i] == outs;
        outs, states := outs + [out], states + [S()];
      }
    }
  }

  /** What two processes may write and both map is COW, and counted twice. */
  lemma {:induction false} SharedIsCow(s: Vm, p: nat, c: nat, v: nat)
    requires Good(s) && p in s.procs && c in s.procs && p != c && v in s.procs[p].pt && v in s.procs[c].pt
    requires !s.procs[p].dead && s.procs[c].pt[v].frame == s.procs[p].pt[v].frame && p in View(s) && v in View(s)[p]
             && View(s)[p][v].writable
    ensures s.procs[p].pt[v].flags.cow && s.procs[p].pt[v].frame < |s.refs| && s.refs[s.procs[p].pt[v].frame] != 1
    ensures s.procs[p].pt[v].flags.u == View(s)[p][v].u
  {
    hide Conserved, AllSized, ExclusiveFor;
    AloneIfCountOne(s, p, v);
    assert Maps(s.procs[c], s.procs[p].pt[v].frame) && c in Users(s.procs, s.procs[p].pt[v].frame);
    if s.procs[p].pt[v].flags.w { AloneIfWritable(s, p, v); }
  }

  lemma {:induction false} SmallCosts()
    ensures |Downto(13)| == 13 && ForkCost(PGSIZE) == 6 && Splice(Filled(0), 0, []) == Filled(0)
  {
    NeedsLow();
    hide Need, DirsOf;
    assert PagesOf(PGSIZE) == 1;
    CostStep(DirsOf(TRAMPOLINE), 0, 1, 0);
    CostEnd(DirsOf(TRAMPOLINE) + DirsOf(0), 1, 0);
    DowntoLength(13);
  }

  lemma {:induction false} DowntoLength(n: nat)
    ensures |Downto(n)| == n
  {
    if n > 0 { DowntoLength(n - 1); }
  }

  /** After a fork parent and child have their pages in the same frames. */
  lemma {:induction false} SameFrame(s: Vm, p: nat, c: nat, v: nat)
    requires p in s.procs && c in s.procs && Mirrors(s.procs[c], s.procs[p]) && c in View(s) && v in View(s)[c]
    ensures v in s.procs[c].pt && v in s.procs[p].pt && s.procs[c].pt[v].frame == s.procs[p].pt[v].frame
  {
    ViewOf(s);
  }

  /** Thirteen frames, all used up by the first process and its child.  The first process's copyout fails for want of
      memory and leaves its page writable; its next store changes the child's memory. */
  method OutOfMemoryLeak() returns (k: Kernel, ghost before: Views)
    ensures fresh(k)
    ensures 1 in before && 0 in before[1] && before[1][0].data[0] == 0
    ensures 1 in View(k.S()) && 0 in View(k.S())[1] && View(k.S())[1][0].data[0] == 1
  {
    hide Conserved, Exclusive, AllSized, Sizes, View, Users, ForkCost, Downto, Splice, Mirrors, Filled, OthersKept;
    SmallCosts();
    k := new Kernel(seq(13, _ => Filled(0)));
    assert Filled(0)[0] == 0 by { FilledAt(); }
    ViewOf(k.S());
    k.UserInit(0, []);
    SizesOf(k.S(), 0);
    var ok := k.Fork(0, 1);
    assert ok && k.free == [];
    before := View(k.S());
    SizesOf(k.S(), 0);
    SameFrame(k.S(), 0, 1, 0);
    SharedIsCow(k.S(), 0, 1, 0);
    FirstPage();
    ghost var s1 := k.S();
    ok := k.CopyChunk(0, 0, [1]);
    assert ChunkUnsafe(s1, k.S(), 0, 0, [1], ok);
    assert k.procs[0] == SetFlags(s1.procs[0], 0, s1.procs[0].pt[0].flags.(w := true));
    assert !ok && k.procs[0].pt[0].flags.w;
    ghost var s := k.S();
    k.WriteFrame(0, 0, 0, [1]);
    LeakBytes(s, k.S(), 0, 0, 0, [1], 1, 0);
  }

  lemma {:induction false} FilledAt()
    ensures Filled(0)[0] == 0
  {
  }

  lemma {:induction false} FirstPage()
    ensures PageOf(0) == 0 && OffsetOf(0) == 0
  {
  }
}
