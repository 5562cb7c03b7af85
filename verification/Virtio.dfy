/**
 * The virtio request ring of kernel/virtio_disk.c (split virtqueues, section 2.6 of VIRTIO 1.1, and
 * block requests, section 5.2): descriptors, the available and the used ring, any number of
 * processes in virtio_disk_rw, the interrupt handler, and a device that takes its steps in between.
 *
 * vdisk_lock lets one process or the handler run at a time; the device needs no lock.
 */
module Virtio {

  datatype Option<T> = None | Some(value: T)

  const NUM: nat := 8
  const UINT16: nat := 0x1_0000

  const UINT32: nat := 0x1_0000_0000
  const BSIZE: nat := 1024
  const SECTOR: nat := 512

  /** What a buffer holds, and what a sector of the device holds: bytes. */
  type Content = s: seq<nat> | |s| == BSIZE witness seq(BSIZE, _ => 0)
  type Half = s: seq<nat> | |s| == SECTOR witness seq(SECTOR, _ => 0)

  /** A block number whose sectors a uint can number. */
  type BlockNo = n: nat | n < 0x8000_0000

  /** A ring index is a uint16 that runs on; its slot is the index modulo NUM. */
  function SlotOf(i: nat): (k: nat)
    ensures k < NUM
  {
    i % NUM
  }

  function Inc(i: nat): (r: nat)
    ensures r < UINT16
  {
    (i + 1) % UINT16
  }

  // ---------------------------------------------------------------- the shared memory

  /** What a descriptor can point at. */
  datatype Addr = Null | OpAt(i: nat) | DataAt(b: nat) | StatusAt(i: nat)

  datatype Desc = Desc(addr: Addr, len: nat, next: nat, chained: bool, deviceWrites: bool)

  /** virtio_blk_req */
  datatype Op = Op(write: bool, sector: nat)

  datatype Info = Info(b: Option<nat>, status: nat)

  /** struct buf; busy is b->disk. */
  datatype Buf = Buf(busy: bool, blockno: BlockNo, data: Content)

  // ---------------------------------------------------------------- the code, as places in it

  datatype At =
    | Have         // alloc3_desc has succeeded
    | Formatted    // the descriptors and info are filled in, b->disk = 1
    | Placed       // avail->ring has the head
    | Waiting      // avail->idx is bumped; at while(b->disk == 1)
    | Asleep       // in sleep(b)
    | Done         // the loop has ended

  datatype Pc =
    | Idle
    | Want(b: nat, w: bool)        // at alloc3_desc
    | Sleepy(b: nat, w: bool)      // in sleep(&disk.free[0])
    | Req(at: At, b: nat, w: bool, i0: nat, i1: nat, i2: nat)

  datatype Holder = Proc(p: nat) | Handler

  datatype State = State(
    free: seq<bool>, desc: seq<Desc>, ops: seq<Op>, info: seq<Info>,
    avail: seq<nat>, availIdx: nat, used: seq<nat>, usedIdx: nat, usedSeen: nat,
    lock: Option<Holder>, pc: seq<Pc>, bufs: seq<Buf>,
    devIdx: nat, disk: map<nat, Half>,        // by sector
    ghostly: Ghost)

  /** Where a request is between avail->idx and the handler. */
  datatype Stage = Queued | Taken | Performed | Returned

  /** History: the requests in flight, in what order the rings hold them, whose each descriptor is,
      what the device did for each process, and what its buffer held when it called. */
  datatype Ghost = Ghost(
    flight: map<nat, Stage>, queue: seq<nat>, back: seq<nat>, own: map<nat, Role>,
    result: seq<Option<Content>>, asked: seq<Content>)

  /** Descriptor k of the chain of process p. */
  datatype Role = Role(p: nat, k: nat)

  function Index(pc: Pc, k: nat): nat
    requires pc.Req? && k < 3
  {
    if k == 0 then pc.i0 else if k == 1 then pc.i1 else pc.i2
  }

  // ---------------------------------------------------------------- allocation

  /** The first free descriptor, if any. */
  function FirstFree(free: seq<bool>): (i: nat)
    ensures i <= |free| && (i < |free| ==> free[i]) && forall j :: 0 <= j < i ==> !free[j]
  {
    if free == [] then 0 else if free[0] then 0 else 1 + FirstFree(free[1..])
  }

  function Claimed(free: seq<bool>): (r: seq<bool>)
    requires FirstFree(free) < |free|
    ensures |r| == |free|
  {
    free[FirstFree(free) := false]
  }

  /** alloc3_desc finds three. */
  predicate Has3(free: seq<bool>) {
    && FirstFree(free) < |free|
    && FirstFree(Claimed(free)) < |free|
    && FirstFree(Claimed(Claimed(free))) < |free|
  }

  /** Descriptors a, b and c marked free or not. */
  function Mark3(free: seq<bool>, a: nat, b: nat, c: nat, v: bool): (r: seq<bool>)
    requires a < |free| && b < |free| && c < |free|
    ensures |r| == |free| && forall j :: 0 <= j < |free| ==> r[j] == if j == a || j == b || j == c then v else free[j]
  {
    free[a := v][b := v][c := v]
  }

  // ---------------------------------------------------------------- the chain of a request

  /** The descriptors from h on, as the device and free_chain follow them, at most n. */
  function Follow(desc: seq<Desc>, h: nat, n: nat): (r: seq<nat>)
    decreases n
  {
    if n == 0 || h >= |desc| then [] else [h] + if desc[h].chained then Follow(desc, desc[h].next, n - 1) else []
  }

  function FormatDesc(desc: seq<Desc>, c: Pc): (r: seq<Desc>)
    requires c.Req? && c.i0 < |desc| && c.i1 < |desc| && c.i2 < |desc|
    ensures |r| == |desc|
  {
    desc[c.i0 := Desc(OpAt(c.i0), 16, c.i1, true, false)][c.i1 := Desc(DataAt(c.b), BSIZE, c.i2, true, !c.w)]
        [c.i2 := Desc(StatusAt(c.i0), 1, 0, false, true)]
  }

  const NODESC: Desc := Desc(Null, 0, 0, false, false)

  /** free_desc on each descriptor of a list. */
  function FreedDesc(desc: seq<Desc>, chain: seq<nat>): (r: seq<Desc>)
    ensures |r| == |desc|
  {
    seq(|desc|, j requires 0 <= j < |desc| => if j in chain then NODESC else desc[j])
  }

  function FreedMarks(free: seq<bool>, chain: seq<nat>): (r: seq<bool>)
    ensures |r| == |free|
  {
    seq(|free|, j requires 0 <= j < |free| => if j in chain then true else free[j])
  }

  /** b->blockno * (BSIZE / 512), a product of uints. */
  function Sector(blockno: nat): nat {
    blockno * (BSIZE / 512) % UINT32
  }

  /** The product is the sector at which the block begins for exactly the block numbers below 2^31. */
  lemma {:induction false} SectorExactly(blockno: nat)
    requires blockno < UINT32
    ensures Sector(blockno) * SECTOR == blockno * BSIZE <==> blockno < 0x8000_0000
  {
  }

  // ---------------------------------------------------------------- steps

  datatype Step =
    | Begin(p: nat, b: nat, w: bool) | Alloc(p: nat) | Retry(p: nat) | Format(p: nat) | Put(p: nat) | Bump(p: nat)
    | Check(p: nat) | Wake(p: nat) | Reclaim(p: nat)
    | Enter | Next | Leave                          // virtio_disk_intr
    | DevTake | DevIo(h: nat) | DevReturn(h: nat)   // the device
    | Change(b: nat, blockno: BlockNo, data: Content)   // by the owner of a buffer, between requests

  predicate PcOk(n: nat, pc: Pc) {
    match pc
    case Idle => true
    case Want(b, _) => b < n
    case Sleepy(b, _) => b < n
    case Req(_, b, _, i0, i1, i2) => b < n && i0 < NUM && i1 < NUM && i2 < NUM
  }

  ghost predicate Shape(s: State) {
    && |s.free| == |s.desc| == |s.ops| == |s.info| == |s.avail| == |s.used| == NUM
    && |s.ghostly.result| == |s.ghostly.asked| == |s.pc|
    && (forall p :: 0 <= p < |s.pc| ==> PcOk(|s.bufs|, s.pc[p]))
    && (forall i :: 0 <= i < NUM ==>
          s.avail[i] < NUM && s.used[i] < NUM && (s.info[i].b.Some? ==> s.info[i].b.value < |s.bufs|))
    && (forall i :: i in s.ghostly.own ==> s.ghostly.own[i].p < |s.pc|)
    && (forall h :: h in s.ghostly.flight ==> h in s.ghostly.own && h < NUM)
    && s.availIdx < UINT16 && s.usedIdx < UINT16 && s.usedSeen < UINT16 && s.devIdx < UINT16
  }

  /** Process p, holding the lock, at a place in its request. */
  predicate Runs(s: State, p: nat, at: At) {
    p < |s.pc| && s.lock == Some(Proc(p)) && s.pc[p].Req? && s.pc[p].at == at
  }

  ghost predicate Enabled(s: State, t: Step)
    requires Shape(s)
  {
    match t
    case Begin(p, b, w) =>        // the caller holds the sleep-lock of b, the one buffer of its block
      && p < |s.pc| && s.lock == None && s.pc[p].Idle? && b < |s.bufs| && Unused(s.pc, b)
      && forall q :: 0 <= q < |s.pc| ==> s.pc[q].Idle? || s.bufs[s.pc[q].b].blockno != s.bufs[b].blockno
    case Alloc(p) => p < |s.pc| && s.lock == Some(Proc(p)) && s.pc[p].Want?
    case Retry(p) => p < |s.pc| && s.lock == None && s.pc[p].Sleepy?
    case Format(p) => Runs(s, p, Have)
    case Put(p) => Runs(s, p, Formatted)
    case Bump(p) => Runs(s, p, Placed)
    case Check(p) => Runs(s, p, Waiting)
    case Wake(p) => p < |s.pc| && s.lock == None && s.pc[p].Req? && s.pc[p].at == Asleep
    case Reclaim(p) => Runs(s, p, Done)
    case Enter => s.lock == None
    case Next => s.lock == Some(Handler) && s.usedSeen != s.usedIdx
    case Leave => s.lock == Some(Handler) && s.usedSeen == s.usedIdx
    case DevTake => s.devIdx != s.availIdx
    case DevIo(h) => h in s.ghostly.flight && s.ghostly.flight[h] == Taken
    case DevReturn(h) => h in s.ghostly.flight && s.ghostly.flight[h] == Performed
    case Change(b, _, _) => b < |s.bufs| && Unused(s.pc, b)
  }

  /** No process is in virtio_disk_rw with buffer b. */
  ghost predicate Unused(pc: seq<Pc>, b: nat) {
    forall q :: 0 <= q < |pc| ==> pc[q].Idle? || pc[q].b != b
  }

  function Moved(pc: seq<Pc>, p: nat, at: At): (r: seq<Pc>)
    requires p < |pc| && pc[p].Req?
    ensures |r| == |pc|
  {
    pc[p := Req(at, pc[p].b, pc[p].w, pc[p].i0, pc[p].i1, pc[p].i2)]
  }

  function Busy(bufs: seq<Buf>, b: nat, v: bool): (r: seq<Buf>)
    requires b < |bufs|
    ensures |r| == |bufs|
  {
    bufs[b := Buf(v, bufs[b].blockno, bufs[b].data)]
  }

  ghost function Apply(s: State, t: Step): State
    requires Shape(s) && Enabled(s, t)
  {
    match t
    case Begin(p, b, w) =>
      s.(pc := s.pc[p := Want(b, w)], lock := Some(Proc(p)),
         ghostly := s.ghostly.(asked := s.ghostly.asked[p := s.bufs[b].data]))
    case Alloc(p) => ApplyAlloc(s, p)
    case Retry(p) => s.(pc := s.pc[p := Want(s.pc[p].b, s.pc[p].w)], lock := Some(Proc(p)))
    case Format(p) => ApplyFormat(s, p)
    case Put(p) => s.(avail := s.avail[SlotOf(s.availIdx) := s.pc[p].i0], pc := Moved(s.pc, p, Placed))
    case Bump(p) =>
      s.(availIdx := Inc(s.availIdx), pc := Moved(s.pc, p, Waiting),
         ghostly := s.ghostly.(flight := s.ghostly.flight[s.pc[p].i0 := Queued],
             queue := s.ghostly.queue + [s.pc[p].i0]))
    case Check(p) =>
      if s.bufs[s.pc[p].b].busy then s.(lock := None, pc := Moved(s.pc, p, Asleep)) else s.(pc := Moved(s.pc, p, Done))
    case Wake(p) => s.(lock := Some(Proc(p)), pc := Moved(s.pc, p, Waiting))
    case Reclaim(p) => ApplyReclaim(s, p)
    case Enter => s.(lock := Some(Handler))
    case Next => ApplyNext(s)
    case Leave => s.(lock := None)
    case DevTake => ApplyTake(s)
    case DevIo(h) => ApplyIo(s, h)
    case DevReturn(h) =>
      s.(used := s.used[SlotOf(s.usedIdx) := h], usedIdx := Inc(s.usedIdx),
         ghostly := s.ghostly.(flight := s.ghostly.flight[h := Returned], back := s.ghostly.back + [h]))
    case Change(b, blockno, data) => s.(bufs := s.bufs[b := Buf(s.bufs[b].busy, blockno, data)])
  }

  /** alloc3_desc: three descriptors, or none and sleep. */
  ghost function ApplyAlloc(s: State, p: nat): State
    requires Shape(s) && p < |s.pc| && s.pc[p].Want?
  {
    if Has3(s.free) then
      var i0, i1, i2 := FirstFree(s.free), FirstFree(Claimed(s.free)), FirstFree(Claimed(Claimed(s.free)));
      s.(free := Mark3(s.free, i0, i1, i2, false), pc := s.pc[p := Req(Have, s.pc[p].b, s.pc[p].w, i0, i1, i2)],
         ghostly := s.ghostly.(own := s.ghostly.own[i0 := Role(p, 0)][i1 := Role(p, 1)][i2 := Role(p, 2)]))
    else s.(lock := None, pc := s.pc[p := Sleepy(s.pc[p].b, s.pc[p].w)])
  }

  ghost function ApplyFormat(s: State, p: nat): State
    requires Shape(s) && p < |s.pc| && s.pc[p].Req?
  {
    var c := s.pc[p];
    s.(ops := s.ops[c.i0 := Op(c.w, Sector(s.bufs[c.b].blockno))], desc := FormatDesc(s.desc, c),
       info := s.info[c.i0 := Info(Some(c.b), 0xff)], bufs := Busy(s.bufs, c.b, true), pc := Moved(s.pc, p, Formatted),
       ghostly := s.ghostly.(result := s.ghostly.result[p := None]))
  }

  ghost function ApplyReclaim(s: State, p: nat): State
    requires Shape(s) && p < |s.pc| && s.pc[p].Req?
  {
    var c := s.pc[p];
    var chain := Follow(s.desc, c.i0, NUM);
    s.(info := s.info[c.i0 := Info(None, s.info[c.i0].status)], desc := FreedDesc(s.desc, chain),
        free := FreedMarks(s.free, chain),
       lock := None, pc := s.pc[p := Idle], ghostly := s.ghostly.(own := s.ghostly.own - set i | i in chain))
  }

  ghost function ApplyNext(s: State): State
    requires Shape(s)
  {
    var id := s.used[SlotOf(s.usedSeen)];
    s.(bufs := if s.info[id].b.Some? then Busy(s.bufs, s.info[id].b.value, false) else s.bufs,
       usedSeen := Inc(s.usedSeen),
       ghostly := s.ghostly.(flight := s.ghostly.flight - {id}, back := if s.ghostly.back == [] then []
           else s.ghostly.back[1..]))
  }

  ghost function ApplyTake(s: State): State
    requires Shape(s)
  {
    var h := s.avail[SlotOf(s.devIdx)];
    s.(devIdx := Inc(s.devIdx),
       ghostly := s.ghostly.(flight := s.ghostly.flight[h := Taken], queue := if s.ghostly.queue == [] then []
           else s.ghostly.queue[1..]))
  }

  /** What the device reads from the chain of h: the request, the buffer and the status cell. */
  predicate Readable(s: State, h: nat) {
    var chain := Follow(s.desc, h, NUM);
    && |chain| == 3 && |s.desc| == |s.ops| == |s.info|
    && (forall k :: 0 <= k < 3 ==> chain[k] < |s.desc|)
    && s.desc[chain[0]].addr.OpAt? && s.desc[chain[0]].addr.i < |s.ops|
    && s.desc[chain[1]].addr.DataAt? && s.desc[chain[1]].addr.b < |s.bufs|
    && s.desc[chain[2]].addr.StatusAt? && s.desc[chain[2]].addr.i < |s.info|
    && s.desc[chain[0]].len == 16 && s.desc[chain[1]].len == BSIZE && s.desc[chain[2]].len == 1
    && s.desc[chain[1]].deviceWrites == !s.ops[s.desc[chain[0]].addr.i].write && s.desc[chain[2]].deviceWrites
  }

  function SectorAt(disk: map<nat, Half>, x: nat): Half {
    if x in disk then disk[x] else seq(SECTOR, _ => 0)
  }

  /** The device moves two sectors, which begin at x. */
  function ReadSectors(disk: map<nat, Half>, x: nat): Content {
    SectorAt(disk, x) + SectorAt(disk, x + 1)
  }

  function WriteSectors(disk: map<nat, Half>, x: nat, data: Content): map<nat, Half> {
    disk[x := data[..SECTOR]][x + 1 := data[SECTOR..]]
  }

  /** The disk holds this data as the given block: in sectors 2 * block and 2 * block + 1. */
  ghost predicate Holds(disk: map<nat, Half>, block: nat, data: Content) {
    SectorAt(disk, 2 * block) == data[..SECTOR] && SectorAt(disk, 2 * block + 1) == data[SECTOR..]
  }

  lemma {:induction false} TransferHolds(disk: map<nat, Half>, block: BlockNo, data: Content)
    ensures Holds(disk, block, ReadSectors(disk, Sector(block)))
    ensures Holds(WriteSectors(disk, Sector(block), data), block, data)
    ensures forall x: nat :: x != 2 * block && x != 2 * block + 1 ==>
              SectorAt(WriteSectors(disk, Sector(block), data), x) == SectorAt(disk, x)
  {
    assert Sector(block) == 2 * block;
    hide Sector;
  }

  /** The device carries out the request of head h: it goes by the descriptors alone. */
  ghost function ApplyIo(s: State, h: nat): State
    requires Shape(s) && h in s.ghostly.flight
  {
    if Readable(s, h) then
      var chain := Follow(s.desc, h, NUM);
      var op, b, cell := s.ops[s.desc[chain[0]].addr.i], s.desc[chain[1]].addr.b, s.desc[chain[2]].addr.i;
      var x := if op.write then s.bufs[b].data else ReadSectors(s.disk, op.sector);
      s.(disk := if op.write then WriteSectors(s.disk, op.sector, x) else s.disk,
         bufs := s.bufs[b := Buf(s.bufs[b].busy, s.bufs[b].blockno, x)],
         info := s.info[cell := Info(s.info[cell].b, 0)],
         ghostly := s.ghostly.(flight := s.ghostly.flight[h := Performed],
             result := s.ghostly.result[s.ghostly.own[h].p := Some(x)]))
    else s
  }

  // ---------------------------------------------------------------- the invariant

  ghost predicate RoleOk(pc: seq<Pc>, own: map<nat, Role>, i: nat)
    requires i in own
  {
    i < NUM && own[i].p < |pc| && own[i].k < 3 && pc[own[i].p].Req? && Index(pc[own[i].p], own[i].k) == i
  }

  ghost predicate ChainOk(pc: seq<Pc>, own: map<nat, Role>, p: nat)
    requires p < |pc|
  {
    pc[p].Req? ==> forall k: nat :: k < 3 ==> Index(pc[p], k) in own && own[Index(pc[p], k)] == Role(p, k)
  }

  /** Every descriptor is free or in exactly one place of one chain. */
  ghost predicate Chains(free: seq<bool>, pc: seq<Pc>, own: map<nat, Role>) {
    && |free| == NUM
    && (forall p :: 0 <= p < |pc| ==> ChainOk(pc, own, p))
    && (forall i :: i in own ==> RoleOk(pc, own, i))
    && (forall i :: 0 <= i < NUM ==> (free[i] <==> i !in own))
  }

  /** The descriptors and info of a request are as virtio_disk_rw wrote them. */
  ghost predicate FormatOk(c: Pc, desc: seq<Desc>, ops: seq<Op>, info: seq<Info>, bufs: seq<Buf>)
    requires |desc| == |ops| == |info| == NUM && PcOk(|bufs|, c) && c.Req?
  {
    && desc[c.i0] == Desc(OpAt(c.i0), 16, c.i1, true, false)
    && desc[c.i1] == Desc(DataAt(c.b), BSIZE, c.i2, true, !c.w)
    && desc[c.i2] == Desc(StatusAt(c.i0), 1, 0, false, true)
    && ops[c.i0] == Op(c.w, Sector(bufs[c.b].blockno)) && info[c.i0].b == Some(c.b)
  }

  ghost predicate Formats(s: State)
    requires Shape(s)
  {
    forall p :: 0 <= p < |s.pc| && s.pc[p].Req? && s.pc[p].at != Have ==>
          FormatOk(s.pc[p], s.desc, s.ops, s.info, s.bufs)
  }

  /** No two processes use one buffer. */
  ghost predicate Exclusive(pc: seq<Pc>) {
    forall p, q :: 0 <= p < q < |pc| && !pc[p].Idle? && !pc[q].Idle? ==> pc[p].b != pc[q].b
  }

  predicate Inside(pc: Pc) {
    pc.Want? || (pc.Req? && pc.at != Asleep)
  }

  /** The process inside the critical section is the one that holds the lock. */
  ghost predicate Held(lock: Option<Holder>, pc: seq<Pc>) {
    forall p :: 0 <= p < |pc| ==> (Inside(pc[p]) <==> lock == Some(Proc(p)))
  }

  predicate Waits(pc: Pc) {
    pc.Req? && (pc.at == Waiting || pc.at == Asleep)
  }

  ghost predicate BusyOk(c: Pc, bufs: seq<Buf>, flight: map<nat, Stage>)
    requires PcOk(|bufs|, c)
  {
    match c
    case Req(at, b, _, i0, _, _) =>
      && (at == Formatted || at == Placed ==> bufs[b].busy)
      && (at == Done ==> !bufs[b].busy)
      && (Waits(c) ==> (bufs[b].busy <==> i0 in flight))
    case _ => true
  }

  /** The requests in flight are those of waiting processes whose buffer is busy. */
  ghost predicate Flight(s: State)
    requires Shape(s)
  {
    && (forall h :: h in s.ghostly.flight ==> s.ghostly.own[h].k == 0 && Waits(s.pc[s.ghostly.own[h].p]))
    && (forall p :: 0 <= p < |s.pc| ==> BusyOk(s.pc[p], s.bufs, s.ghostly.flight))
  }

  ghost predicate Distinct(q: seq<nat>) {
    forall i, j :: 0 <= i < j < |q| ==> q[i] != q[j]
  }

  ghost predicate Listed(flight: map<nat, Stage>, q: seq<nat>, at: Stage) {
    && Distinct(q)
    && (forall k :: 0 <= k < |q| ==> q[k] in flight && flight[q[k]] == at)
    && (forall h :: h in flight && flight[h] == at ==> h in q)
  }

  /** Slots i, i + 1, ... of a ring hold q, and the index to come after them is end. */
  ghost predicate RingOk(ring: seq<nat>, i: nat, end: nat, q: seq<nat>) {
    |ring| == NUM && end == (i + |q|) % UINT16 && forall k :: 0 <= k < |q| ==> ring[SlotOf(i + k)] == q[k]
  }

  ghost predicate Rings(s: State)
    requires Shape(s)
  {
    && RingOk(s.avail, s.devIdx, s.availIdx, s.ghostly.queue) && RingOk(s.used, s.usedSeen, s.usedIdx, s.ghostly.back)
    && (forall p :: 0 <= p < |s.pc| && s.pc[p].Req? && s.pc[p].at == Placed ==>
          s.avail[SlotOf(s.availIdx)] == s.pc[p].i0)
  }

  ghost predicate ServedOk(c: Pc, bufs: seq<Buf>, flight: map<nat, Stage>, info: seq<Info>, result: Option<Content>)
    requires PcOk(|bufs|, c) && |info| == NUM
  {
    && (c.Req? && (c.at == Formatted || c.at == Placed) ==> result == None)
    && (Waits(c) || (c.Req? && c.at == Done) ==>
      if c.i0 in flight && (flight[c.i0] == Queued || flight[c.i0] == Taken) then result == None
      else result == Some(bufs[c.b].data) && info[c.i0].status == 0)
  }

  /** What the device did for a request is in its buffer, and the status says so. */
  ghost predicate Served(s: State)
    requires Shape(s)
  {
    forall p :: 0 <= p < |s.pc| ==> ServedOk(s.pc[p], s.bufs, s.ghostly.flight, s.info, s.ghostly.result[p])
  }

  ghost predicate Inv(s: State) {
    && Shape(s) && Chains(s.free, s.pc, s.ghostly.own) && Formats(s) && Exclusive(s.pc) && Held(s.lock, s.pc)
        && Flight(s)
    && Listed(s.ghostly.flight, s.ghostly.queue, Queued) && Listed(s.ghostly.flight, s.ghostly.back, Returned)
    && Rings(s) && Served(s)
  }

  // ---------------------------------------------------------------- what the invariant gives

  lemma {:induction false} ChainAt(free: seq<bool>, pc: seq<Pc>, own: map<nat, Role>, p: nat)
    requires Chains(free, pc, own) && p < |pc| && pc[p].Req?
    ensures var c := pc[p];
            && c.i0 in own && own[c.i0] == Role(p, 0) && c.i1 in own && own[c.i1] == Role(p, 1) && c.i2 in own
                && own[c.i2] == Role(p, 2)
            && c.i0 < NUM && c.i1 < NUM && c.i2 < NUM && !free[c.i0] && !free[c.i1] && !free[c.i2]
  {
    assert ChainOk(pc, own, p);
    var c := pc[p];
    assert Index(c, 0) == c.i0 && Index(c, 1) == c.i1 && Index(c, 2) == c.i2;
    assert RoleOk(pc, own, c.i0) && RoleOk(pc, own, c.i1) && RoleOk(pc, own, c.i2);
  }

  /** The chain read back from the descriptors of a formatted request. */
  lemma {:induction false} ChainRead(c: Pc, desc: seq<Desc>, ops: seq<Op>, info: seq<Info>, bufs: seq<Buf>)
    requires |desc| == |ops| == |info| == NUM && PcOk(|bufs|, c) && c.Req? && FormatOk(c, desc, ops, info, bufs)
    ensures Follow(desc, c.i0, NUM) == [c.i0, c.i1, c.i2]
  {
    assert Follow(desc, c.i2, NUM - 2) == [c.i2];
    assert Follow(desc, c.i1, NUM - 1) == [c.i1] + Follow(desc, c.i2, NUM - 2);
    assert Follow(desc, c.i0, NUM) == [c.i0] + Follow(desc, c.i1, NUM - 1);
  }

  /** A request in flight belongs to a waiting process, which is its head. */
  lemma {:induction false} HeadOf(s: State, h: nat)
    requires Inv(s) && h in s.ghostly.flight
    ensures var p := s.ghostly.own[h].p;
            p < |s.pc| && Waits(s.pc[p]) && s.pc[p].i0 == h && s.ghostly.own[h] == Role(p, 0) && s.bufs[s.pc[p].b].busy
  {
    assert RoleOk(s.pc, s.ghostly.own, h);
    var p := s.ghostly.own[h].p;
    assert BusyOk(s.pc[p], s.bufs, s.ghostly.flight);
    hide Formats, Rings, Served, Chains, Exclusive, Held, Listed;
  }

  /** At most NUM distinct descriptors. */
  lemma {:induction false} Pigeons(q: seq<nat>, n: nat)
    requires Distinct(q) && forall k :: 0 <= k < |q| ==> q[k] < n
    ensures |q| <= n
    decreases n
  {
    assert |q| > 0 ==> q[0] < n;
    if n > 0 {
      if k :| 0 <= k < |q| && q[k] == n - 1 {
        var r := q[..k] + q[k + 1..];
        assert forall j :: 0 <= j < |r| ==> r[j] == q[if j < k then j else j + 1];
        Pigeons(r, n - 1);
      } else {
        Pigeons(q, n - 1);
      }
    }
  }

  lemma {:induction false} RoomFor(flight: map<nat, Stage>, q: seq<nat>, at: Stage, h: nat)
    requires Listed(flight, q, at) && h < NUM && h !in q && forall x :: x in flight ==> x < NUM
    ensures |q| < NUM
  {
    var r := q + [h];
    assert Distinct(r);
    Pigeons(r, NUM);
  }

  // ---------------------------------------------------------------- every step keeps the shape

  lemma {:induction false} ShapeAlloc(s: State, p: nat)
    requires Shape(s) && p < |s.pc| && s.pc[p].Want?
    ensures Shape(ApplyAlloc(s, p))
  {
    hide Has3, FirstFree, Mark3;
    if Has3(s.free) { ThreeFree(s.free); }
  }

  lemma {:induction false} ShapeFormat(s: State, p: nat)
    requires Shape(s) && p < |s.pc| && s.pc[p].Req?
    ensures Shape(ApplyFormat(s, p))
  {
    hide FormatDesc;
  }

  lemma {:induction false} ShapeReclaim(s: State, p: nat)
    requires Inv(s) && p < |s.pc| && s.pc[p].Req? && s.pc[p].at == Done
    ensures Shape(ApplyReclaim(s, p))
  {
    hide Formats, Rings, Served, Chains, Exclusive, Held, Flight, Listed, Follow, FreedDesc, FreedMarks;
    NotInFlight(s, p);
    DoneChain(s, p);
  }

  lemma {:induction false} ShapeIo(s: State, h: nat)
    requires Shape(s) && h in s.ghostly.flight
    ensures Shape(ApplyIo(s, h))
  {
    hide Follow;
  }

  lemma {:induction false} ShapeTake(s: State)
    requires Inv(s) && s.devIdx != s.availIdx
    ensures Shape(ApplyTake(s))
  {
    hide Formats, Rings, Served, Chains, Exclusive, Held, Flight, Listed, SlotOf, Inc;
    AvailHead(s);
  }

  lemma {:induction false} ShapeKept(s: State, t: Step)
    requires Inv(s) && Enabled(s, t)
    ensures Shape(Apply(s, t))
  {
    hide Formats, Rings, Served, Chains, Exclusive, Held, Flight, Listed, Shape, SlotOf, Inc, Unused;
    hide ApplyAlloc, ApplyFormat, ApplyReclaim, ApplyIo, ApplyTake, ApplyNext;
    match t
    case Alloc(p) => ShapeAlloc(s, p);
    case Format(p) => ShapeFormat(s, p);
    case Reclaim(p) => ShapeReclaim(s, p);
    case DevTake => ShapeTake(s);
    case DevIo(h) => ShapeIo(s, h);
    case Bump(p) => ShapeBump(s, p);
    case _ => ShapeRest(s, t);
  }

  lemma {:induction false} ShapeBump(s: State, p: nat)
    requires Inv(s) && Enabled(s, Bump(p))
    ensures Shape(Apply(s, Bump(p)))
  {
    hide Formats, Rings, Served, Chains, Exclusive, Held, Flight, Listed, SlotOf, Inc;
    ChainAt(s.free, s.pc, s.ghostly.own, p);
  }

  lemma {:induction false} ShapeRest(s: State, t: Step)
    requires Shape(s) && Enabled(s, t) && !t.Alloc? && !t.Format? && !t.Reclaim? && !t.DevTake? && !t.DevIo? && !t.Bump?
    ensures Shape(Apply(s, t))
  {
    hide SlotOf, Inc, Unused;
  }

  /** Only waiting processes have requests in flight. */
  lemma {:induction false} NotInFlight(s: State, p: nat)
    requires Inv(s) && p < |s.pc| && s.pc[p].Req? && !Waits(s.pc[p])
    ensures forall h :: h in s.ghostly.flight ==> s.ghostly.own[h].p != p
    ensures forall h :: h in s.ghostly.flight ==> h != s.pc[p].i0 && h != s.pc[p].i1 && h != s.pc[p].i2
  {
    ChainAt(s.free, s.pc, s.ghostly.own, p);
    hide Formats, Rings, Served, Chains, Exclusive, Held, Listed;
  }

  /** What the handler reads from the used ring is the oldest request returned. */
  lemma {:induction false} UsedHead(s: State)
    requires Inv(s) && s.usedSeen != s.usedIdx
    ensures |s.ghostly.back| > 0 && s.used[SlotOf(s.usedSeen)] == s.ghostly.back[0]
    ensures var h := s.ghostly.back[0]; h in s.ghostly.flight && s.ghostly.flight[h] == Returned
  {
    hide Formats, Served, Chains, Exclusive, Held, Flight;
    assert RingOk(s.used, s.usedSeen, s.usedIdx, s.ghostly.back);
    RingHead(s.used, s.usedSeen, s.usedIdx, s.ghostly.back);
  }

  /** What the device reads from the available ring is the oldest request queued. */
  lemma {:induction false} AvailHead(s: State)
    requires Inv(s) && s.devIdx != s.availIdx
    ensures |s.ghostly.queue| > 0 && s.avail[SlotOf(s.devIdx)] == s.ghostly.queue[0]
    ensures var h := s.ghostly.queue[0]; h in s.ghostly.flight && s.ghostly.flight[h] == Queued
  {
    hide Formats, Served, Chains, Exclusive, Held, Flight;
    assert RingOk(s.avail, s.devIdx, s.availIdx, s.ghostly.queue);
    RingHead(s.avail, s.devIdx, s.availIdx, s.ghostly.queue);
  }

  lemma {:induction false} RingHead(ring: seq<nat>, i: nat, end: nat, q: seq<nat>)
    requires RingOk(ring, i, end, q) && i != end && i < UINT16
    ensures |q| > 0 && ring[SlotOf(i)] == q[0]
  {
    assert |q| > 0 ==> ring[SlotOf(i + 0)] == q[0];
  }

  // ---------------------------------------------------------------- descriptors

  lemma {:induction false} ChainsSame(free: seq<bool>, pc: seq<Pc>, own: map<nat, Role>, pc': seq<Pc>)
    requires Chains(free, pc, own) && |pc'| == |pc|
    requires forall p :: 0 <= p < |pc| ==> pc'[p].Req? == pc[p].Req?
    requires forall p :: 0 <= p < |pc| && pc[p].Req? ==>
               pc'[p].i0 == pc[p].i0 && pc'[p].i1 == pc[p].i1 && pc'[p].i2 == pc[p].i2
    ensures Chains(free, pc', own)
  {
    forall p | 0 <= p < |pc'|
      ensures ChainOk(pc', own, p)
    {
      assert ChainOk(pc, own, p);
      assert pc[p].Req? ==> forall k: nat :: k < 3 ==> Index(pc'[p], k) == Index(pc[p], k);
    }
    forall i | i in own
      ensures RoleOk(pc', own, i)
    {
      assert RoleOk(pc, own, i);
    }
  }

  lemma {:induction false} ThreeFree(free: seq<bool>)
    requires Has3(free)
    ensures var i0, i1, i2 := FirstFree(free), FirstFree(Claimed(free)), FirstFree(Claimed(Claimed(free)));
            && i0 < |free| && i1 < |free| && i2 < |free| && i0 != i1 && i0 != i2 && i1 != i2
            && free[i0] && free[i1] && free[i2] && Mark3(free, i0, i1, i2, false) == Claimed(Claimed(Claimed(free)))
  {
    hide FirstFree;
  }

  lemma {:induction false} ChainsAlloc(free: seq<bool>, pc: seq<Pc>, own: map<nat, Role>, p: nat, c: Pc)
    requires Chains(free, pc, own) && p < |pc| && !pc[p].Req? && c.Req?
    requires c.i0 < NUM && c.i1 < NUM && c.i2 < NUM && c.i0 != c.i1 && c.i0 != c.i2 && c.i1 != c.i2
    requires free[c.i0] && free[c.i1] && free[c.i2]
    ensures Chains(Mark3(free, c.i0, c.i1, c.i2, false), pc[p := c],
            own[c.i0 := Role(p, 0)][c.i1 := Role(p, 1)][c.i2 := Role(p, 2)])
  {
    var pc', own' := pc[p := c], own[c.i0 := Role(p, 0)][c.i1 := Role(p, 1)][c.i2 := Role(p, 2)];
    forall q | 0 <= q < |pc'|
      ensures ChainOk(pc', own', q)
    {
      assert ChainOk(pc, own, q);
    }
    forall i | i in own'
      ensures RoleOk(pc', own', i)
    {
      if i in own { assert RoleOk(pc, own, i); }
    }
  }

  lemma {:induction false} ChainsFreed(free: seq<bool>, pc: seq<Pc>, own: map<nat, Role>, p: nat)
    requires Chains(free, pc, own) && p < |pc| && pc[p].Req?
    ensures var chain := [pc[p].i0, pc[p].i1, pc[p].i2];
            Chains(FreedMarks(free, chain), pc[p := Idle], own - set i | i in chain)
  {
    var chain := [pc[p].i0, pc[p].i1, pc[p].i2];
    ChainAt(free, pc, own, p);
    var pc', own' := pc[p := Idle], own - set i | i in chain;
    forall q | 0 <= q < |pc'|
      ensures ChainOk(pc', own', q)
    {
      assert ChainOk(pc, own, q);
    }
    forall i | i in own'
      ensures RoleOk(pc', own', i)
    {
      assert RoleOk(pc, own, i);
      assert i !in chain;
    }
    assert forall i :: i in chain ==> i in own;
  }

  lemma {:induction false} ChainsKept(s: State, t: Step)
    requires Inv(s) && Enabled(s, t)
    ensures var s' := Apply(s, t); Chains(s'.free, s'.pc, s'.ghostly.own)
  {
    hide Formats, Rings, Served, Chains, Exclusive, Held, Flight, Listed, SlotOf, Inc, Follow, FormatDesc, FreedDesc,
        FreedMarks, Mark3, Has3, Readable;
    match t
    case Alloc(p) => AllocChains(s, p);
    case Reclaim(p) =>
      DoneChain(s, p);
      ChainsFreed(s.free, s.pc, s.ghostly.own, p);
    case _ =>
      hide ApplyAlloc, ApplyReclaim, Shape;
      ChainsSame(s.free, s.pc, s.ghostly.own, Apply(s, t).pc);
  }

  lemma {:induction false} AllocChains(s: State, p: nat)
    requires Inv(s) && p < |s.pc| && s.pc[p].Want?
    ensures var s' := ApplyAlloc(s, p); Chains(s'.free, s'.pc, s'.ghostly.own)
  {
    hide Formats, Rings, Served, Chains, Exclusive, Held, Flight, Listed, Mark3, Has3;
    if Has3(s.free) {
      ThreeFree(s.free);
      ChainsAlloc(s.free, s.pc, s.ghostly.own, p, ApplyAlloc(s, p).pc[p]);
    } else {
      ChainsSame(s.free, s.pc, s.ghostly.own, ApplyAlloc(s, p).pc);
    }
  }

  lemma {:induction false} DoneChain(s: State, p: nat)
    requires Inv(s) && p < |s.pc| && s.pc[p].Req? && s.pc[p].at != Have
    ensures Follow(s.desc, s.pc[p].i0, NUM) == [s.pc[p].i0, s.pc[p].i1, s.pc[p].i2]
    ensures FormatOk(s.pc[p], s.desc, s.ops, s.info, s.bufs)
  {
    hide Rings, Served, Chains, Exclusive, Held, Flight, Listed, Follow;
    ChainRead(s.pc[p], s.desc, s.ops, s.info, s.bufs);
  }

  /** The chains of two processes have no descriptor in common. */
  lemma {:induction false} Apart(free: seq<bool>, pc: seq<Pc>, own: map<nat, Role>, p: nat, q: nat)
    requires Chains(free, pc, own) && p < |pc| && q < |pc| && p != q && pc[p].Req? && pc[q].Req?
    ensures var c, d := pc[p], pc[q];
            && c.i0 != d.i0 && c.i0 != d.i1 && c.i0 != d.i2 && c.i1 != d.i0 && c.i1 != d.i1 && c.i1 != d.i2
            && c.i2 != d.i0 && c.i2 != d.i1 && c.i2 != d.i2
  {
    ChainAt(free, pc, own, p);
    ChainAt(free, pc, own, q);
    hide Chains;
  }

  lemma {:induction false} FormatSelf(s: State, p: nat)
    requires Inv(s) && p < |s.pc| && s.pc[p].Req?
    ensures var s' := ApplyFormat(s, p); FormatOk(s'.pc[p], s'.desc, s'.ops, s'.info, s'.bufs)
  {
    ChainAt(s.free, s.pc, s.ghostly.own, p);
    hide Formats, Rings, Served, Chains, Exclusive, Held, Flight, Listed;
  }

  lemma {:induction false} FormatOther(s: State, p: nat, q: nat)
    requires Inv(s) && p < |s.pc| && s.pc[p].Req? && q < |s.pc| && q != p && s.pc[q].Req? && s.pc[q].at != Have
    ensures var s' := ApplyFormat(s, p); s'.pc[q] == s.pc[q] && FormatOk(s'.pc[q], s'.desc, s'.ops, s'.info, s'.bufs)
  {
    Apart(s.free, s.pc, s.ghostly.own, p, q);
    ChainAt(s.free, s.pc, s.ghostly.own, q);
    assert FormatOk(s.pc[q], s.desc, s.ops, s.info, s.bufs);
    hide Formats, Rings, Served, Chains, Exclusive, Held, Flight, Listed;
  }

  lemma {:induction false} FormatCleared(c: Pc, c0: Pc, desc: seq<Desc>, ops: seq<Op>, info: seq<Info>, bufs: seq<Buf>)
    requires |desc| == |ops| == |info| == NUM && PcOk(|bufs|, c) && PcOk(|bufs|, c0) && c.Req? && c0.Req?
             && FormatOk(c, desc, ops, info, bufs)
    requires && c.i0 != c0.i0 && c.i0 != c0.i1 && c.i0 != c0.i2 && c.i1 != c0.i0 && c.i1 != c0.i1 && c.i1 != c0.i2
             && c.i2 != c0.i0 && c.i2 != c0.i1 && c.i2 != c0.i2
    ensures FormatOk(c, FreedDesc(desc, [c0.i0, c0.i1, c0.i2]), ops, info[c0.i0 := Info(None, info[c0.i0].status)],
            bufs)
  {
  }

  lemma {:induction false} ReclaimOther(s: State, p: nat, q: nat)
    requires Inv(s) && p < |s.pc| && s.pc[p].Req? && s.pc[p].at == Done && q < |s.pc| && q != p && s.pc[q].Req?
             && s.pc[q].at != Have
    ensures var s' := ApplyReclaim(s, p); s'.pc[q] == s.pc[q] && FormatOk(s'.pc[q], s'.desc, s'.ops, s'.info, s'.bufs)
  {
    Apart(s.free, s.pc, s.ghostly.own, q, p);
    DoneChain(s, p);
    assert FormatOk(s.pc[q], s.desc, s.ops, s.info, s.bufs);
    hide Formats, Rings, Served, Chains, Exclusive, Held, Flight, Listed, Follow, FreedMarks, FreedDesc, FormatOk;
    FormatCleared(s.pc[q], s.pc[p], s.desc, s.ops, s.info, s.bufs);
  }

  /** Requests formatted stay so while descriptors, requests and the bufs' block numbers do. */
  lemma {:induction false} FormatSame(c: Pc, c': Pc, desc: seq<Desc>, ops: seq<Op>, info: seq<Info>, bufs: seq<Buf>,
      info': seq<Info>, bufs': seq<Buf>)
    requires |desc| == |ops| == |info| == |info'| == NUM && |bufs'| == |bufs| && PcOk(|bufs|, c) && PcOk(|bufs|, c')
             && c.Req? && c'.Req?
    requires FormatOk(c, desc, ops, info, bufs) && c' == Req(c'.at, c.b, c.w, c.i0, c.i1, c.i2)
    requires (forall i :: 0 <= i < NUM ==> info'[i].b == info[i].b) && bufs'[c.b].blockno == bufs[c.b].blockno
    ensures FormatOk(c', desc, ops, info', bufs')
  {
  }

  /** The steps that change no descriptor. */
  predicate Quiet(t: Step) {
    !t.Format? && !t.Reclaim? && !t.Alloc?
  }

  lemma {:induction false} QuietFrame(s: State, t: Step, q: nat)
    requires Inv(s) && Enabled(s, t) && Quiet(t) && q < |s.pc|
    ensures var s' := Apply(s, t);
            && s'.desc == s.desc && s'.ops == s.ops && |s'.bufs| == |s.bufs| && |s'.info| == |s.info|
                && |s'.pc| == |s.pc|
            && (forall i :: 0 <= i < NUM ==> s'.info[i].b == s.info[i].b)
            && s'.pc[q].Req? == s.pc[q].Req? && PcOk(|s.bufs|, s.pc[q])
            && (s.pc[q].Req? ==> s'.bufs[s.pc[q].b].blockno == s.bufs[s.pc[q].b].blockno)
            && (s.pc[q].Req? ==> s'.pc[q] == Req(s'.pc[q].at, s.pc[q].b, s.pc[q].w, s.pc[q].i0, s.pc[q].i1, s.pc[q].i2)
                                 && (s'.pc[q].at == s.pc[q].at || (s.pc[q].at != Have && s'.pc[q].at != Have)))
  {
    hide Formats, Rings, Served, Chains, Exclusive, Held, Flight, Listed, SlotOf, Inc, Follow, ApplyAlloc, ApplyReclaim,
        ApplyFormat;
  }

  lemma {:induction false} FormatsKept(s: State, t: Step)
    requires Inv(s) && Enabled(s, t) && Shape(Apply(s, t))
    ensures Formats(Apply(s, t))
  {
    hide Rings, Served, Chains, Exclusive, Held, Flight, Listed, SlotOf, Inc, Follow, FormatOk, FormatDesc, Apply;
    var s' := Apply(s, t);
    SamePcs(s, t);
    forall q | 0 <= q < |s'.pc| && s'.pc[q].Req? && s'.pc[q].at != Have
      ensures PcOk(|s'.bufs|, s'.pc[q]) && FormatOk(s'.pc[q], s'.desc, s'.ops, s'.info, s'.bufs)
    {
      FormatsAt(s, t, q);
    }
  }

  lemma {:induction false} SamePcs(s: State, t: Step)
    requires Inv(s) && Enabled(s, t) && Shape(Apply(s, t))
    ensures |Apply(s, t).pc| == |s.pc| && |Apply(s, t).bufs| == |s.bufs|
    ensures forall q :: 0 <= q < |s.pc| ==> PcOk(|s.bufs|, s.pc[q]) && PcOk(|s.bufs|, Apply(s, t).pc[q])
  {
    hide Formats, Rings, Served, Chains, Exclusive, Held, Flight, Listed, SlotOf, Inc, Follow, FormatDesc, Has3,
        FreedDesc, FreedMarks, Mark3;
  }

  lemma {:induction false} FormatsAt(s: State, t: Step, q: nat)
    requires Inv(s) && Enabled(s, t) && Shape(Apply(s, t)) && q < |s.pc| == |Apply(s, t).pc|
    requires Apply(s, t).pc[q].Req? && Apply(s, t).pc[q].at != Have
    ensures var s' := Apply(s, t); PcOk(|s'.bufs|, s'.pc[q]) && FormatOk(s'.pc[q], s'.desc, s'.ops, s'.info, s'.bufs)
  {
    hide Rings, Served, Chains, Exclusive, Held, Flight, Listed, SlotOf, Inc, Follow, FormatOk, FormatDesc;
    var s' := Apply(s, t);
    match t
    case Format(p) => if q == p { FormatSelf(s, p); } else { FormatOther(s, p, q); }
    case Reclaim(p) => ReclaimOther(s, p, q);
    case Alloc(p) =>
      hide ApplyReclaim, ApplyFormat;
      assert s'.pc[q] == s.pc[q];
      assert FormatOk(s.pc[q], s.desc, s.ops, s.info, s.bufs);
    case _ =>
      QuietFrame(s, t, q);
      hide Apply;
      assert FormatOk(s.pc[q], s.desc, s.ops, s.info, s.bufs);
      FormatSame(s.pc[q], s'.pc[q], s.desc, s.ops, s.info, s.bufs, s'.info, s'.bufs);
  }

  // ---------------------------------------------------------------- the lock and the buffers

  lemma {:induction false} ExclusiveKept(s: State, t: Step)
    requires Inv(s) && Enabled(s, t)
    ensures Exclusive(Apply(s, t).pc)
  {
    hide Formats, Rings, Served, Chains, Held, Flight, Listed, SlotOf, Inc, Follow, FormatDesc, Has3, FreedDesc,
        FreedMarks, Mark3, Readable;
  }

  lemma {:induction false} HeldKept(s: State, t: Step)
    requires Inv(s) && Enabled(s, t)
    ensures Held(Apply(s, t).lock, Apply(s, t).pc)
  {
    hide Formats, Rings, Served, Chains, Exclusive, Flight, Listed, SlotOf, Inc, Follow, FormatDesc, Has3, FreedDesc,
        FreedMarks, Mark3, Readable;
  }

  // ---------------------------------------------------------------- requests in flight

  ghost predicate FlightHead(s: State, h: nat)
    requires Shape(s) && h in s.ghostly.flight
  {
    s.ghostly.own[h].k == 0 && Waits(s.pc[s.ghostly.own[h].p])
  }

  lemma {:induction false} FlightIs(s: State)
    requires Shape(s)
    requires forall h :: h in s.ghostly.flight ==> FlightHead(s, h)
    requires forall p :: 0 <= p < |s.pc| ==> BusyOk(s.pc[p], s.bufs, s.ghostly.flight)
    ensures Flight(s)
  {
  }

  lemma {:induction false} FlightFacts(s: State, p: nat)
    requires Inv(s) && p < |s.pc|
    ensures BusyOk(s.pc[p], s.bufs, s.ghostly.flight)
  {
    hide Formats, Rings, Served, Chains, Exclusive, Held, Listed;
  }

  lemma {:induction false} OtherBuf(s: State, p: nat, q: nat)
    requires Inv(s) && p < |s.pc| && q < |s.pc| && p != q && !s.pc[p].Idle? && !s.pc[q].Idle?
    ensures s.pc[p].b != s.pc[q].b
  {
    hide Formats, Rings, Served, Chains, Flight, Held, Listed;
  }

  lemma {:induction false} FlightFormat(s: State, p: nat)
    requires Inv(s) && Runs(s, p, Have)
    ensures Shape(ApplyFormat(s, p)) && Flight(ApplyFormat(s, p))
  {
    hide Formats, Rings, Served, Chains, Exclusive, Held, Listed, FormatDesc, Flight;
    ShapeFormat(s, p);
    var s' := ApplyFormat(s, p);
    forall h | h in s'.ghostly.flight
      ensures FlightHead(s', h)
    {
      HeadOf(s, h);
    }
    forall q | 0 <= q < |s'.pc|
      ensures BusyOk(s'.pc[q], s'.bufs, s'.ghostly.flight)
    {
      FlightFacts(s, q);
      if q != p && !s.pc[q].Idle? { OtherBuf(s, p, q); }
    }
    FlightIs(s');
  }

  lemma {:induction false} FlightBump(s: State, p: nat)
    requires Inv(s) && Runs(s, p, Placed) && Shape(Apply(s, Bump(p)))
    ensures Flight(Apply(s, Bump(p)))
  {
    hide Formats, Rings, Served, Chains, Exclusive, Held, Listed, Flight, Inc;
    ChainAt(s.free, s.pc, s.ghostly.own, p);
    var s' := Apply(s, Bump(p));
    forall h | h in s'.ghostly.flight
      ensures FlightHead(s', h)
    {
      if h in s.ghostly.flight { HeadOf(s, h); }
    }
    forall q | 0 <= q < |s'.pc|
      ensures BusyOk(s'.pc[q], s'.bufs, s'.ghostly.flight)
    {
      FlightFacts(s, q);
      if q != p && s.pc[q].Req? { Apart(s.free, s.pc, s.ghostly.own, p, q); }
    }
    FlightIs(s');
  }

  lemma {:induction false} FlightCheck(s: State, p: nat)
    requires Inv(s) && Runs(s, p, Waiting) && Shape(Apply(s, Check(p)))
    ensures Flight(Apply(s, Check(p)))
  {
    hide Formats, Rings, Served, Chains, Exclusive, Held, Listed, Flight;
    var s' := Apply(s, Check(p));
    FlightFacts(s, p);
    forall h | h in s'.ghostly.flight
      ensures FlightHead(s', h)
    {
      HeadOf(s, h);
    }
    forall q | 0 <= q < |s'.pc|
      ensures BusyOk(s'.pc[q], s'.bufs, s'.ghostly.flight)
    {
      FlightFacts(s, q);
    }
    FlightIs(s');
  }

  lemma {:induction false} FlightReclaim(s: State, p: nat)
    requires Inv(s) && Runs(s, p, Done)
    ensures Shape(ApplyReclaim(s, p)) && Flight(ApplyReclaim(s, p))
  {
    hide Formats, Rings, Served, Chains, Exclusive, Held, Listed, Flight, Follow, FreedDesc, FreedMarks;
    ShapeReclaim(s, p);
    DoneChain(s, p);
    NotInFlight(s, p);
    var s' := ApplyReclaim(s, p);
    forall h | h in s'.ghostly.flight
      ensures FlightHead(s', h)
    {
      HeadOf(s, h);
    }
    forall q | 0 <= q < |s'.pc|
      ensures BusyOk(s'.pc[q], s'.bufs, s'.ghostly.flight)
    {
      FlightFacts(s, q);
    }
    FlightIs(s');
  }

  /** What the handler does: the request it finds is that of a waiting process, and its own buffer is released. */
  lemma {:induction false} HandlerServesOwner(s: State)
    requires Inv(s) && s.usedSeen != s.usedIdx
    ensures var id := s.used[SlotOf(s.usedSeen)];
            && id in s.ghostly.flight && s.ghostly.flight[id] == Returned && s.info[id].status == 0
            && var p := s.ghostly.own[id].p;
               p < |s.pc| && Waits(s.pc[p]) && s.pc[p].i0 == id && s.info[id].b == Some(s.pc[p].b)
  {
    hide Formats, Rings, Served, Chains, Exclusive, Held, Listed, Flight, SlotOf, Follow;
    UsedHead(s);
    var id := s.used[SlotOf(s.usedSeen)];
    HeadOf(s, id);
    var p := s.ghostly.own[id].p;
    DoneChain(s, p);
    ServedAt(s, p);
  }

  lemma {:induction false} ServedAt(s: State, p: nat)
    requires Inv(s) && p < |s.pc|
    ensures ServedOk(s.pc[p], s.bufs, s.ghostly.flight, s.info, s.ghostly.result[p])
  {
    hide Formats, Rings, Chains, Exclusive, Held, Listed, Flight;
  }

  lemma {:induction false} FlightNext(s: State)
    requires Inv(s) && s.usedSeen != s.usedIdx && Shape(ApplyNext(s))
    ensures Flight(ApplyNext(s))
  {
    hide Formats, Rings, Served, Chains, Exclusive, Held, Listed, Flight, SlotOf, Inc;
    HandlerServesOwner(s);
    var s' := ApplyNext(s);
    var id := s.used[SlotOf(s.usedSeen)];
    var p := s.ghostly.own[id].p;
    forall h | h in s'.ghostly.flight
      ensures FlightHead(s', h)
    {
      HeadOf(s, h);
    }
    forall q | 0 <= q < |s'.pc|
      ensures BusyOk(s'.pc[q], s'.bufs, s'.ghostly.flight)
    {
      FlightFacts(s, q);
      if q != p && !s.pc[q].Idle? { OtherBuf(s, p, q); }
      if q != p && s.pc[q].Req? { Apart(s.free, s.pc, s.ghostly.own, p, q); }
    }
    FlightIs(s');
  }

  lemma {:induction false} FlightKept(s: State, t: Step)
    requires Inv(s) && Enabled(s, t) && Shape(Apply(s, t))
    ensures Flight(Apply(s, t))
  {
    hide Formats, Rings, Served, Chains, Exclusive, Held, Listed, Flight, SlotOf, Inc, Follow, ApplyFormat,
        ApplyReclaim, ApplyNext, Has3;
    match t
    case Format(p) => FlightFormat(s, p);
    case Bump(p) => FlightBump(s, p);
    case Check(p) => FlightCheck(s, p);
    case Reclaim(p) => FlightReclaim(s, p);
    case Next => FlightNext(s);
    case _ =>
      FlightRest(s, t);
  }

  /** Steps that leave buffers' busy flags, the set of requests in flight and their places alone. */
  lemma {:induction false} FlightFrame(s: State, s': State)
    requires Inv(s) && Shape(s') && |s'.pc| == |s.pc| && |s'.bufs| == |s.bufs|
             && s'.ghostly.flight.Keys == s.ghostly.flight.Keys
    requires forall b :: 0 <= b < |s.bufs| ==> s'.bufs[b].busy == s.bufs[b].busy
    requires forall h :: h in s.ghostly.flight ==> s'.ghostly.own[h] == s.ghostly.own[h]
    requires forall q :: 0 <= q < |s.pc| ==> SamePlace(s.pc[q], s'.pc[q])
    ensures Flight(s')
  {
    hide Formats, Rings, Served, Chains, Exclusive, Held, Listed, Flight;
    forall h | h in s'.ghostly.flight
      ensures FlightHead(s', h)
    {
      HeadOf(s, h);
    }
    forall q | 0 <= q < |s'.pc|
      ensures BusyOk(s'.pc[q], s'.bufs, s'.ghostly.flight)
    {
      FlightFacts(s, q);
    }
    FlightIs(s');
  }

  predicate SamePlace(c: Pc, d: Pc) {
    if c.Req? then
      d.Req? && d == Req(d.at, c.b, c.w, c.i0, c.i1, c.i2)
          && (d.at == c.at || (c.at == Formatted && d.at == Placed) || (c.at == Asleep && d.at == Waiting))
    else !d.Req? || d.at == Have
  }

  lemma {:induction false} FlightRest(s: State, t: Step)
    requires Inv(s) && Enabled(s, t) && Shape(Apply(s, t)) && !t.Format? && !t.Bump? && !t.Check? && !t.Reclaim?
             && !t.Next?
    ensures Flight(Apply(s, t))
  {
    hide Formats, Rings, Served, Chains, Exclusive, Held, Listed, Flight, Inc, Follow, Has3, SlotOf, FirstFree, Claimed,
        Mark3, ApplyFormat, ApplyReclaim, ApplyNext;
    var s' := Apply(s, t);
    if t.DevTake? { AvailHead(s); }
    if t.Alloc? && Has3(s.free) { ThreeUnowned(s); }
    FlightFrame(s, s');
  }

  lemma {:induction false} ThreeUnowned(s: State)
    requires Inv(s) && Has3(s.free)
    ensures var i0, i1, i2 := FirstFree(s.free), FirstFree(Claimed(s.free)), FirstFree(Claimed(Claimed(s.free)));
            i0 !in s.ghostly.own && i1 !in s.ghostly.own && i2 !in s.ghostly.own
  {
    ThreeFree(s.free);
    hide Formats, Rings, Served, Exclusive, Held, Listed, Flight, FirstFree, Claimed, Has3, Mark3;
  }

  // ---------------------------------------------------------------- the rings

  lemma {:induction false} ListedPush(flight: map<nat, Stage>, q: seq<nat>, at: Stage, h: nat)
    requires Listed(flight, q, at) && h !in q
    ensures Listed(flight[h := at], q + [h], at)
  {
    var r := q + [h];
    assert forall i :: 0 <= i < |r| ==> r[i] == if i < |q| then q[i] else h;
    assert forall x :: x in q ==> x in r;
    assert r[|q|] == h;
  }

  lemma {:induction false} ListedPop(flight: map<nat, Stage>, q: seq<nat>, at: Stage, flight': map<nat, Stage>)
    requires Listed(flight, q, at) && |q| > 0
    requires forall x :: x in flight && x != q[0] ==> x in flight' && flight'[x] == flight[x]
    requires forall x :: x in flight' && x != q[0] ==> x in flight
    requires q[0] in flight' ==> flight'[q[0]] != at
    ensures Listed(flight', q[1..], at)
  {
    var r := q[1..];
    assert forall i :: 0 <= i < |r| ==> r[i] == q[i + 1];
    forall h | h in flight' && flight'[h] == at
      ensures h in r
    {
      var k :| 0 <= k < |q| && q[k] == h;
      assert r[k - 1] == h;
    }
  }

  lemma {:induction false} ListedSame(flight: map<nat, Stage>, q: seq<nat>, at: Stage, flight': map<nat, Stage>)
    requires Listed(flight, q, at)
    requires forall h :: h in flight && flight[h] == at ==> h in flight' && flight'[h] == at
    requires forall h :: h in flight' && flight'[h] == at ==> h in flight && flight[h] == at
    ensures Listed(flight', q, at)
  {
  }

  lemma {:induction false} ListedKept(s: State, t: Step)
    requires Inv(s) && Enabled(s, t)
    ensures var g := Apply(s, t).ghostly; Listed(g.flight, g.queue, Queued) && Listed(g.flight, g.back, Returned)
  {
    hide Formats, Rings, Served, Chains, Exclusive, Held, Listed, Flight, SlotOf, Inc, Follow, ApplyFormat,
        ApplyReclaim, ApplyAlloc;
    var g, g' := s.ghostly, Apply(s, t).ghostly;
    match t
    case Bump(p) =>
      NotInFlight(s, p);
      ListedFresh(g.flight, g.queue, Queued, s.pc[p].i0);
      ListedPush(g.flight, g.queue, Queued, s.pc[p].i0);
      ListedSame(g.flight, g.back, Returned, g'.flight);
    case DevTake =>
      AvailHead(s);
      ListedPop(g.flight, g.queue, Queued, g'.flight);
      ListedSame(g.flight, g.back, Returned, g'.flight);
    case DevReturn(h) =>
      ListedOther(g.flight, g.back, Returned, h);
      ListedPush(g.flight, g.back, Returned, h);
      ListedSame(g.flight, g.queue, Queued, g'.flight);
    case Next =>
      UsedHead(s);
      ListedPop(g.flight, g.back, Returned, g'.flight);
      ListedSame(g.flight, g.queue, Queued, g'.flight);
    case DevIo(h) =>
      ListedSame(g.flight, g.back, Returned, g'.flight);
      ListedSame(g.flight, g.queue, Queued, g'.flight);
    case _ => GhostSame(s, t);
  }

  lemma {:induction false} GhostSame(s: State, t: Step)
    requires Inv(s) && Enabled(s, t) && !t.Bump? && !t.DevTake? && !t.DevReturn? && !t.Next? && !t.DevIo?
    ensures var g, g' := s.ghostly, Apply(s, t).ghostly;
            g'.flight == g.flight && g'.queue == g.queue && g'.back == g.back
  {
    hide Formats, Rings, Served, Chains, Exclusive, Held, Listed, Flight, SlotOf, Inc, Follow, Has3;
  }

  lemma {:induction false} ListedFresh(flight: map<nat, Stage>, q: seq<nat>, at: Stage, h: nat)
    requires Listed(flight, q, at) && h !in flight
    ensures h !in q
  {
  }

  lemma {:induction false} ListedOther(flight: map<nat, Stage>, q: seq<nat>, at: Stage, h: nat)
    requires Listed(flight, q, at) && (h in flight ==> flight[h] != at)
    ensures h !in q
  {
  }

  /** NUM divides 2^16, so slots do not notice the wrap. */
  lemma {:induction false} SlotWrap(i: nat, k: nat)
    requires i < UINT16
    ensures SlotOf((i + k) % UINT16) == SlotOf(i + k) && SlotOf(Inc(i) + k) == SlotOf(i + 1 + k)
  {
    Multiple((i + k) % 0x1_0000, (i + k) / 0x1_0000);
    Multiple(Inc(i) + k, (i + 1) / 0x1_0000);
  }

  lemma {:induction false} Multiple(r: nat, m: nat)
    ensures SlotOf(m * 0x1_0000 + r) == SlotOf(r)
  {
    assert m * 0x1_0000 + r == 8 * (m * 0x2000) + r;
  }

  lemma {:induction false} SlotApart(i: nat, k: nat, n: nat)
    requires k < n < NUM
    ensures SlotOf(i + k) != SlotOf(i + n)
  {
  }

  lemma {:induction false} RingPlace(ring: seq<nat>, i: nat, end: nat, q: seq<nat>, h: nat)
    requires RingOk(ring, i, end, q) && |q| < NUM && i < UINT16
    ensures RingOk(ring[SlotOf(end) := h], i, end, q)
  {
    SlotWrap(i, |q|);
    hide SlotOf;
    forall k | 0 <= k < |q|
      ensures ring[SlotOf(end) := h][SlotOf(i + k)] == q[k]
    {
      SlotApart(i, k, |q|);
    }
  }

  lemma {:induction false} RingPush(ring: seq<nat>, i: nat, end: nat, q: seq<nat>)
    requires RingOk(ring, i, end, q) && i < UINT16
    ensures RingOk(ring, i, Inc(end), q + [ring[SlotOf(end)]])
  {
    SlotWrap(i, |q|);
    IncMod(i + |q|);
    hide SlotOf, Inc;
  }

  lemma {:induction false} IncMod(x: nat)
    ensures Inc(x % UINT16) == (x + 1) % UINT16
  {
    assert x == x / 0x1_0000 * 0x1_0000 + x % 0x1_0000;
  }

  lemma {:induction false} RingPop(ring: seq<nat>, i: nat, end: nat, q: seq<nat>)
    requires RingOk(ring, i, end, q) && i < UINT16 && |q| > 0
    ensures RingOk(ring, Inc(i), end, q[1..])
  {
    assert (Inc(i) + (|q| - 1)) % UINT16 == end;
    forall k | 0 <= k < |q| - 1
      ensures ring[SlotOf(Inc(i) + k)] == q[1..][k]
    {
      SlotWrap(i, k);
      assert ring[SlotOf(i + (k + 1))] == q[k + 1];
    }
  }

  ghost predicate PlacedOk(s: State) {
    && |s.avail| == NUM
    && forall p :: 0 <= p < |s.pc| && s.pc[p].Req? && s.pc[p].at == Placed ==> s.avail[SlotOf(s.availIdx)] == s.pc[p].i0
  }

  /** Only the lock holder is at Placed. */
  lemma {:induction false} OnlyHolder(s: State, p: nat)
    requires Inv(s) && p < |s.pc| && Inside(s.pc[p])
    ensures forall q :: 0 <= q < |s.pc| && q != p ==> !Inside(s.pc[q])
  {
    hide Formats, Rings, Served, Chains, Exclusive, Listed, Flight;
  }

  lemma {:induction false} RingsFacts(s: State)
    requires Inv(s)
    ensures RingOk(s.avail, s.devIdx, s.availIdx, s.ghostly.queue)
            && RingOk(s.used, s.usedSeen, s.usedIdx, s.ghostly.back) && PlacedOk(s)
    ensures s.devIdx < UINT16 && s.usedSeen < UINT16
  {
    hide Formats, Held, Served, Chains, Exclusive, Listed, Flight, RingOk;
  }

  lemma {:induction false} RingsPut(s: State, p: nat)
    requires Inv(s) && Runs(s, p, Formatted) && Shape(Apply(s, Put(p)))
    ensures Rings(Apply(s, Put(p)))
  {
    hide Formats, Held, Served, Chains, Exclusive, Listed, Flight, RingOk, Rings, SlotOf;
    RingsFacts(s);
    ChainAt(s.free, s.pc, s.ghostly.own, p);
    NotInFlight(s, p);
    ListedFresh(s.ghostly.flight, s.ghostly.queue, Queued, s.pc[p].i0);
    RoomFor(s.ghostly.flight, s.ghostly.queue, Queued, s.pc[p].i0);
    RingPlace(s.avail, s.devIdx, s.availIdx, s.ghostly.queue, s.pc[p].i0);
    OnlyHolder(s, p);
    var s' := Apply(s, Put(p));
    assert PlacedOk(s');
    RingsIs(s');
  }

  lemma {:induction false} RingsIs(s: State)
    requires Shape(s) && PlacedOk(s)
    requires RingOk(s.avail, s.devIdx, s.availIdx, s.ghostly.queue)
             && RingOk(s.used, s.usedSeen, s.usedIdx, s.ghostly.back)
    ensures Rings(s)
  {
    hide RingOk, SlotOf;
  }

  lemma {:induction false} RingsBump(s: State, p: nat)
    requires Inv(s) && Runs(s, p, Placed) && Shape(Apply(s, Bump(p)))
    ensures Rings(Apply(s, Bump(p)))
  {
    hide Formats, Held, Served, Chains, Exclusive, Listed, Flight, RingOk, Rings, SlotOf, Inc;
    RingsFacts(s);
    RingPush(s.avail, s.devIdx, s.availIdx, s.ghostly.queue);
    OnlyHolder(s, p);
    var s' := Apply(s, Bump(p));
    assert PlacedOk(s');
    RingsIs(s');
  }

  lemma {:induction false} RingsReturn(s: State, h: nat)
    requires Inv(s) && Enabled(s, DevReturn(h)) && Shape(Apply(s, DevReturn(h)))
    ensures Rings(Apply(s, DevReturn(h)))
  {
    hide Formats, Held, Served, Chains, Exclusive, Listed, Flight, RingOk, Rings, SlotOf, Inc;
    RingsFacts(s);
    ListedOther(s.ghostly.flight, s.ghostly.back, Returned, h);
    RoomFor(s.ghostly.flight, s.ghostly.back, Returned, h);
    RingPlace(s.used, s.usedSeen, s.usedIdx, s.ghostly.back, h);
    RingPush(s.used[SlotOf(s.usedIdx) := h], s.usedSeen, s.usedIdx, s.ghostly.back);
    RingsIs(Apply(s, DevReturn(h)));
  }

  lemma {:induction false} RingsKept(s: State, t: Step)
    requires Inv(s) && Enabled(s, t) && Shape(Apply(s, t))
    ensures Rings(Apply(s, t))
  {
    hide Formats, Held, Served, Chains, Exclusive, Listed, Flight, RingOk, Rings, SlotOf, Inc, Follow, ApplyIo,
        ApplyAlloc, ApplyReclaim, ApplyFormat;
    var s' := Apply(s, t);
    match t
    case Put(p) => RingsPut(s, p);
    case Bump(p) => RingsBump(s, p);
    case DevReturn(h) => RingsReturn(s, h);
    case DevTake =>
      RingsFacts(s);
      AvailHead(s);
      RingPop(s.avail, s.devIdx, s.availIdx, s.ghostly.queue);
      RingsIs(s');
    case Next =>
      RingsFacts(s);
      UsedHead(s);
      RingPop(s.used, s.usedSeen, s.usedIdx, s.ghostly.back);
      RingsIs(s');
    case _ => RingsRest(s, t);
  }

  lemma {:induction false} RingsRest(s: State, t: Step)
    requires Inv(s) && Enabled(s, t) && Shape(Apply(s, t)) && !t.Put? && !t.Bump? && !t.DevReturn? && !t.DevTake?
             && !t.Next?
    ensures Rings(Apply(s, t))
  {
    hide Formats, Held, Served, Chains, Exclusive, Listed, Flight, RingOk, Rings, SlotOf, Inc, Follow, Has3, FirstFree,
        Mark3, Claimed, FreedMarks, FreedDesc, FormatDesc;
    RingsFacts(s);
    var s' := Apply(s, t);
    assert PlacedOk(s');
    RingsIs(s');
  }

  // ---------------------------------------------------------------- what the device did

  /** The device carries out the request of the process whose chain it is, on that process's buffer and block. */
  lemma {:induction false} DeviceServesOwner(s: State, h: nat)
    requires Inv(s) && h in s.ghostly.flight
    ensures Readable(s, h)
    ensures var c := s.pc[s.ghostly.own[h].p];
            && Waits(c) && c.i0 == h
            && var block := s.bufs[c.b].blockno;
               var s' := ApplyIo(s, h);
               var x := s'.bufs[c.b].data;
               && (c.w ==> x == s.bufs[c.b].data) && (!c.w ==> s'.disk == s.disk)
               && Holds(s'.disk, block, x)
               && (forall k: nat :: k != 2 * block && k != 2 * block + 1 ==>
                     SectorAt(s'.disk, k) == SectorAt(s.disk, k))
               && s'.bufs == s.bufs[c.b := Buf(s.bufs[c.b].busy, block, x)]
               && s'.info == s.info[h := Info(Some(c.b), 0)]
               && s'.ghostly == s.ghostly.(flight := s.ghostly.flight[h := Performed],
                   result := s.ghostly.result[s.ghostly.own[h].p := Some(x)])
               && s'.pc == s.pc
  {
    hide Formats, Rings, Served, Chains, Exclusive, Held, Listed, Flight, Follow, Sector, Holds, SectorAt;
    hide ReadSectors, WriteSectors;
    HeadOf(s, h);
    var p := s.ghostly.own[h].p;
    DoneChain(s, p);
    TransferHolds(s.disk, s.bufs[s.pc[p].b].blockno, s.bufs[s.pc[p].b].data);
  }

  ghost predicate ServedHere(s: State, q: nat)
    requires Shape(s) && q < |s.pc|
  {
    ServedOk(s.pc[q], s.bufs, s.ghostly.flight, s.info, s.ghostly.result[q])
  }

  lemma {:induction false} ServedIs(s: State)
    requires Shape(s) && forall q :: 0 <= q < |s.pc| ==> ServedHere(s, q)
    ensures Served(s)
  {
    forall q | 0 <= q < |s.pc|
      ensures ServedOk(s.pc[q], s.bufs, s.ghostly.flight, s.info, s.ghostly.result[q])
    {
      assert ServedHere(s, q);
    }
  }

  lemma {:induction false} ServedIo(s: State, h: nat)
    requires Inv(s) && Enabled(s, DevIo(h)) && Shape(ApplyIo(s, h))
    ensures Served(ApplyIo(s, h))
  {
    hide Formats, Rings, Served, Chains, Exclusive, Held, Listed, Flight, ApplyIo, SectorAt, Holds;
    DeviceServesOwner(s, h);
    var s' := ApplyIo(s, h);
    var p := s.ghostly.own[h].p;
    forall q | 0 <= q < |s'.pc|
      ensures ServedHere(s', q)
    {
      ServedAt(s, q);
      if q != p && !s.pc[q].Idle? { OtherBuf(s, p, q); }
      if q != p && s.pc[q].Req? { Apart(s.free, s.pc, s.ghostly.own, p, q); }
    }
    ServedIs(s');
  }

  lemma {:induction false} ServedFormat(s: State, p: nat)
    requires Inv(s) && Runs(s, p, Have) && Shape(ApplyFormat(s, p))
    ensures Served(ApplyFormat(s, p))
  {
    hide Formats, Rings, Served, Chains, Exclusive, Held, Listed, Flight, FormatDesc;
    var s' := ApplyFormat(s, p);
    forall q | 0 <= q < |s'.pc|
      ensures ServedHere(s', q)
    {
      ServedAt(s, q);
      if q != p && s.pc[q].Req? { Apart(s.free, s.pc, s.ghostly.own, p, q); }
    }
    ServedIs(s');
  }

  lemma {:induction false} ServedBump(s: State, p: nat)
    requires Inv(s) && Runs(s, p, Placed) && Shape(Apply(s, Bump(p)))
    ensures Served(Apply(s, Bump(p)))
  {
    hide Formats, Rings, Served, Chains, Exclusive, Held, Listed, Flight, Inc;
    var s' := Apply(s, Bump(p));
    forall q | 0 <= q < |s'.pc|
      ensures ServedHere(s', q)
    {
      ServedAt(s, q);
      if q != p && s.pc[q].Req? { Apart(s.free, s.pc, s.ghostly.own, p, q); }
    }
    ServedIs(s');
  }

  lemma {:induction false} ServedCheck(s: State, p: nat)
    requires Inv(s) && Runs(s, p, Waiting) && Shape(Apply(s, Check(p)))
    ensures Served(Apply(s, Check(p)))
  {
    hide Formats, Rings, Served, Chains, Exclusive, Held, Listed, Flight;
    var s' := Apply(s, Check(p));
    FlightFacts(s, p);
    forall q | 0 <= q < |s'.pc|
      ensures ServedHere(s', q)
    {
      ServedAt(s, q);
    }
    ServedIs(s');
  }

  /** Steps that leave data, status and results alone, and stages on their side of the device's work. */
  lemma {:induction false} ServedFrame(s: State, s': State)
    requires Inv(s) && Shape(s') && |s'.pc| == |s.pc| && |s'.bufs| == |s.bufs| && s'.ghostly.result == s.ghostly.result
    requires forall q :: 0 <= q < |s.pc| && !s.pc[q].Idle? ==> s'.bufs[s.pc[q].b].data == s.bufs[s.pc[q].b].data
    requires forall i :: 0 <= i < NUM ==> s'.info[i].status == s.info[i].status
    requires forall h :: Early(s'.ghostly.flight, h) <==> Early(s.ghostly.flight, h)
    requires forall q :: 0 <= q < |s.pc| ==> SamePlace(s.pc[q], s'.pc[q]) || s'.pc[q].Idle?
    ensures Served(s')
  {
    hide Formats, Rings, Served, Chains, Exclusive, Held, Listed, Flight;
    forall q | 0 <= q < |s'.pc|
      ensures ServedHere(s', q)
    {
      ServedAt(s, q);
      assert s.pc[q].Req? ==> (Early(s'.ghostly.flight, s.pc[q].i0) <==> Early(s.ghostly.flight, s.pc[q].i0));
    }
    ServedIs(s');
  }

  predicate Early(flight: map<nat, Stage>, h: nat) {
    h in flight && (flight[h] == Queued || flight[h] == Taken)
  }

  lemma {:induction false} ServedKept(s: State, t: Step)
    requires Inv(s) && Enabled(s, t) && Shape(Apply(s, t))
    ensures Served(Apply(s, t))
  {
    hide Formats, Rings, Served, Chains, Exclusive, Held, Listed, Flight, SlotOf, Inc, Follow, ApplyIo, ApplyFormat,
        Has3;
    match t
    case DevIo(h) => ServedIo(s, h);
    case Format(p) => ServedFormat(s, p);
    case Bump(p) => ServedBump(s, p);
    case Check(p) => ServedCheck(s, p);
    case _ => ServedRest(s, t);
  }

  lemma {:induction false} ServedRest(s: State, t: Step)
    requires Inv(s) && Enabled(s, t) && Shape(Apply(s, t)) && !t.DevIo? && !t.Format? && !t.Bump? && !t.Check?
    ensures Served(Apply(s, t))
  {
    hide Formats, Rings, Served, Chains, Exclusive, Held, Listed, Flight, SlotOf, Inc, Follow, Has3, FirstFree, Claimed,
        Mark3, FreedDesc, FreedMarks, ApplyIo, ApplyFormat;
    if t.DevTake? { AvailHead(s); }
    if t.Next? { UsedHead(s); }
    ServedFrame(s, Apply(s, t));
  }

  // ---------------------------------------------------------------- runs

  lemma {:induction false} StepKeeps(s: State, t: Step)
    requires Inv(s) && Enabled(s, t)
    ensures Inv(Apply(s, t))
  {
    hide Formats, Rings, Served, Chains, Exclusive, Held, Listed, Flight, Shape, Apply, Enabled;
    ShapeKept(s, t);
    ChainsKept(s, t);
    FormatsKept(s, t);
    ExclusiveKept(s, t);
    HeldKept(s, t);
    FlightKept(s, t);
    ListedKept(s, t);
    RingsKept(s, t);
    ServedKept(s, t);
  }

  // ---------------------------------------------------------------- the disk

  /** No two requests are for one block. */
  ghost predicate Blocks(s: State)
    requires Shape(s)
  {
    forall p, q :: 0 <= p < q < |s.pc| && !s.pc[p].Idle? && !s.pc[q].Idle? ==>
          s.bufs[s.pc[p].b].blockno != s.bufs[s.pc[q].b].blockno
  }

  /** A buffer to be written holds what its owner put in it, and what the device did for a request is what the disk
      holds. */
  ghost predicate OnDisk(s: State, q: nat)
    requires Shape(s) && q < |s.pc|
  {
    var c := s.pc[q];
    && (!c.Idle? && c.w ==> s.bufs[c.b].data == s.ghostly.asked[q])
    && (c.Req? && c.at != Have && s.ghostly.result[q].Some? ==>
          Holds(s.disk, s.bufs[c.b].blockno, s.ghostly.result[q].value))
  }

  ghost predicate DiskInv(s: State) {
    Inv(s) && Blocks(s) && forall q :: 0 <= q < |s.pc| ==> OnDisk(s, q)
  }

  /** A buffer in use keeps its block number, and its data unless it is read into. */
  lemma {:induction false} UsedKept(s: State, t: Step, q: nat)
    requires Inv(s) && Enabled(s, t) && Shape(Apply(s, t)) && q < |s.pc| && !s.pc[q].Idle? && !t.DevIo?
    ensures var s' := Apply(s, t);
            && |s'.pc| == |s.pc| && |s'.bufs| == |s.bufs| && s'.disk == s.disk && PcOk(|s.bufs|, s.pc[q])
            && s'.bufs[s.pc[q].b].blockno == s.bufs[s.pc[q].b].blockno
                && s'.bufs[s.pc[q].b].data == s.bufs[s.pc[q].b].data
  {
    hide Formats, Rings, Served, Chains, Exclusive, Held, Flight, Listed, SlotOf, Inc, Follow, FormatDesc, Has3,
        FreedDesc;
    hide FreedMarks, Mark3, FirstFree, Claimed, ApplyIo;
  }

  lemma {:induction false} PlaceKept(s: State, t: Step, q: nat)
    requires Inv(s) && Enabled(s, t) && Shape(Apply(s, t)) && q < |s.pc| && !s.pc[q].Idle? && !t.DevIo?
    ensures var s' := Apply(s, t);
            && |s'.pc| == |s.pc| && (!s'.pc[q].Idle? ==> s'.pc[q].b == s.pc[q].b && s'.pc[q].w == s.pc[q].w)
            && s'.ghostly.asked[q] == s.ghostly.asked[q]
            && (s'.ghostly.result[q] == s.ghostly.result[q] || s'.ghostly.result[q] == None)
            && (s'.pc[q].Req? && s'.pc[q].at != Have ==>
                  s.pc[q].Req? && (s.pc[q].at != Have || s'.ghostly.result[q] == None))
  {
    hide Formats, Rings, Served, Chains, Exclusive, Held, Flight, Listed, SlotOf, Inc, Follow, FormatDesc, Has3,
        FreedDesc;
    hide FreedMarks, Mark3, FirstFree, Claimed, ApplyIo, Unused;
  }

  lemma {:induction false} IdleKept(s: State, t: Step, q: nat)
    requires Inv(s) && Enabled(s, t) && Shape(Apply(s, t)) && q < |s.pc| && s.pc[q].Idle?
    ensures var s' := Apply(s, t);
            && |s'.pc| == |s.pc|
            && (!s'.pc[q].Idle? ==>
                  t == Begin(q, s'.pc[q].b, s'.pc[q].w) && s'.pc[q].Want?
                  && s'.ghostly.asked[q] == s'.bufs[s'.pc[q].b].data && s'.bufs == s.bufs)
  {
    hide Formats, Rings, Served, Chains, Exclusive, Held, Flight, Listed, SlotOf, Inc, Follow, FormatDesc, Has3;
    hide FreedDesc, FreedMarks, Mark3;
  }

  lemma {:induction false} BlocksKept(s: State, t: Step)
    requires Inv(s) && Blocks(s) && Enabled(s, t) && Shape(Apply(s, t))
    ensures Blocks(Apply(s, t))
  {
    hide Formats, Rings, Served, Chains, Exclusive, Held, Flight, Listed, Apply, Shape;
    var s' := Apply(s, t);
    forall p, q | 0 <= p < q < |s'.pc| && !s'.pc[p].Idle? && !s'.pc[q].Idle?
      ensures PcOk(|s'.bufs|, s'.pc[p]) && PcOk(|s'.bufs|, s'.pc[q])
              && s'.bufs[s'.pc[p].b].blockno != s'.bufs[s'.pc[q].b].blockno
    {
      BlocksPair(s, t, p, q);
    }
  }

  lemma {:induction false} BlocksPair(s: State, t: Step, p: nat, q: nat)
    requires Inv(s) && Blocks(s) && Enabled(s, t) && Shape(Apply(s, t)) && p < q < |Apply(s, t).pc|
    requires !Apply(s, t).pc[p].Idle? && !Apply(s, t).pc[q].Idle?
    ensures var s' := Apply(s, t);
            PcOk(|s'.bufs|, s'.pc[p]) && PcOk(|s'.bufs|, s'.pc[q])
                && s'.bufs[s'.pc[p].b].blockno != s'.bufs[s'.pc[q].b].blockno
  {
    hide Formats, Rings, Served, Chains, Exclusive, Held, Flight, Listed;
    var s' := Apply(s, t);
    SamePcs(s, t);
    BlockKept(s, t, p);
    BlockKept(s, t, q);
    hide Apply;
  }

  lemma {:induction false} BlockKept(s: State, t: Step, q: nat)
    requires Inv(s) && Enabled(s, t) && Shape(Apply(s, t)) && q < |s.pc| == |Apply(s, t).pc|
    ensures var s' := Apply(s, t);
            && PcOk(|s'.bufs|, s'.pc[q]) && PcOk(|s.bufs|, s.pc[q])
            && (!s'.pc[q].Idle? && !s.pc[q].Idle? ==> s'.bufs[s'.pc[q].b].blockno == s.bufs[s.pc[q].b].blockno)
            && (!s'.pc[q].Idle? && s.pc[q].Idle? ==> t == Begin(q, s'.pc[q].b, s'.pc[q].w) && s'.bufs == s.bufs)
  {
    hide Formats, Rings, Served, Chains, Exclusive, Held, Flight, Listed, Apply, Enabled;
    if s.pc[q].Idle? {
      IdleKept(s, t, q);
    } else if t.DevIo? {
      IoBlocks(s, t.h);
    } else {
      UsedKept(s, t, q);
      PlaceKept(s, t, q);
    }
  }

  lemma {:induction false} IoBlocks(s: State, h: nat)
    requires Inv(s) && Enabled(s, DevIo(h))
    ensures var s' := Apply(s, DevIo(h));
            s'.pc == s.pc && |s'.bufs| == |s.bufs| && forall b :: 0 <= b < |s.bufs| ==>
                  s'.bufs[b].blockno == s.bufs[b].blockno
  {
    hide Formats, Rings, Served, Chains, Exclusive, Held, Flight, Listed, ApplyIo;
    DeviceServesOwner(s, h);
  }

  /** The device's work for one request leaves every other request's block and buffer alone. */
  lemma {:induction false} OnDiskIo(s: State, h: nat, q: nat)
    requires DiskInv(s) && Enabled(s, DevIo(h)) && Shape(Apply(s, DevIo(h))) && q < |s.pc|
    ensures var s' := Apply(s, DevIo(h)); q < |s'.pc| && OnDisk(s', q)
    ensures h in s.ghostly.own && s.ghostly.own[h].p < |s.pc| && !s.pc[s.ghostly.own[h].p].Idle?
    ensures var block := s.bufs[s.pc[s.ghostly.own[h].p].b].blockno;
            forall k: nat :: k != 2 * block && k != 2 * block + 1 ==>
              SectorAt(Apply(s, DevIo(h)).disk, k) == SectorAt(s.disk, k)
  {
    hide Formats, Rings, Served, Chains, Exclusive, Held, Flight, Listed, ApplyIo, SectorAt;
    DeviceServesOwner(s, h);
    var p := s.ghostly.own[h].p;
    assert OnDisk(s, q) && OnDisk(s, p);
    if q != p && !s.pc[q].Idle? { OtherBuf(s, p, q); }
  }

  lemma {:induction false} OnDiskKept(s: State, t: Step, q: nat)
    requires DiskInv(s) && Enabled(s, t) && Shape(Apply(s, t)) && q < |s.pc|
    ensures var s' := Apply(s, t); q < |s'.pc| && OnDisk(s', q)
  {
    hide Formats, Rings, Served, Chains, Exclusive, Held, Flight, Listed, Apply, Enabled;
    assert OnDisk(s, q);
    if t.DevIo? {
      OnDiskIo(s, t.h, q);
    } else if s.pc[q].Idle? {
      IdleKept(s, t, q);
    } else {
      UsedKept(s, t, q);
      PlaceKept(s, t, q);
    }
  }

  lemma {:induction false} DiskStep(s: State, t: Step)
    requires DiskInv(s) && Enabled(s, t)
    ensures DiskInv(Apply(s, t))
  {
    hide Inv, OnDisk, Blocks, Apply, Enabled;
    InvShape(s);
    StepKeeps(s, t);
    InvShape(Apply(s, t));
    BlocksKept(s, t);
    SamePcs(s, t);
    forall q | 0 <= q < |s.pc|
      ensures q < |Apply(s, t).pc| && OnDisk(Apply(s, t), q)
    {
      OnDiskKept(s, t, q);
    }
  }

  lemma {:induction false} InvShape(s: State)
    requires Inv(s)
    ensures Shape(s)
  {
  }

  /** After virtio_disk_init: every descriptor free, the rings empty, nobody inside. */
  ghost predicate Init(s: State) {
    && |s.free| == |s.desc| == |s.ops| == |s.info| == |s.avail| == |s.used| == NUM
        && |s.ghostly.result| == |s.ghostly.asked| == |s.pc|
    && (forall i :: 0 <= i < NUM ==> s.free[i] && s.avail[i] == 0 && s.used[i] == 0 && s.info[i].b == None)
    && (forall p :: 0 <= p < |s.pc| ==> s.pc[p] == Idle)
    && s.availIdx == s.usedIdx == s.usedSeen == s.devIdx == 0 && s.lock == None
    && s.ghostly.flight == map[] && s.ghostly.queue == [] && s.ghostly.back == [] && s.ghostly.own == map[]
  }

  lemma {:induction false} InitInv(s: State)
    requires Init(s)
    ensures Inv(s)
  {
  }

  ghost predicate Reachable(s0: State, s: State, n: nat)
    decreases n
  {
    if n == 0 then s == s0 && Init(s0)
    else exists r, t :: Reachable(s0, r, n - 1) && Shape(r) && Enabled(r, t) && s == Apply(r, t)
  }

  lemma {:induction false} ReachableInv(s0: State, s: State, n: nat)
    requires Reachable(s0, s, n)
    ensures Inv(s)
    decreases n
  {
    hide Inv, Shape, Apply, Enabled, Init;
    if n == 0 {
      InitInv(s);
    } else {
      var r, t :| Reachable(s0, r, n - 1) && Shape(r) && Enabled(r, t) && s == Apply(r, t);
      ReachableInv(s0, r, n - 1);
      StepKeeps(r, t);
    }
  }

  lemma {:induction false} ReachableDisk(s0: State, s: State, n: nat)
    requires Reachable(s0, s, n)
    ensures DiskInv(s)
    decreases n
  {
    hide DiskInv, Apply, Enabled;
    if n == 0 {
      InitDisk(s);
    } else {
      var r, t :| Reachable(s0, r, n - 1) && Shape(r) && Enabled(r, t) && s == Apply(r, t);
      ReachableDisk(s0, r, n - 1);
      DiskStep(r, t);
    }
  }

  lemma {:induction false} InitDisk(s: State)
    requires Init(s)
    ensures DiskInv(s)
  {
    InitInv(s);
    hide Inv;
  }

  // ---------------------------------------------------------------- what every run guarantees

  /** When virtio_disk_rw's wait is over, the buffer and its block on the disk agree; a write has put there what the
      caller had in the buffer. */
  lemma {:induction false} RequestServed(s0: State, s: State, n: nat, p: nat)
    requires Reachable(s0, s, n) && p < |s.pc| == |s.ghostly.asked| && s.pc[p].Req? && s.pc[p].at == Done
    ensures s.pc[p].b < |s.bufs| && !s.bufs[s.pc[p].b].busy
    ensures var b := s.bufs[s.pc[p].b];
            && SectorAt(s.disk, 2 * b.blockno) == b.data[..SECTOR]
            && SectorAt(s.disk, 2 * b.blockno + 1) == b.data[SECTOR..]
    ensures s.pc[p].w ==> s.bufs[s.pc[p].b].data == s.ghostly.asked[p]
  {
    hide Reachable, Formats, Rings, Served, Chains, Exclusive, Held, Listed, Flight, Blocks;
    ReachableDisk(s0, s, n);
    assert OnDisk(s, p);
    NotInFlight(s, p);
    ServedAt(s, p);
    FlightFacts(s, p);
  }

  /** free_chain frees exactly the three descriptors of the request, none of which is free: "free_desc 2" cannot happen.
      */
  lemma {:induction false} ReclaimSafe(s0: State, s: State, n: nat, p: nat)
    requires Reachable(s0, s, n) && p < |s.pc| && s.pc[p].Req? && s.pc[p].at == Done
    ensures var c := s.pc[p];
            && Follow(s.desc, c.i0, NUM) == [c.i0, c.i1, c.i2] && c.i0 != c.i1 && c.i0 != c.i2 && c.i1 != c.i2
            && |s.free| == NUM && c.i0 < NUM && c.i1 < NUM && c.i2 < NUM && !s.free[c.i0] && !s.free[c.i1]
                && !s.free[c.i2]
  {
    hide Reachable, Formats, Rings, Served, Chains, Exclusive, Held, Listed, Flight, Follow;
    ReachableInv(s0, s, n);
    DoneChain(s, p);
    ChainAt(s.free, s.pc, s.ghostly.own, p);
  }

  /** No entry of the used ring is lost or seen twice, and the status that the handler finds is the 0 that the device
      writes when it has served a request: with a device that always does, the panic on a bad status cannot happen. */
  lemma {:induction false} HandlerSafe(s0: State, s: State, n: nat)
    requires Reachable(s0, s, n) && Shape(s)
    ensures s.usedSeen != s.usedIdx <==> s.ghostly.back != []
    ensures s.usedSeen != s.usedIdx ==>
              s.info[s.used[SlotOf(s.usedSeen)]].status == 0 && s.used[SlotOf(s.usedSeen)] == s.ghostly.back[0]
    ensures s.devIdx != s.availIdx <==> s.ghostly.queue != []
  {
    hide Reachable, Formats, Served, Chains, Exclusive, Held, Flight;
    ReachableInv(s0, s, n);
    if s.usedSeen != s.usedIdx {
      HandlerServesOwner(s);
      UsedHead(s);
    }
    if s.devIdx != s.availIdx { AvailHead(s); }
    InFlightFew(s.ghostly.flight, s.ghostly.queue, Queued);
    InFlightFew(s.ghostly.flight, s.ghostly.back, Returned);
    RingsFacts(s);
    hide Inv, Listed;
    NotWrapped(s.avail, s.devIdx, s.availIdx, s.ghostly.queue);
    NotWrapped(s.used, s.usedSeen, s.usedIdx, s.ghostly.back);
  }

  lemma {:induction false} InFlightFew(flight: map<nat, Stage>, q: seq<nat>, at: Stage)
    requires Listed(flight, q, at) && forall x :: x in flight ==> x < NUM
    ensures |q| <= NUM
  {
    Pigeons(q, NUM);
  }

  lemma {:induction false} NotWrapped(ring: seq<nat>, i: nat, end: nat, q: seq<nat>)
    requires RingOk(ring, i, end, q) && |q| <= NUM && i < UINT16
    ensures i == end <==> q == []
  {
  }

  // ---------------------------------------------------------------- counting descriptors

  ghost function Requests(pc: seq<Pc>, n: nat): nat
    requires n <= |pc|
  {
    if n == 0 then 0 else Requests(pc, n - 1) + if pc[n - 1].Req? then 1 else 0
  }

  ghost function OwnedBelow(own: map<nat, Role>, n: nat): set<nat> {
    set i | i in own && own[i].p < n
  }

  lemma {:induction false} OwnedCount(free: seq<bool>, pc: seq<Pc>, own: map<nat, Role>, n: nat)
    requires Chains(free, pc, own) && n <= |pc|
    ensures |OwnedBelow(own, n)| == 3 * Requests(pc, n)
    decreases n
  {
    if n == 0 {
      assert OwnedBelow(own, 0) == {};
    } else {
      OwnedCount(free, pc, own, n - 1);
      OwnedStep(free, pc, own, n);
    }
  }

  lemma {:induction false} OwnedStep(free: seq<bool>, pc: seq<Pc>, own: map<nat, Role>, n: nat)
    requires Chains(free, pc, own) && 0 < n <= |pc|
    ensures |OwnedBelow(own, n)| == |OwnedBelow(own, n - 1)| + if pc[n - 1].Req? then 3 else 0
  {
    var c, below, upto := pc[n - 1], OwnedBelow(own, n - 1), OwnedBelow(own, n);
    forall i | i in upto && i !in below
      ensures c.Req? && i in {c.i0, c.i1, c.i2}
    {
      assert RoleOk(pc, own, i);
    }
    if c.Req? {
      ChainAt(free, pc, own, n - 1);
      hide Chains;
      assert upto == below + {c.i0, c.i1, c.i2};
      assert |{c.i0, c.i1, c.i2}| == 3;
    } else {
      hide Chains;
      assert upto == below;
    }
  }

  ghost function FreeSet(free: seq<bool>): set<nat> {
    set i | 0 <= i < |free| && free[i]
  }

  /** Free descriptors plus three per request not yet reclaimed make NUM, in every state. */
  lemma {:induction false} DescriptorsConserved(s0: State, s: State, n: nat)
    requires Reachable(s0, s, n)
    ensures |FreeSet(s.free)| + 3 * Requests(s.pc, |s.pc|) == NUM
  {
    hide Reachable, Formats, Rings, Served, Exclusive, Held, Listed, Flight, Chains;
    ReachableInv(s0, s, n);
    OwnedCount(s.free, s.pc, s.ghostly.own, |s.pc|);
    OwnedAll(s.free, s.pc, s.ghostly.own);
    FreeOrOwned(s.free, s.pc, s.ghostly.own);
  }

  lemma {:induction false} OwnedAll(free: seq<bool>, pc: seq<Pc>, own: map<nat, Role>)
    requires Chains(free, pc, own)
    ensures OwnedBelow(own, |pc|) == own.Keys
  {
    forall i | i in own
      ensures i in OwnedBelow(own, |pc|)
    {
      assert RoleOk(pc, own, i);
    }
  }

  lemma {:induction false} FreeOrOwned(free: seq<bool>, pc: seq<Pc>, own: map<nat, Role>)
    requires Chains(free, pc, own)
    ensures |FreeSet(free)| + |own.Keys| == NUM
  {
    MarksSay(free, pc, own);
    BelowSize(NUM);
    hide Chains, Below;
    assert FreeSet(free) + own.Keys == Below(NUM);
    assert FreeSet(free) !! own.Keys;
  }

  lemma {:induction false} MarksSay(free: seq<bool>, pc: seq<Pc>, own: map<nat, Role>)
    requires Chains(free, pc, own)
    ensures |free| == NUM && (forall i :: i in own ==> i < NUM) && forall i :: 0 <= i < NUM ==> (free[i] <==> i !in own)
  {
    forall i | i in own
      ensures i < NUM
    {
      assert RoleOk(pc, own, i);
    }
  }

  ghost function Below(n: nat): set<nat> {
    if n == 0 then {} else Below(n - 1) + {n - 1}
  }

  lemma {:induction false} BelowSize(n: nat)
    ensures |Below(n)| == n && forall i: nat :: i in Below(n) <==> i < n
  {
    if n > 0 { BelowSize(n - 1); }
  }

  // ---------------------------------------------------------------- requests can always be finished

  function AtStage(flight: map<nat, Stage>, stages: set<Stage>): set<nat> {
    set h | h in flight && flight[h] in stages
  }

  /** How many steps the device and the handler have left to do. */
  function Work(flight: map<nat, Stage>): nat {
    |AtStage(flight, {Queued})| + |AtStage(flight, {Queued, Taken})| + |AtStage(flight, {Queued, Taken, Performed})|
        + |flight.Keys|
  }

  lemma {:induction false} StageSmaller(flight: map<nat, Stage>, h: nat, to: Stage, stages: set<Stage>)
    requires h in flight && (to in stages ==> flight[h] in stages)
    ensures AtStage(flight[h := to], stages) == AtStage(flight, stages) - if to in stages then {} else {h}
    ensures |AtStage(flight[h := to], stages)| ==
            |AtStage(flight, stages)| - if to !in stages && flight[h] in stages then 1 else 0
  {
    assert AtStage(flight[h := to], stages) == AtStage(flight, stages) - if to in stages then {} else {h};
  }

  /** The stage that follows. */
  function NextStage(at: Stage): Stage {
    match at case Queued => Taken case Taken => Performed case _ => Returned
  }

  lemma {:induction false} WorkLess(flight: map<nat, Stage>, h: nat)
    requires h in flight && flight[h] != Returned
    ensures Work(flight[h := NextStage(flight[h])]) < Work(flight)
  {
    var to := NextStage(flight[h]);
    StageSmaller(flight, h, to, {Queued});
    StageSmaller(flight, h, to, {Queued, Taken});
    StageSmaller(flight, h, to, {Queued, Taken, Performed});
    assert flight[h := to].Keys == flight.Keys;
    hide AtStage;
  }

  lemma {:induction false} WorkGone(flight: map<nat, Stage>, h: nat)
    requires h in flight && flight[h] == Returned
    ensures Work(flight - {h}) < Work(flight)
  {
    assert AtStage(flight - {h}, {Queued}) == AtStage(flight, {Queued});
    assert AtStage(flight - {h}, {Queued, Taken}) == AtStage(flight, {Queued, Taken});
    assert AtStage(flight - {h}, {Queued, Taken, Performed}) == AtStage(flight, {Queued, Taken, Performed});
    assert (flight - {h}).Keys == flight.Keys - {h};
  }

  lemma {:induction false} OneStep(s0: State, s: State, n: nat, t: Step)
    requires Reachable(s0, s, n) && Shape(s) && Enabled(s, t)
    ensures Reachable(s0, Apply(s, t), n + 1)
  {
  }

  /** Nothing that processes see of their requests is different, but for the data of buffers and whether they are
      busy. */
  ghost predicate SameRequests(s: State, t: State) {
    && t.pc == s.pc && t.ghostly.asked == s.ghostly.asked && |t.bufs| == |s.bufs|
    && forall b :: 0 <= b < |s.bufs| ==> t.bufs[b].blockno == s.bufs[b].blockno
  }

  /** With the handler inside, some step of the device or the handler brings a request further. */
  lemma {:induction false} Further(s0: State, s: State, n: nat) returns (t: State)
    requires Reachable(s0, s, n) && s.lock == Some(Handler) && s.ghostly.flight != map[]
    ensures Reachable(s0, t, n + 1) && t.lock == s.lock && SameRequests(s, t)
    ensures Work(t.ghostly.flight) < Work(s.ghostly.flight)
  {
    hide Reachable, Work, Formats, Rings, Served, Chains, Exclusive, Held, Listed, Flight, ApplyIo, SlotOf, Inc;
    hide Readable, SectorAt, Holds;
    ReachableInv(s0, s, n);
    HandlerSafe(s0, s, n);
    var h :| h in s.ghostly.flight;
    match s.ghostly.flight[h]
    case Queued =>
      InQueue(s, h);
      AvailHead(s);
      OneStep(s0, s, n, DevTake);
      t := Apply(s, DevTake);
      WorkLess(s.ghostly.flight, s.ghostly.queue[0]);
    case Taken =>
      DeviceServesOwner(s, h);
      OneStep(s0, s, n, DevIo(h));
      t := Apply(s, DevIo(h));
      IoLock(s, h);
      WorkLess(s.ghostly.flight, h);
    case Performed =>
      OneStep(s0, s, n, DevReturn(h));
      t := Apply(s, DevReturn(h));
      WorkLess(s.ghostly.flight, h);
    case Returned =>
      InQueue(s, h);
      UsedHead(s);
      HandlerServesOwner(s);
      OneStep(s0, s, n, Next);
      t := Apply(s, Next);
      WorkGone(s.ghostly.flight, s.ghostly.back[0]);
  }

  lemma {:induction false} InQueue(s: State, h: nat)
    requires Inv(s) && h in s.ghostly.flight
    ensures s.ghostly.flight[h] == Queued ==> s.ghostly.queue != []
    ensures s.ghostly.flight[h] == Returned ==> s.ghostly.back != []
  {
    hide Formats, Rings, Served, Chains, Exclusive, Held, Flight;
  }

  lemma {:induction false} IoLock(s: State, h: nat)
    requires Shape(s) && h in s.ghostly.flight
    ensures ApplyIo(s, h).lock == s.lock
  {
    hide Readable, Follow;
  }

  lemma {:induction false} HandlerDrains(s0: State, s: State, n: nat) returns (t: State, m: nat)
    requires Reachable(s0, s, n) && s.lock == Some(Handler)
    ensures Reachable(s0, t, n + m) && t.lock == s.lock && SameRequests(s, t) && t.ghostly.flight == map[]
    decreases Work(s.ghostly.flight)
  {
    hide Reachable, Work;
    t, m := s, 0;
    if s.ghostly.flight != map[] {
      var r := Further(s0, s, n);
      t, m := HandlerDrains(s0, r, n + 1);
      m := m + 1;
    }
  }

  /** Whenever vdisk_lock is free, device and handler can finish all that is in flight. */
  lemma {:induction false} Drains(s0: State, s: State, n: nat) returns (t: State, m: nat)
    requires Reachable(s0, s, n) && s.lock == None
    ensures Reachable(s0, t, n + m) && t.lock == None && SameRequests(s, t) && t.ghostly.flight == map[]
  {
    hide Reachable, Formats, Rings, Served, Chains, Exclusive, Held, Flight;
    ReachableInv(s0, s, n);
    OneStep(s0, s, n, Enter);
    t, m := HandlerDrains(s0, Apply(s, Enter), n + 1);
    ReachableInv(s0, t, n + 1 + m);
    HandlerSafe(s0, t, n + 1 + m);
    if t.ghostly.back != [] { BackInFlight(t); }
    OneStep(s0, t, n + 1 + m, Leave);
    t, m := Apply(t, Leave), m + 2;
  }

  lemma {:induction false} BackInFlight(s: State)
    requires Inv(s) && s.ghostly.back != []
    ensures s.ghostly.flight != map[]
  {
    hide Formats, Rings, Served, Chains, Exclusive, Held, Flight;
    assert s.ghostly.back[0] in s.ghostly.flight;
  }

  /** A process that sleeps for its request, with vdisk_lock free, can get to the end of it. */
  lemma {:induction false} RequestCompletes(s0: State, s: State, n: nat, p: nat) returns (t: State, m: nat)
    requires Reachable(s0, s, n) && s.lock == None && p < |s.pc| && s.pc[p].Req? && s.pc[p].at == Asleep
    ensures Reachable(s0, t, n + m) && p < |t.pc| && t.pc[p] == s.pc[p].(at := Done)
    ensures t.ghostly.asked == s.ghostly.asked && s.pc[p].b < |s.bufs| == |t.bufs|
    ensures t.bufs[s.pc[p].b].blockno == s.bufs[s.pc[p].b].blockno
  {
    hide Reachable, Formats, Rings, Served, Chains, Exclusive, Held, Flight, Listed;
    ReachableInv(s0, s, n);
    t, m := Drains(s0, s, n);
    ReachableInv(s0, t, n + m);
    FlightFacts(t, p);
    assert PcOk(|t.bufs|, t.pc[p]);
    OneStep(s0, t, n + m, Wake(p));
    var t1 := Apply(t, Wake(p));
    ReachableInv(s0, t1, n + m + 1);
    OneStep(s0, t1, n + m + 1, Check(p));
    t, m := Apply(t1, Check(p)), m + 2;
  }

  /** A call of virtio_disk_rw with vdisk_lock and three descriptors free can run to its end, where RequestServed says
      what it has done. */
  lemma {:induction false} RequestRuns(s0: State, s: State, n: nat, p: nat, b: nat, w: bool) returns (t: State, m: nat)
    requires Reachable(s0, s, n) && Shape(s) && Enabled(s, Begin(p, b, w)) && Has3(s.free)
    ensures Reachable(s0, t, n + m) && p < |t.pc| == |t.ghostly.asked|
    ensures t.pc[p].Req? && t.pc[p].at == Done && t.pc[p].b == b && t.pc[p].w == w
    ensures b < |t.bufs| && t.bufs[b].blockno == s.bufs[b].blockno && t.ghostly.asked[p] == s.bufs[b].data
  {
    hide Reachable, Formats, Rings, Served, Chains, Exclusive, Held, Flight, Listed;
    var t6 := SentOff(s0, s, n, p, b, w);
    ReachableInv(s0, t6, n + 6);
    t, m := RequestCompletes(s0, t6, n + 6, p);
    ReachableInv(s0, t, n + 6 + m);
    m := m + 6;
  }

  lemma {:induction false} SentOff(s0: State, s: State, n: nat, p: nat, b: nat, w: bool) returns (t: State)
    requires Reachable(s0, s, n) && Shape(s) && Enabled(s, Begin(p, b, w)) && Has3(s.free)
    ensures Reachable(s0, t, n + 6) && t.lock == None && p < |t.pc| == |t.ghostly.asked|
    ensures t.pc[p].Req? && t.pc[p].at == Asleep && t.pc[p].b == b && t.pc[p].w == w
    ensures b < |t.bufs| && t.bufs[b].blockno == s.bufs[b].blockno && t.ghostly.asked[p] == s.bufs[b].data
  {
    hide Reachable, Formats, Rings, Served, Chains, Exclusive, Held, Flight, Listed, SlotOf, Inc, FormatDesc, Mark3,
        Claimed, FirstFree, Sector;
    OneStep(s0, s, n, Begin(p, b, w));
    var t1 := Apply(s, Begin(p, b, w));
    ReachableInv(s0, t1, n + 1);
    OneStep(s0, t1, n + 1, Alloc(p));
    var t2 := Apply(t1, Alloc(p));
    ReachableInv(s0, t2, n + 2);
    OneStep(s0, t2, n + 2, Format(p));
    var t3 := Apply(t2, Format(p));
    ReachableInv(s0, t3, n + 3);
    OneStep(s0, t3, n + 3, Put(p));
    var t4 := Apply(t3, Put(p));
    ReachableInv(s0, t4, n + 4);
    OneStep(s0, t4, n + 4, Bump(p));
    var t5 := Apply(t4, Bump(p));
    ReachableInv(s0, t5, n + 5);
    FlightFacts(t5, p);
    OneStep(s0, t5, n + 5, Check(p));
    t := Apply(t5, Check(p));
  }

  // ---------------------------------------------------------------- the code that scans

  lemma {:induction false} FirstFreeIs(free: seq<bool>, i: nat)
    requires i <= |free| && (i < |free| ==> free[i]) && forall j :: 0 <= j < i ==> !free[j]
    ensures FirstFree(free) == i
  {
    var f := FirstFree(free);
    assert !(f < i) && !(i < f);
  }

  /** The chain from h ends within n descriptors. */
  predicate Ends(desc: seq<Desc>, h: nat, n: nat)
    decreases n
  {
    n > 0 && h < |desc| && (desc[h].chained ==> Ends(desc, desc[h].next, n - 1))
  }

  lemma {:induction false} FollowStep(desc: seq<Desc>, i: nat, n: nat)
    requires Ends(desc, i, n)
    ensures n > 0 && i < |desc|
            && Follow(desc, i, n) == [i] + (if desc[i].chained then Follow(desc, desc[i].next, n - 1) else [])
    ensures desc[i].chained ==> Ends(desc, desc[i].next, n - 1) && desc[i].next < |desc|
  {
  }

  class Descriptors {
    const free: array<bool>
    const desc: array<Desc>

    ghost predicate Valid()
      reads this
    {
      free.Length == desc.Length == NUM
    }

    constructor ()
      ensures Valid() && fresh(free) && fresh(desc)
      ensures free[..] == seq(NUM, _ => true) && desc[..] == seq(NUM, _ => NODESC)
    {
      free := new bool[NUM](_ => true);
      desc := new Desc[NUM](_ => NODESC);
    }

    method AllocDesc() returns (i: int)
      requires Valid()
      modifies free
      ensures FirstFree(old(free[..])) < NUM ==> i == FirstFree(old(free[..])) && free[..] == Claimed(old(free[..]))
      ensures FirstFree(old(free[..])) == NUM ==> i == -1 && free[..] == old(free[..])
    {
      var k := 0;
      while k < NUM
        invariant k <= NUM && free[..] == old(free[..]) && forall j :: 0 <= j < k ==> !free[j]
      {
        if free[k] {
          FirstFreeIs(free[..], k);
          free[k] := false;
          return k;
        }
        k := k + 1;
      }
      FirstFreeIs(free[..], NUM);
      return -1;
    }

    /** The panics of free_desc are the preconditions. */
    method FreeDesc(i: nat)
      requires Valid() && i < NUM && !free[i]
      modifies free, desc
      ensures free[..] == old(free[..])[i := true] && desc[..] == old(desc[..])[i := NODESC]
    {
      desc[i] := NODESC;
      free[i] := true;
    }

    /** Three descriptors, or the same free ones as before. */
    method Alloc3() returns (ok: bool, i0: nat, i1: nat, i2: nat)
      requires Valid()
      modifies free, desc
      ensures ok == Has3(old(free[..]))
      ensures ok ==>
                i0 == FirstFree(old(free[..])) && i1 == FirstFree(Claimed(old(free[..])))
                && i2 == FirstFree(Claimed(Claimed(old(free[..]))))
      ensures ok ==>
                i0 < NUM && i1 < NUM && i2 < NUM && free[..] == Mark3(old(free[..]), i0, i1, i2, false)
                && desc[..] == old(desc[..])
      ensures !ok ==> free[..] == old(free[..]) && forall j :: 0 <= j < NUM && !old(free[j]) ==> desc[j] == old(desc[j])
    {
      hide FirstFree;
      ghost var f := free[..];
      var idx := new int[3];
      var i := 0;
      while i < 3
        invariant 0 <= i <= 3 && idx.Length == 3 && fresh(idx) && desc[..] == old(desc[..]) && i <= Claims(f)
        invariant free[..] == ClaimedTimes(f, i)
        invariant forall k :: 0 <= k < i ==> 0 <= idx[k] < NUM && idx[k] == FirstFree(ClaimedTimes(f, k))
      {
        ghost var taken := idx[..i];
        idx[i] := AllocDesc();
        ClaimStep(f, i);
        if idx[i] < 0 {
          assert idx[..i] == taken;
          GiveBack(idx, i, f);
          return false, 0, 0, 0;
        }
        i := i + 1;
      }
      ThreeFree(f);
      return true, idx[0], idx[1], idx[2];
    }

    /** alloc3_desc, lines 207-208. */
    method GiveBack(idx: array<int>, i: nat, ghost f: seq<bool>)
      requires Valid() && |f| == NUM && idx.Length == 3 && i < 3 && i <= Claims(f) && free[..] == ClaimedTimes(f, i)
      requires forall k :: 0 <= k < i ==> 0 <= idx[k] < NUM && idx[k] == FirstFree(ClaimedTimes(f, k))
      modifies free, desc
      ensures free[..] == f && forall j :: 0 <= j < NUM && !f[j] ==> desc[j] == old(desc[j])
    {
      hide FirstFree, ClaimedTimes, Claims, FreedMarks;
      TakenBack(f, i);
      ghost var taken: seq<nat> := Takens(f, i);
      var j := 0;
      FreedNone(ClaimedTimes(f, i));
      while j < i
        invariant j <= i && free[..] == FreedMarks(ClaimedTimes(f, i), taken[..j])
        invariant forall x :: 0 <= x < NUM && !f[x] ==> desc[x] == old(desc[x])
      {
        assert idx[j] == taken[j];
        StillTaken(ClaimedTimes(f, i), taken, j);
        FreeDesc(idx[j]);
        j := j + 1;
      }
      assert taken[..i] == taken;
    }

    /** Frees the descriptors of a chain, each once. */
    method FreeChain(head: nat)
      requires Valid() && Ends(desc[..], head, NUM) && Distinct(Follow(desc[..], head, NUM))
      requires forall j :: j in Follow(desc[..], head, NUM) ==> j < NUM && !free[j]
      modifies free, desc
      ensures free[..] == FreedMarks(old(free[..]), Follow(old(desc[..]), head, NUM))
      ensures desc[..] == FreedDesc(old(desc[..]), Follow(old(desc[..]), head, NUM))
    {
      hide Follow, Ends, FreedMarks, FreedDesc, Distinct;
      ghost var all: seq<nat>, n: nat, done: seq<nat> := Follow(desc[..], head, NUM), NUM, [];
      ghost var free0, desc0 := free[..], desc[..];
      FreedNone(free0);
      FreedNoDesc(desc0);
      EndsHere(desc0, head, NUM);
      var i: nat := head;
      while true
        invariant n <= NUM && i < NUM && Ends(desc0, i, n) && all == done + Follow(desc0, i, n)
        invariant free[..] == FreedMarks(free0, done) && desc[..] == FreedDesc(desc0, done)
        decreases n
      {
        ChainStep(free0, desc0, all, done, i, n);
        assert desc[..][i] == desc0[i] && !free[..][i];
        var flag := desc[i].chained;
        var nxt := desc[i].next;
        FreeDesc(i);
        FreedOne(free0, desc0, done, i);
        done := done + [i];
        if flag {
          i := nxt;
          n := n - 1;
        } else {
          break;
        }
      }
    }
  }

  lemma {:induction false} EndsHere(desc: seq<Desc>, h: nat, n: nat)
    requires Ends(desc, h, n)
    ensures h < |desc|
  {
  }

  lemma {:induction false} ChainStep(free: seq<bool>, desc: seq<Desc>, all: seq<nat>, done: seq<nat>, i: nat, n: nat)
    requires |free| == |desc| == NUM && Ends(desc, i, n) && all == done + Follow(desc, i, n) && Distinct(all)
    requires forall j :: j in all ==> j < NUM && !free[j]
    ensures FreedDesc(desc, done)[i] == desc[i] && !FreedMarks(free, done)[i]
    ensures desc[i].chained ==>
              n > 0 && desc[i].next < NUM && Ends(desc, desc[i].next, n - 1)
              && all == done + [i] + Follow(desc, desc[i].next, n - 1)
    ensures !desc[i].chained ==> all == done + [i]
  {
    FollowStep(desc, i, n);
    hide Follow, Ends;
    assert all[|done|] == i;
    NotBefore(all, done, i);
    hide Distinct;
  }

  lemma {:induction false} FreedNoDesc(desc: seq<Desc>)
    ensures FreedDesc(desc, []) == desc
  {
  }

  lemma {:induction false} FreedOne(free: seq<bool>, desc: seq<Desc>, done: seq<nat>, i: nat)
    requires |free| == |desc| == NUM && i < NUM
    ensures FreedMarks(free, done)[i := true] == FreedMarks(free, done + [i])
    ensures FreedDesc(desc, done)[i := NODESC] == FreedDesc(desc, done + [i])
  {
  }

  /** free after n successful calls of alloc_desc. */
  function ClaimedTimes(free: seq<bool>, n: nat): (r: seq<bool>)
    ensures |r| == |free|
  {
    if n == 0 then free else
    var f := ClaimedTimes(free, n - 1);
    if FirstFree(f) < |f| then Claimed(f) else f
  }

  /** How many of three calls succeed. */
  function Claims(free: seq<bool>): nat {
    if FirstFree(free) >= |free| then 0
    else if FirstFree(Claimed(free)) >= |free| then 1
    else if FirstFree(Claimed(Claimed(free))) >= |free| then 2 else 3
  }

  lemma {:induction false} ClaimStep(free: seq<bool>, i: nat)
    requires i < 3 && i <= Claims(free)
    ensures FirstFree(ClaimedTimes(free, i)) < |free| <==> i < Claims(free)
    ensures i < Claims(free) ==> ClaimedTimes(free, i + 1) == Claimed(ClaimedTimes(free, i))
    ensures Claims(free) == 3 <==> Has3(free)
    ensures ClaimedTimes(free, 0) == free
    ensures Claims(free) >= 1 ==> ClaimedTimes(free, 1) == Claimed(free)
    ensures Claims(free) >= 2 ==> ClaimedTimes(free, 2) == Claimed(Claimed(free))
    ensures Claims(free) >= 3 ==> ClaimedTimes(free, 3) == Claimed(Claimed(Claimed(free)))
  {
    hide FirstFree;
    assert ClaimedTimes(free, 1) == if FirstFree(free) < |free| then Claimed(free) else free;
    assert Claims(free) >= 2 ==> ClaimedTimes(free, 2) == Claimed(Claimed(free));
    assert Claims(free) >= 3 ==> ClaimedTimes(free, 3) == Claimed(Claimed(Claimed(free)));
  }

  /** What i successful calls of alloc_desc returned. */
  ghost function Takens(free: seq<bool>, i: nat): (r: seq<nat>)
    ensures |r| == i
  {
    if i == 0 then [] else Takens(free, i - 1) + [FirstFree(ClaimedTimes(free, i - 1))]
  }

  /** Freeing what was taken gives back what was there. */
  lemma {:induction false} TakenBack(free: seq<bool>, i: nat)
    requires i < 3 && i <= Claims(free) && |free| == NUM
    ensures forall k :: 0 <= k < i ==> Takens(free, i)[k] == FirstFree(ClaimedTimes(free, k)) < NUM
    ensures forall k :: 0 <= k < i ==> free[Takens(free, i)[k]] && !ClaimedTimes(free, i)[Takens(free, i)[k]]
    ensures Distinct(Takens(free, i)) && FreedMarks(ClaimedTimes(free, i), Takens(free, i)) == free
  {
    hide Claims, FirstFree, ClaimedTimes, Claimed, FreedMarks, Distinct;
    if i == 0 {
      ClaimStep(free, 0);
      FreedNone(free);
      NoneDistinct();
    } else if i == 1 {
      TakenOne(free);
    } else {
      TakenTwo(free);
    }
  }

  lemma {:induction false} NoneDistinct()
    ensures Distinct([])
  {
  }

  lemma {:induction false} TakenOne(free: seq<bool>)
    requires 1 <= Claims(free) && |free| == NUM
    ensures var a := FirstFree(free);
            && Takens(free, 1) == [a] && a < NUM && free[a] && !ClaimedTimes(free, 1)[a]
                && ClaimedTimes(free, 0) == free
            && Distinct([a]) && FreedMarks(ClaimedTimes(free, 1), [a]) == free
  {
    ClaimStep(free, 0);
    hide Claims, FirstFree, ClaimedTimes;
    assert Takens(free, 0) == [];
  }

  lemma {:induction false} TakenTwo(free: seq<bool>)
    requires 2 <= Claims(free) && |free| == NUM
    ensures var a, b := FirstFree(free), FirstFree(Claimed(free));
            && Takens(free, 2) == [a, b] && a < NUM && b < NUM && free[a] && free[b] && ClaimedTimes(free, 0) == free
                && ClaimedTimes(free, 1) == Claimed(free)
            && !ClaimedTimes(free, 2)[a] && !ClaimedTimes(free, 2)[b] && Distinct([a, b])
                && FreedMarks(ClaimedTimes(free, 2), [a, b]) == free
  {
    ClaimStep(free, 1);
    TakenOne(free);
    hide Claims, FirstFree, ClaimedTimes;
    assert Takens(free, 2) == Takens(free, 1) + [FirstFree(ClaimedTimes(free, 1))];
  }

  lemma {:induction false} FreedNone(free: seq<bool>)
    ensures FreedMarks(free, []) == free
  {
  }

  lemma {:induction false} StillTaken(free: seq<bool>, taken: seq<nat>, j: nat)
    requires Distinct(taken) && j < |taken| && taken[j] < |free| && !free[taken[j]]
    ensures !FreedMarks(free, taken[..j])[taken[j]]
            && FreedMarks(free, taken[..j])[taken[j] := true] == FreedMarks(free, taken[..j + 1])
  {
    assert taken[..j + 1] == taken[..j] + [taken[j]];
  }

  lemma {:induction false} NotBefore(all: seq<nat>, done: seq<nat>, i: nat)
    requires Distinct(all) && done < all && all[|done|] == i
    ensures i !in done && i in all
  {
  }
}
