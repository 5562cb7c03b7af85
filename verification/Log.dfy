/**
 * The write-ahead log of kernel/log.c.
 *
 * `State` and `Apply` are a machine whose steps are single block writes, single
 * calls of begin_op, log_write and end_op in any interleaving, and a crash that
 * may fall between any two of them, also inside recovery.  `Exec` runs a list of
 * steps.  The class `Logger` at the end is the code itself, loop by loop, and
 * each of its methods is proved to be a run of that machine.
 */
module Log {

  const LOGSIZE: nat := 30      // MAXOPBLOCKS*3
  const MAXOPBLOCKS: nat := 10
  const WORDS: nat := 256       // BSIZE / sizeof(int)

  type Block = b: seq<int> | |b| == WORDS witness seq(WORDS, _ => 0)
  type Disk = seq<Block>

  /** The superblock's log region and the number of blocks of the device. */
  datatype Layout = Layout(start: nat, nlog: nat, size: nat) {
    ghost predicate Valid() {
      1 <= nlog && start + nlog <= size
    }

    predicate Home(b: int) {
      0 <= b < size && !(start <= b < start + nlog)
    }

    /** The block that holds log entry j. */
    function Slot(j: int): int {
      start + 1 + j
    }

    /** The guard of log_write panics from this many entries on. */
    function Capacity(): nat
      requires 1 <= nlog
    {
      if LOGSIZE <= nlog - 1 then LOGSIZE else nlog - 1
    }
  }

  // ---------------------------------------------------------------- header

  /** write_head overwrites the first n+1 words and leaves the rest stale. */
  function EncodeHead(prior: Block, lh: seq<int>): Block
    requires |lh| < WORDS
  {
    [|lh|] + lh + prior[|lh| + 1..]
  }

  function DecodeHead(b: Block): seq<int>
    requires 0 <= b[0] < WORDS
  {
    b[1..b[0] + 1]
  }

  lemma {:induction false} HeadRoundTrip(prior: Block, lh: seq<int>)
    requires |lh| < WORDS
    ensures 0 <= EncodeHead(prior, lh)[0] < WORDS
    ensures DecodeHead(EncodeHead(prior, lh)) == lh
  {
  }

  ghost predicate Distinct(s: seq<int>) {
    forall i, j :: 0 <= i < j < |s| ==> s[i] != s[j]
  }

  ghost predicate Entries(L: Layout, lh: seq<int>)
    requires L.Valid()
  {
    |lh| <= L.Capacity() && Distinct(lh) && forall i :: 0 <= i < |lh| ==> L.Home(lh[i])
  }

  /** The position of x in s, or |s|: the absorption loop of log_write. */
  function IndexOf(s: seq<int>, x: int): (i: nat)
    ensures i <= |s| && (i < |s| <==> x in s)
    ensures i < |s| ==> s[i] == x
    ensures forall j :: 0 <= j < i ==> s[j] != x
  {
    if s == [] || s[0] == x then 0 else 1 + IndexOf(s[1..], x)
  }

  // ---------------------------------------------------------------- machine

  datatype Write = Write(op: nat, block: nat, data: Block)

  /** Where the kernel is: up and idle, at some write of commit(), down, or
      at some write of recover_from_log(). */
  datatype Phase =
    | Idle
    | WriteLog(tail: nat)
    | WriteHead
    | Install(tail: nat, recovering: bool)
    | ClearHead(recovering: bool)
    | Finish
    | Down

  /** A system call between begin_op and end_op; `added` is how many new blocks it put in the log. */
  datatype Op = Op(id: nat, added: nat)

  datatype State = State(
    disk: Disk,
    cache: map<int, Block>,      // contents of the pinned buffers
    lh: seq<int>,
    ops: seq<Op>,                // log.outstanding is its length
    committing: bool,
    phase: Phase,
    committed: seq<Write>,       // history: log_writes whose header write reached the disk
    pending: seq<Write>,         // history: log_writes of the current group
    issued: seq<Write>,          // history: every log_write, lost ones included
    nextOp: nat,
    frugal: bool)                // history: every call so far has kept to its budget

  datatype Step =
    | Begin
    | LogWrite(i: nat, block: nat, data: Block)
    | End(i: nat)
    | Advance                    // the next block write of commit or recovery
    | Crash
    | Boot

  predicate Up(p: Phase) {
    !p.Down? && !(p.Install? && p.recovering) && !(p.ClearHead? && p.recovering)
  }

  ghost predicate HeadOk(L: Layout, disk: Disk)
    requires L.Valid()
  {
    |disk| == L.size && 0 <= disk[L.start][0] < WORDS && Entries(L, DecodeHead(disk[L.start]))
  }

  /** "too big a transaction": log_write's guard, which it tests before it looks for an absorbed block. */
  predicate Panics(L: Layout, s: State) {
    |s.lh| >= LOGSIZE || |s.lh| >= L.nlog - 1
  }

  /** The i-th running call may log block b without adding more than MAXOPBLOCKS blocks. */
  predicate InBudget(s: State, i: nat, b: nat) {
    i < |s.ops| && (b !in s.lh ==> s.ops[i].added < MAXOPBLOCKS)
  }

  ghost predicate Enabled(L: Layout, s: State, step: Step)
    requires L.Valid()
  {
    match step
    case Begin => Up(s.phase) && !s.committing && |s.lh| + (|s.ops| + 1) * MAXOPBLOCKS <= LOGSIZE
    case LogWrite(i, b, _) =>
      && Up(s.phase) && i < |s.ops|
      && !Panics(L, s)
      && L.Home(b)
    case End(i) => Up(s.phase) && i < |s.ops|
    case Advance =>
      && HeadOk(L, s.disk) && Entries(L, s.lh)
      && (s.phase.WriteLog? || s.phase.WriteHead? || s.phase.Install? || s.phase.ClearHead? || s.phase.Finish?)
      && (s.phase.WriteLog? && s.phase.tail < |s.lh| ==> s.lh[s.phase.tail] in s.cache)
    case Crash => true
    case Boot => s.phase.Down? && HeadOk(L, s.disk)
  }

  function Remove<T>(s: seq<T>, i: nat): seq<T>
    requires i < |s|
  {
    s[..i] + s[i + 1..]
  }

  ghost function Apply(L: Layout, s: State, step: Step): State
    requires L.Valid() && Enabled(L, s, step)
  {
    match step
    case Begin => s.(ops := s.ops + [Op(s.nextOp, 0)], nextOp := s.nextOp + 1)
    case LogWrite(i, b, data) =>
      var w := Write(s.ops[i].id, b, data);
      var s1 := s.(cache := s.cache[b := data], pending := s.pending + [w], issued := s.issued + [w],
                   frugal := s.frugal && InBudget(s, i, b));
      if b in s.lh then s1
      else s1.(lh := s.lh + [b], ops := s.ops[i := s.ops[i].(added := s.ops[i].added + 1)])
    case End(i) =>
      var ops := Remove(s.ops, i);
      if ops != [] then s.(ops := ops)
      else s.(ops := ops, committing := true, phase := if |s.lh| > 0 then Phase.WriteLog(0) else Finish)
    case Advance => ApplyAdvance(L, s)
    case Crash => Crashed(s)
    case Boot => s.(lh := DecodeHead(s.disk[L.start]), phase := Phase.Install(0, true))
  }

  /** Only the disk survives; the last three fields are the observer's. */
  function Crashed(s: State): State {
    State(s.disk, map[], [], [], false, Down, s.committed, [], s.issued, s.nextOp, s.frugal)
  }

  ghost function ApplyAdvance(L: Layout, s: State): State
    requires L.Valid() && Enabled(L, s, Advance)
  {
    match s.phase
    case WriteLog(t) =>
      if t < |s.lh| then s.(disk := s.disk[L.Slot(t) := s.cache[s.lh[t]]], phase := Phase.WriteLog(t + 1))
      else s.(phase := Phase.WriteHead)
    case WriteHead =>
      s.(disk := s.disk[L.start := EncodeHead(s.disk[L.start], s.lh)],
         committed := s.committed + s.pending, pending := [], phase := Phase.Install(0, false))
    case Install(t, r) =>
      if t < |s.lh| then
        s.(disk := s.disk[s.lh[t] := s.disk[L.Slot(t)]],
           cache := if r then s.cache else s.cache - {s.lh[t]},
           phase := Phase.Install(t + 1, r))
      else s.(lh := [], phase := Phase.ClearHead(r))
    case ClearHead(r) =>
      s.(disk := s.disk[L.start := EncodeHead(s.disk[L.start], s.lh)], phase := if r then Idle else Finish)
    case _ => s.(committing := false, phase := Idle)
  }

  /** Any machine that is switched off, with a well-formed log on its disk. */
  ghost predicate Init(L: Layout, s: State)
    requires L.Valid()
  {
    HeadOk(L, s.disk) && s == State(s.disk, map[], [], [], false, Down, [], [], [], 0, true)
  }

  ghost predicate IsRun(L: Layout, s0: State, steps: seq<Step>)
    requires L.Valid()
    decreases |steps|, 1
  {
    steps == [] || (IsRun(L, s0, steps[..|steps| - 1])
                    && Enabled(L, Exec(L, s0, steps[..|steps| - 1]), steps[|steps| - 1]))
  }

  ghost function Exec(L: Layout, s0: State, steps: seq<Step>): State
    requires L.Valid() && IsRun(L, s0, steps)
    decreases |steps|, 2
  {
    if steps == [] then s0
    else Apply(L, Exec(L, s0, steps[..|steps| - 1]), steps[|steps| - 1])
  }

  // ---------------------------------------------------------------- meaning

  /** The disk after a list of writes, each to its own block: what the log is to implement. */
  function Replay(d: Disk, ws: seq<Write>): (r: Disk)
    ensures |r| == |d|
  {
    if ws == [] then d
    else
      var w := ws[|ws| - 1];
      var r := Replay(d, ws[..|ws| - 1]);
      if w.block < |r| then r[w.block := w.data] else r
  }

  lemma {:induction false} ReplayConcat(d: Disk, a: seq<Write>, b: seq<Write>)
    ensures Replay(d, a + b) == Replay(Replay(d, a), b)
  {
    if b == [] {
      assert a + b == a;
    } else {
      ReplayConcat(d, a, b[..|b| - 1]);
      assert (a + b)[..|a + b| - 1] == a + b[..|b| - 1];
    }
  }

  const ZeroBlock: Block := seq(WORDS, _ => 0)

  /** The home blocks of a disk, with the log region blanked out. */
  ghost function HomeOf(L: Layout, d: Disk): Disk
    requires |d| == L.size
  {
    seq(L.size, b requires 0 <= b < L.size => if L.Home(b) then d[b] else ZeroBlock)
  }

  /** What block b holds once the log on this disk has been replayed. */
  ghost function RecoveredBlock(L: Layout, disk: Disk, b: int): Block
    requires L.Valid() && HeadOk(L, disk) && L.Home(b)
  {
    var lh := DecodeHead(disk[L.start]);
    var i := IndexOf(lh, b);
    if i < |lh| then disk[L.Slot(i)] else disk[b]
  }

  ghost function Recovered(L: Layout, disk: Disk): Disk
    requires L.Valid() && HeadOk(L, disk)
  {
    seq(L.size, b requires 0 <= b < L.size => if L.Home(b) then RecoveredBlock(L, disk, b) else ZeroBlock)
  }

  /** What system calls read through the cache. */
  ghost function Logical(L: Layout, disk: Disk, cache: map<int, Block>): Disk
    requires |disk| == L.size
  {
    seq(L.size, b requires 0 <= b < L.size =>
      if !L.Home(b) then ZeroBlock else if b in cache then cache[b] else disk[b])
  }

  function ById(ws: seq<Write>, id: nat): seq<Write> {
    if ws == [] then []
    else if ws[|ws| - 1].op == id then ById(ws[..|ws| - 1], id) + [ws[|ws| - 1]]
    else ById(ws[..|ws| - 1], id)
  }

  lemma {:induction false} ByIdConcat(a: seq<Write>, b: seq<Write>, id: nat)
    ensures ById(a + b, id) == ById(a, id) + ById(b, id)
  {
    if b == [] {
      assert a + b == a;
    } else {
      ByIdConcat(a, b[..|b| - 1], id);
      assert (a + b)[..|a + b| - 1] == a + b[..|b| - 1];
    }
  }

  function Unspent(ops: seq<Op>): int {
    if ops == [] then 0 else Unspent(ops[..|ops| - 1]) + MAXOPBLOCKS - ops[|ops| - 1].added
  }

  lemma {:induction false} UnspentConcat(a: seq<Op>, b: seq<Op>)
    ensures Unspent(a + b) == Unspent(a) + Unspent(b)
  {
    if b == [] {
      assert a + b == a;
    } else {
      UnspentConcat(a, b[..|b| - 1]);
      assert (a + b)[..|a + b| - 1] == a + b[..|b| - 1];
    }
  }

  lemma {:induction false} UnspentSplit(ops: seq<Op>, i: nat)
    requires i < |ops|
    ensures Unspent(ops) == Unspent(Remove(ops, i)) + MAXOPBLOCKS - ops[i].added
  {
    assert ops == ops[..i + 1] + ops[i + 1..];
    assert ops[..i + 1][..i] == ops[..i];
    UnspentConcat(ops[..i + 1], ops[i + 1..]);
    UnspentConcat(ops[..i], ops[i + 1..]);
  }

  lemma {:induction false} UnspentUpdate(ops: seq<Op>, i: nat, o: Op)
    requires i < |ops|
    ensures Unspent(ops[i := o]) == Unspent(ops) + ops[i].added - o.added
  {
    UnspentSplit(ops, i);
    UnspentSplit(ops[i := o], i);
    assert Remove(ops, i) == Remove(ops[i := o], i);
  }

  // ---------------------------------------------------------------- invariant

  /** begin_op's reservation: the log can take every block still promised to a running call. */
  ghost predicate Admitted(s: State) {
    s.frugal ==>
      && |s.lh| + Unspent(s.ops) <= LOGSIZE
      && forall i :: 0 <= i < |s.ops| ==> s.ops[i].added <= MAXOPBLOCKS
  }

  ghost predicate Shape(L: Layout, s: State)
    requires L.Valid()
  {
    && HeadOk(L, s.disk)
    && Entries(L, s.lh)
    && (s.committing <==> Up(s.phase) && !s.phase.Idle?)
    && (s.committing || !Up(s.phase) ==> s.ops == [])
    && (s.phase.Install? || s.phase.ClearHead? || s.phase.Finish? || s.phase.Down? ==> s.pending == [])
    && (s.phase.Finish? ==> s.lh == [])
    && (s.phase.Idle? && s.lh == [] ==> s.pending == [])
  }

  /** The cache holds exactly the pinned blocks: those logged and not yet installed. */
  ghost predicate CacheOk(s: State) {
    && (forall b :: b in s.cache <==> b in Pinned(s))
  }

  ghost function Pinned(s: State): seq<int> {
    match s.phase
    case Install(t, r) => if r || t > |s.lh| then [] else s.lh[t..]
    case Idle => s.lh
    case WriteLog(_) => s.lh
    case WriteHead => s.lh
    case _ => []
  }

  /** The log slots [from, to) hold the same blocks as the home locations of lh. */
  ghost predicate Installed(L: Layout, disk: Disk, lh: seq<int>, to: nat)
    requires L.Valid() && |disk| == L.size && Entries(L, lh)
  {
    to <= |lh| && forall j :: 0 <= j < to ==> disk[lh[j]] == disk[L.Slot(j)]
  }

  ghost predicate Logged(L: Layout, disk: Disk, cache: map<int, Block>, lh: seq<int>, from: nat, to: nat)
    requires L.Valid() && |disk| == L.size && Entries(L, lh)
  {
    to <= |lh| && forall j :: from <= j < to ==> lh[j] in cache && disk[L.Slot(j)] == cache[lh[j]]
  }

  ghost predicate PhaseOk(L: Layout, s: State)
    requires L.Valid() && Shape(L, s)
  {
    var head := DecodeHead(s.disk[L.start]);
    match s.phase
    case Idle => head == []
    case WriteLog(t) => head == [] && |s.lh| > 0 && Logged(L, s.disk, s.cache, s.lh, 0, t)
    case WriteHead => head == [] && |s.lh| > 0 && Logged(L, s.disk, s.cache, s.lh, 0, |s.lh|)
    case Install(t, r) => head == s.lh && Installed(L, s.disk, s.lh, t)
        && (!r ==> Logged(L, s.disk, s.cache, s.lh, t, |s.lh|))
    case ClearHead(_) => s.lh == [] && Installed(L, s.disk, head, |head|)
    case Finish => head == []
    case Down => s.lh == []
  }

  /** Replaying the on-disk log gives the committed writes, and the cache shows the pending ones too. */
  ghost predicate Agrees(L: Layout, base: Disk, s: State)
    requires L.Valid() && HeadOk(L, s.disk) && |base| == L.size
  {
    && Recovered(L, s.disk) == HomeOf(L, Replay(base, s.committed))
    && (Up(s.phase) ==> Logical(L, s.disk, s.cache) == HomeOf(L, Replay(base, s.committed + s.pending)))
  }

  /** A call is in one piece: running calls are wholly in the current group, ended ones wholly in or wholly out. */
  ghost predicate WholeOps(s: State) {
    OpIds(s) && forall id: nat :: Whole(s, id)
  }

  ghost predicate OpIds(s: State) {
    IdsOk(s.ops, s.nextOp)
  }

  ghost predicate IdsOk(ops: seq<Op>, next: nat) {
    && (forall i :: 0 <= i < |ops| ==> ops[i].id < next)
    && (forall i, j :: 0 <= i < j < |ops| ==> ops[i].id != ops[j].id)
  }

  ghost predicate Whole(s: State, id: nat) {
    var issued := ById(s.issued, id);
    && (id >= s.nextOp ==> issued == [])
    && (Running(s, id) ==> ById(s.committed, id) == [] && ById(s.pending, id) == issued)
    && (ById(s.committed, id) == [] || ById(s.pending, id) == [])
    && (ById(s.committed, id) == [] || ById(s.committed, id) == issued)
    && (ById(s.pending, id) == [] || ById(s.pending, id) == issued)
  }

  ghost predicate Running(s: State, id: nat) {
    exists i :: 0 <= i < |s.ops| && s.ops[i].id == id
  }

  ghost predicate Core(L: Layout, s: State)
    requires L.Valid()
  {
    Shape(L, s) && CacheOk(s) && PhaseOk(L, s)
  }

  ghost predicate Inv(L: Layout, base: Disk, s: State)
    requires L.Valid()
  {
    |base| == L.size && Core(L, s) && Admitted(s) && Agrees(L, base, s) && WholeOps(s)
  }

  // ---------------------------------------------------------------- preservation

  /** Recovery yields the same after a change that moves neither the log nor an unlogged home block. */
  lemma {:induction false} RecoveredSame(L: Layout, d: Disk, d': Disk)
    requires L.Valid() && HeadOk(L, d) && HeadOk(L, d')
    requires DecodeHead(d[L.start]) == DecodeHead(d'[L.start])
    requires var lh := DecodeHead(d[L.start]);
             && (forall j :: 0 <= j < |lh| ==> d[L.Slot(j)] == d'[L.Slot(j)])
             && (forall b :: L.Home(b) && b !in lh ==> d[b] == d'[b])
    ensures Recovered(L, d) == Recovered(L, d')
  {
    forall b | L.Home(b)
      ensures RecoveredBlock(L, d, b) == RecoveredBlock(L, d', b)
    {
    }
  }

  lemma {:induction false} LogicalWrite(L: Layout, disk: Disk, cache: map<int, Block>, r: Disk, b: nat, data: Block)
    requires |disk| == |r| == L.size && L.Home(b)
    requires Logical(L, disk, cache) == HomeOf(L, r)
    ensures Logical(L, disk, cache[b := data]) == HomeOf(L, r[b := data])
  {
    var x, y := Logical(L, disk, cache), HomeOf(L, r);
    var x', y' := Logical(L, disk, cache[b := data]), HomeOf(L, r[b := data]);
    forall k | 0 <= k < L.size
      ensures x'[k] == y'[k]
    {
      assert x[k] == y[k];
    }
  }

  lemma {:induction false} ReplaySnoc(d: Disk, ws: seq<Write>, w: Write)
    requires w.block < |d|
    ensures Replay(d, ws + [w]) == Replay(d, ws)[w.block := w.data]
  {
    assert (ws + [w])[..|ws|] == ws;
  }

  lemma {:induction false} UnspentBound(ops: seq<Op>)
    ensures Unspent(ops) <= |ops| * MAXOPBLOCKS
  {
    if ops != [] { UnspentBound(ops[..|ops| - 1]); }
  }

  /** No step breaks the reservation that begin_op makes. */
  lemma {:induction false} AdmittedKept(L: Layout, s: State, step: Step)
    requires L.Valid() && Shape(L, s) && Admitted(s) && Enabled(L, s, step)
    ensures Admitted(Apply(L, s, step))
  {
    if step.Begin? || step.LogWrite? || step.End? { CallAdmitted(L, s, step); }
  }

  lemma {:induction false} CallAdmitted(L: Layout, s: State, step: Step)
    requires L.Valid() && Admitted(s) && Enabled(L, s, step)
    requires step.Begin? || step.LogWrite? || step.End?
    ensures Admitted(Apply(L, s, step))
  {
    hide HeadOk, Entries, ApplyAdvance, Unspent, DecodeHead;
    match step
    case Begin => UnspentBegin(s.ops, Op(s.nextOp, 0));
    case LogWrite(i, b, _) =>
      if b !in s.lh { UnspentUpdate(s.ops, i, s.ops[i].(added := s.ops[i].added + 1)); }
    case End(i) => UnspentSplit(s.ops, i);
  }

  lemma {:induction false} UnspentBegin(ops: seq<Op>, o: Op)
    ensures Unspent(ops + [o]) <= (|ops| + 1) * MAXOPBLOCKS - o.added
  {
    assert (ops + [o])[..|ops|] == ops;
    UnspentBound(ops);
  }

  lemma {:induction false} RunningBefore(L: Layout, s: State, step: Step, id: nat)
    requires L.Valid() && Enabled(L, s, step) && Running(Apply(L, s, step), id)
    ensures Running(s, id) || (step.Begin? && id == s.nextOp)
  {
    var s' := Apply(L, s, step);
    var k :| 0 <= k < |s'.ops| && s'.ops[k].id == id;
    match step
    case Begin => if k < |s.ops| { assert s.ops[k].id == id; }
    case End(i) => assert s.ops[if k < i then k else k + 1].id == id;
    case Crash =>
    case _ => assert s.ops[k].id == id;
  }

  lemma {:induction false} ByIdSnoc(ws: seq<Write>, w: Write, id: nat)
    ensures ById(ws + [w], id) == if w.op == id then ById(ws, id) + [w] else ById(ws, id)
  {
    assert (ws + [w])[..|ws|] == ws;
  }

  lemma {:induction false} NoneById(id: nat)
    ensures ById([], id) == []
  {
  }

  lemma {:induction false} WholeWrite(L: Layout, s: State, step: Step, id: nat)
    requires L.Valid() && Whole(s, id) && step.LogWrite? && Enabled(L, s, step)
    requires s.ops[step.i].id < s.nextOp
    ensures Whole(Apply(L, s, step), id)
  {
    if Running(Apply(L, s, step), id) { RunningBefore(L, s, step, id); }
    var w := Write(s.ops[step.i].id, step.block, step.data);
    ByIdSnoc(s.pending, w, id);
    ByIdSnoc(s.issued, w, id);
    assert Running(s, w.op);
  }

  lemma {:induction false} WholeKept(L: Layout, s: State, step: Step, id: nat)
    requires L.Valid() && Shape(L, s) && Whole(s, id) && Enabled(L, s, step)
    requires forall i :: 0 <= i < |s.ops| ==> s.ops[i].id < s.nextOp
    ensures Whole(Apply(L, s, step), id)
  {
    hide HeadOk, Entries, Panics, InBudget, ById;
    NoneById(id);
    if step.LogWrite? {
      WholeWrite(L, s, step, id);
    } else {
      if Running(Apply(L, s, step), id) { RunningBefore(L, s, step, id); }
      ByIdConcat(s.committed, s.pending, id);
    }
  }

  lemma {:induction false} WholeOpsKept(L: Layout, s: State, step: Step)
    requires L.Valid() && Shape(L, s) && WholeOps(s) && Enabled(L, s, step)
    ensures WholeOps(Apply(L, s, step))
  {
    forall id: nat
      ensures Whole(Apply(L, s, step), id)
    {
      assert Whole(s, id);
      WholeKept(L, s, step, id);
    }
    OpIdsKept(L, s, step);
  }

  lemma {:induction false} OpIdsKept(L: Layout, s: State, step: Step)
    requires L.Valid() && OpIds(s) && Enabled(L, s, step)
    ensures OpIds(Apply(L, s, step))
  {
    hide HeadOk, Entries, ApplyAdvance, InBudget, Panics, DecodeHead, IdsOk, Remove;
    match step
    case Begin => IdsAdded(s.ops, s.nextOp);
    case LogWrite(i, _, _) => IdsUpdated(s.ops, s.nextOp, i);
    case End(i) => IdsRemoved(s.ops, s.nextOp, i);
    case Advance => AdvanceOps(L, s);
    case Crash => NoIds(s.nextOp);
    case Boot =>
  }

  lemma {:induction false} NoIds(next: nat)
    ensures IdsOk([], next)
  {
  }

  lemma {:induction false} IdsAdded(ops: seq<Op>, next: nat)
    requires IdsOk(ops, next)
    ensures IdsOk(ops + [Op(next, 0)], next + 1)
  {
  }

  lemma {:induction false} IdsUpdated(ops: seq<Op>, next: nat, i: nat)
    requires IdsOk(ops, next) && i < |ops|
    ensures IdsOk(ops[i := ops[i].(added := ops[i].added + 1)], next)
  {
  }

  lemma {:induction false} IdsRemoved(ops: seq<Op>, next: nat, i: nat)
    requires IdsOk(ops, next) && i < |ops|
    ensures IdsOk(Remove(ops, i), next)
  {
    var ops' := Remove(ops, i);
    assert forall k :: 0 <= k < |ops'| ==> ops'[k] == ops[if k < i then k else k + 1];
  }

  lemma {:induction false} AdvanceOps(L: Layout, s: State)
    requires L.Valid() && Enabled(L, s, Advance)
    ensures ApplyAdvance(L, s).ops == s.ops && ApplyAdvance(L, s).nextOp == s.nextOp
  {
    hide HeadOk, Entries, EncodeHead;
  }

  lemma {:induction false} BeginEndKeep(L: Layout, base: Disk, s: State, step: Step)
    requires L.Valid() && |base| == L.size && Core(L, s) && Agrees(L, base, s)
    requires (step.Begin? || step.End?) && Enabled(L, s, step)
    ensures Core(L, Apply(L, s, step)) && Agrees(L, base, Apply(L, s, step))
  {
    hide ApplyAdvance, Recovered, Logical, HomeOf, Replay, HeadOk, Entries, DecodeHead, InBudget, Panics, Installed;
  }

  lemma {:induction false} LogWriteCore(L: Layout, s: State, step: Step)
    requires L.Valid() && Core(L, s) && step.LogWrite? && Enabled(L, s, step)
    ensures Core(L, Apply(L, s, step))
  {
    hide ApplyAdvance;
  }

  lemma {:induction false} LogWriteAgrees(L: Layout, base: Disk, s: State, step: Step)
    requires L.Valid() && |base| == L.size && HeadOk(L, s.disk) && Agrees(L, base, s)
    requires step.LogWrite? && Enabled(L, s, step)
    ensures Agrees(L, base, Apply(L, s, step))
  {
    hide ApplyAdvance, Recovered, Logical, HomeOf, Entries;
    var s' := Apply(L, s, step);
    var w := Write(s.ops[step.i].id, step.block, step.data);
    LogicalWrite(L, s.disk, s.cache, Replay(base, s.committed + s.pending), step.block, step.data);
    ReplaySnoc(base, s.committed + s.pending, w);
    assert s'.committed + s'.pending == s.committed + s.pending + [w];
  }

  lemma {:induction false} PowerKeeps(L: Layout, base: Disk, s: State, step: Step)
    requires L.Valid() && |base| == L.size && Core(L, s) && Agrees(L, base, s)
    requires (step.Crash? || step.Boot?) && Enabled(L, s, step)
    ensures Core(L, Apply(L, s, step)) && Agrees(L, base, Apply(L, s, step))
  {
  }

  lemma {:induction false} WriteLogKeeps(L: Layout, base: Disk, s: State)
    requires L.Valid() && |base| == L.size && Core(L, s) && Agrees(L, base, s)
    requires s.phase.WriteLog? && Enabled(L, s, Advance)
    ensures Core(L, ApplyAdvance(L, s)) && Agrees(L, base, ApplyAdvance(L, s))
  {
    var t := s.phase.tail;
    if t < |s.lh| { SlotWriteIsQuiet(L, s.disk, s.cache, L.Slot(t), s.cache[s.lh[t]]); }
  }

  /** With an empty header, what lies in the log slots is invisible. */
  lemma {:induction false} SlotWriteIsQuiet(L: Layout, d: Disk, cache: map<int, Block>, slot: nat, data: Block)
    requires L.Valid() && HeadOk(L, d) && DecodeHead(d[L.start]) == [] && L.start < slot < L.start + L.nlog
    ensures HeadOk(L, d[slot := data]) && Recovered(L, d[slot := data]) == Recovered(L, d)
    ensures Logical(L, d[slot := data], cache) == Logical(L, d, cache)
  {
    assert d[slot := data][L.start] == d[L.start];
    RecoveredSame(L, d, d[slot := data]);
  }

  lemma {:induction false} WriteHeadKeeps(L: Layout, base: Disk, s: State)
    requires L.Valid() && |base| == L.size && Core(L, s) && Agrees(L, base, s)
    requires s.phase.WriteHead? && Enabled(L, s, Advance)
    ensures Core(L, ApplyAdvance(L, s)) && Agrees(L, base, ApplyAdvance(L, s))
  {
    var s' := ApplyAdvance(L, s);
    HeadRoundTrip(s.disk[L.start], s.lh);
    assert s'.committed + s'.pending == s.committed + s.pending;
    HeadMakesLogicalDurable(L, s.disk, s'.disk, s.cache, s.lh);
  }

  /** The commit point: once the header is written, recovery yields what readers saw. */
  lemma {:induction false} HeadMakesLogicalDurable(L: Layout, d: Disk, d': Disk, cache: map<int, Block>, lh: seq<int>)
    requires L.Valid() && HeadOk(L, d) && HeadOk(L, d')
    requires DecodeHead(d'[L.start]) == lh && d' == d[L.start := d'[L.start]]
    requires forall b :: b in cache <==> b in lh
    requires forall j :: 0 <= j < |lh| ==> d[L.Slot(j)] == cache[lh[j]]
    ensures Logical(L, d', cache) == Logical(L, d, cache) == Recovered(L, d')
  {
    forall b | L.Home(b)
      ensures RecoveredBlock(L, d', b) == if b in cache then cache[b] else d[b]
    {
      var i := IndexOf(lh, b);
      if i < |lh| { assert d'[L.Slot(i)] == d[L.Slot(i)]; }
    }
  }

  lemma {:induction false} InstallKeeps(L: Layout, base: Disk, s: State)
    requires L.Valid() && |base| == L.size && Core(L, s) && Agrees(L, base, s)
    requires s.phase.Install? && Enabled(L, s, Advance)
    ensures Core(L, ApplyAdvance(L, s)) && Agrees(L, base, ApplyAdvance(L, s))
  {
    var t := s.phase.tail;
    if t < |s.lh| {
      InstallDisk(L, s.disk, s.lh, t);
      if !s.phase.recovering {
        InstallLogged(L, s.disk, s.cache, s.lh, t);
        InstallCache(L, s.disk, s.cache, s.lh[t], s.disk[L.Slot(t)]);
      }
    }
  }

  /** Installing block t leaves what recovery would yield, and the blocks before it, as they were. */
  lemma {:induction false} InstallDisk(L: Layout, d: Disk, lh: seq<int>, t: nat)
    requires L.Valid() && HeadOk(L, d) && DecodeHead(d[L.start]) == lh && t < |lh|
    requires Installed(L, d, lh, t)
    ensures var d' := d[lh[t] := d[L.Slot(t)]];
            && d'[L.start] == d[L.start]
            && HeadOk(L, d') && Recovered(L, d') == Recovered(L, d) && Installed(L, d', lh, t + 1)
  {
    RecoveredSame(L, d, d[lh[t] := d[L.Slot(t)]]);
  }

  lemma {:induction false} InstallLogged(L: Layout, d: Disk, cache: map<int, Block>, lh: seq<int>, t: nat)
    requires L.Valid() && |d| == L.size && Entries(L, lh) && t < |lh|
    requires Logged(L, d, cache, lh, t, |lh|)
    requires forall b :: b in cache <==> b in lh[t..]
    ensures Logged(L, d[lh[t] := d[L.Slot(t)]], cache - {lh[t]}, lh, t + 1, |lh|)
    ensures forall b :: b in cache - {lh[t]} <==> b in lh[t + 1..]
  {
    assert lh[t..] == [lh[t]] + lh[t + 1..];
  }

  lemma {:induction false} InstallCache(L: Layout, d: Disk, cache: map<int, Block>, b: int, data: Block)
    requires |d| == L.size && L.Home(b) && b in cache && cache[b] == data
    ensures Logical(L, d[b := data], cache - {b}) == Logical(L, d, cache)
  {
  }

  lemma {:induction false} ClearHeadKeeps(L: Layout, base: Disk, s: State)
    requires L.Valid() && |base| == L.size && Core(L, s) && Agrees(L, base, s)
    requires s.phase.ClearHead? && Enabled(L, s, Advance)
    ensures Core(L, ApplyAdvance(L, s)) && Agrees(L, base, ApplyAdvance(L, s))
  {
    HeadRoundTrip(s.disk[L.start], []);
    assert s.committed + [] == s.committed;
    ClearIsQuiet(L, s.disk, ApplyAdvance(L, s).disk);
  }

  /** Erasing a fully installed log changes nothing. */
  lemma {:induction false} ClearIsQuiet(L: Layout, d: Disk, d': Disk)
    requires L.Valid() && HeadOk(L, d) && HeadOk(L, d')
    requires d' == d[L.start := d'[L.start]] && DecodeHead(d'[L.start]) == []
    requires var lh := DecodeHead(d[L.start]); Installed(L, d, lh, |lh|)
    ensures Recovered(L, d') == Recovered(L, d)
    ensures Logical(L, d', map[]) == Recovered(L, d')
  {
    forall b | L.Home(b)
      ensures RecoveredBlock(L, d, b) == d[b] == RecoveredBlock(L, d', b)
    {
    }
  }

  lemma {:induction false} FinishKeeps(L: Layout, base: Disk, s: State)
    requires L.Valid() && |base| == L.size && Core(L, s) && Agrees(L, base, s)
    requires s.phase.Finish? && Enabled(L, s, Advance)
    ensures Core(L, ApplyAdvance(L, s)) && Agrees(L, base, ApplyAdvance(L, s))
  {
  }

  lemma {:induction false} StepKeeps(L: Layout, base: Disk, s: State, step: Step)
    requires L.Valid() && Inv(L, base, s) && Enabled(L, s, step)
    ensures Inv(L, base, Apply(L, s, step))
  {
    AdmittedKept(L, s, step);
    WholeOpsKept(L, s, step);
    if step.Advance? {
      match s.phase
      case WriteLog(_) => WriteLogKeeps(L, base, s);
      case WriteHead => WriteHeadKeeps(L, base, s);
      case Install(_, _) => InstallKeeps(L, base, s);
      case ClearHead(_) => ClearHeadKeeps(L, base, s);
      case Finish => FinishKeeps(L, base, s);
    } else if step.Crash? || step.Boot? {
      PowerKeeps(L, base, s, step);
    } else if step.LogWrite? {
      LogWriteCore(L, s, step);
      LogWriteAgrees(L, base, s, step);
    } else {
      BeginEndKeep(L, base, s, step);
    }
  }

  // ---------------------------------------------------------------- theorems over whole runs

  /** The file system a freshly switched-on machine stands for. */
  ghost function Base(L: Layout, s0: State): Disk
    requires L.Valid() && Init(L, s0)
  {
    Recovered(L, s0.disk)
  }

  lemma {:induction false} RunKeepsInv(L: Layout, s0: State, steps: seq<Step>)
    requires L.Valid() && Init(L, s0) && IsRun(L, s0, steps)
    ensures Inv(L, Base(L, s0), Exec(L, s0, steps))
  {
    if steps == [] {
      assert HomeOf(L, Base(L, s0)) == Base(L, s0);
    } else {
      var pre := steps[..|steps| - 1];
      RunKeepsInv(L, s0, pre);
      StepKeeps(L, Base(L, s0), Exec(L, s0, pre), steps[|steps| - 1]);
    }
  }

  /** All or nothing: after any run, crashed anywhere and as often as one likes, the disk
      recovers to the writes of exactly those groups whose header write reached it; and
      whenever the kernel is up and not committing, recovery included, the home blocks
      themselves hold just those writes. */
  lemma {:induction false} CrashAtomicity(L: Layout, s0: State, steps: seq<Step>)
    requires L.Valid() && Init(L, s0) && IsRun(L, s0, steps)
    ensures var s := Exec(L, s0, steps);
            && HeadOk(L, s.disk)
            && Recovered(L, s.disk) == HomeOf(L, Replay(Base(L, s0), s.committed))
            && (s.phase.Idle? ==> HomeOf(L, s.disk) == HomeOf(L, Replay(Base(L, s0), s.committed)))
            && (Up(s.phase) ==>
                  Logical(L, s.disk, s.cache) == HomeOf(L, Replay(Base(L, s0), s.committed + s.pending)))
  {
    RunKeepsInv(L, s0, steps);
    var s := Exec(L, s0, steps);
    if s.phase.Idle? {
      EmptyLogIsHome(L, s.disk);
    }
  }

  lemma {:induction false} EmptyLogIsHome(L: Layout, d: Disk)
    requires L.Valid() && HeadOk(L, d) && DecodeHead(d[L.start]) == []
    ensures Recovered(L, d) == HomeOf(L, d)
  {
    assert forall b :: L.Home(b) ==> RecoveredBlock(L, d, b) == d[b];
  }

  /** No system call is ever split: its writes are all durable or all absent, and
      absent for as long as it is running. */
  lemma {:induction false} CallAtomicity(L: Layout, s0: State, steps: seq<Step>, id: nat)
    requires L.Valid() && Init(L, s0) && IsRun(L, s0, steps)
    ensures var s := Exec(L, s0, steps);
            && (ById(s.committed, id) == [] || ById(s.committed, id) == ById(s.issued, id))
            && (Running(s, id) ==> ById(s.committed, id) == [])
  {
    RunKeepsInv(L, s0, steps);
    assert Whole(Exec(L, s0, steps), id);
  }

  /** Admission: as long as calls keep to their budgets the promised blocks fit; and always entries are
      distinct, nobody is inside a call during a commit, and end_op's panic cannot happen. */
  lemma {:induction false} LogAdmission(L: Layout, s0: State, steps: seq<Step>)
    requires L.Valid() && Init(L, s0) && IsRun(L, s0, steps)
    ensures var s := Exec(L, s0, steps);
            && (s.frugal ==> |s.lh| + Unspent(s.ops) <= LOGSIZE)
            && Distinct(s.lh)
            && (s.committing ==> s.ops == [])
  {
    RunKeepsInv(L, s0, steps);
  }

  /** When a log_write within its budget panics: exactly when the log is at its capacity.  In a log region
      of more than LOGSIZE blocks that takes calls which have all spent their budgets, and an absorbed block. */
  lemma {:induction false} PanicExactly(L: Layout, s0: State, steps: seq<Step>, i: nat, b: nat)
    requires L.Valid() && Init(L, s0) && IsRun(L, s0, steps)
    requires Exec(L, s0, steps).frugal && InBudget(Exec(L, s0, steps), i, b)
    ensures var s := Exec(L, s0, steps);
            && (Panics(L, s) <==> |s.lh| == L.Capacity())
            && (L.nlog > LOGSIZE ==> (Panics(L, s) <==> |s.lh| == LOGSIZE))
            && (L.nlog > LOGSIZE && Panics(L, s) ==>
                  b in s.lh && forall j :: 0 <= j < |s.ops| ==> s.ops[j].added == MAXOPBLOCKS)
  {
    RunKeepsInv(L, s0, steps);
    var s := Exec(L, s0, steps);
    if |s.lh| >= LOGSIZE {
      forall j | 0 <= j < |s.ops|
        ensures s.ops[j].added == MAXOPBLOCKS
      {
        if s.ops[j].added < MAXOPBLOCKS { RoomForBudget(s.ops, j); }
      }
    }
  }

  lemma {:induction false} RoomForBudget(ops: seq<Op>, i: nat)
    requires i < |ops| && ops[i].added < MAXOPBLOCKS
    requires forall i :: 0 <= i < |ops| ==> ops[i].added <= MAXOPBLOCKS
    ensures Unspent(ops) > 0
  {
    UnspentSplit(ops, i);
    UnspentNat(Remove(ops, i));
  }

  lemma {:induction false} UnspentNat(ops: seq<Op>)
    requires forall i :: 0 <= i < |ops| ==> ops[i].added <= MAXOPBLOCKS
    ensures Unspent(ops) >= 0
  {
    if ops != [] { UnspentNat(ops[..|ops| - 1]); }
  }

  /** The state after three admitted calls have logged the first k of `homes`, ten blocks each. */
  ghost predicate Filled(L: Layout, s: State, homes: seq<nat>, k: nat) {
    && s.phase.Idle? && !s.committing && s.frugal && k <= |homes| && k <= 30
    && s.lh == homes[..k] && |s.ops| == 3
    && forall i :: 0 <= i < 3 ==>
          s.ops[i].added == if k <= 10 * i then 0 else if k >= 10 * i + 10 then 10 else k - 10 * i
  }

  lemma {:induction false} FillLog(L: Layout, s0: State, homes: seq<nat>, k: nat) returns (steps: seq<Step>)
    requires L.Valid() && Init(L, s0) && DecodeHead(s0.disk[L.start]) == []
    requires k <= |homes| && k <= L.Capacity()
    requires forall i :: 0 <= i < |homes| ==> L.Home(homes[i])
    requires forall i, j :: 0 <= i < j < |homes| ==> homes[i] != homes[j]
    ensures IsRun(L, s0, steps) && Filled(L, Exec(L, s0, steps), homes, k)
  {
    if k == 0 {
      steps := Started(L, s0);
    } else {
      var pre := FillLog(L, s0, homes, k - 1);
      FillOne(L, Exec(L, s0, pre), homes, k - 1);
      steps := OneMore(L, s0, pre, LogWrite((k - 1) / 10, homes[k - 1], ZeroBlock));
    }
  }

  lemma {:induction false} FillOne(L: Layout, s: State, homes: seq<nat>, k: nat)
    requires L.Valid() && Filled(L, s, homes, k) && k < |homes| && k < L.Capacity()
    requires L.Home(homes[k]) && homes[k] !in homes[..k]
    ensures var step := LogWrite(k / 10, homes[k], ZeroBlock);
            Enabled(L, s, step) && Filled(L, Apply(L, s, step), homes, k + 1)
  {
    hide ApplyAdvance, HeadOk;
    assert homes[..k + 1] == homes[..k] + [homes[k] as int];
  }

  lemma {:induction false} OneMore(L: Layout, s0: State, pre: seq<Step>, step: Step) returns (steps: seq<Step>)
    requires L.Valid() && IsRun(L, s0, pre) && Enabled(L, Exec(L, s0, pre), step)
    ensures steps == pre + [step] && IsRun(L, s0, steps)
    ensures Exec(L, s0, steps) == Apply(L, Exec(L, s0, pre), step)
  {
    steps := pre + [step];
    assert steps[..|pre|] == pre;
  }

  /** Booting from an empty log and admitting three calls. */
  lemma {:induction false} Started(L: Layout, s0: State) returns (steps: seq<Step>)
    requires L.Valid() && Init(L, s0) && DecodeHead(s0.disk[L.start]) == []
    ensures IsRun(L, s0, steps) && Filled(L, Exec(L, s0, steps), [], 0)
  {
    steps := OneMore(L, s0, [], Boot);
    steps := OneMore(L, s0, steps, Advance);
    steps := OneMore(L, s0, steps, Advance);
    steps := OneMore(L, s0, steps, Begin);
    steps := OneMore(L, s0, steps, Begin);
    steps := OneMore(L, s0, steps, Begin);
  }

  /** The reservation does not keep log_write from its panic when the log region is as mkfs makes it
      (nlog == LOGSIZE): three admitted calls, each within its budget, meet it with a block not yet logged. */
  lemma {:induction false} PanicReachable(L: Layout, s0: State, homes: seq<nat>) returns (steps: seq<Step>, i: nat)
    requires L.Valid() && Init(L, s0) && DecodeHead(s0.disk[L.start]) == []
    requires L.nlog <= LOGSIZE && |homes| >= LOGSIZE
    requires forall i :: 0 <= i < |homes| ==> L.Home(homes[i])
    requires forall i, j :: 0 <= i < j < |homes| ==> homes[i] != homes[j]
    ensures IsRun(L, s0, steps)
    ensures var s := Exec(L, s0, steps);
            s.frugal && InBudget(s, i, homes[L.nlog - 1]) && homes[L.nlog - 1] !in s.lh && Panics(L, s)
  {
    steps := FillLog(L, s0, homes, L.nlog - 1);
    i := 2;
  }

  /** Nor does it in any larger region: three calls that log ten blocks each fill the log, and then writing
      one of those blocks again, which would add nothing, panics. */
  lemma {:induction false} AbsorbedPanicReachable(L: Layout, s0: State, homes: seq<nat>) returns (steps: seq<Step>)
    requires L.Valid() && Init(L, s0) && DecodeHead(s0.disk[L.start]) == []
    requires L.nlog > LOGSIZE && |homes| >= LOGSIZE
    requires forall i :: 0 <= i < |homes| ==> L.Home(homes[i])
    requires forall i, j :: 0 <= i < j < |homes| ==> homes[i] != homes[j]
    ensures IsRun(L, s0, steps)
    ensures var s := Exec(L, s0, steps);
            && s.frugal && homes[0] in s.lh && Panics(L, s) && |s.ops| == 3
            && forall i :: 0 <= i < 3 ==> InBudget(s, i, homes[0])
  {
    steps := FillLog(L, s0, homes, LOGSIZE);
    assert Exec(L, s0, steps).lh[0] == homes[0];
  }

  /** A call may join a group that holds blocks already, and the two commit together: one step makes both durable. */
  lemma {:induction false} JoinsGroup(L: Layout, s0: State, b: nat, c: nat, x: Block, y: Block)
      returns (steps: seq<Step>, joins: nat)
    requires L.Valid() && Init(L, s0) && DecodeHead(s0.disk[L.start]) == []
    requires L.Home(b) && L.Home(c) && b != c && L.nlog > 2
    ensures IsRun(L, s0, steps) && joins + 1 < |steps| && steps[joins] == Begin
    ensures IsRun(L, s0, steps[..joins]) && Exec(L, s0, steps[..joins]).lh == [b]
    ensures IsRun(L, s0, steps[..|steps| - 1]) && Exec(L, s0, steps[..|steps| - 1]).committed == []
    ensures Exec(L, s0, steps).committed == [Write(0, b, x), Write(1, c, y)]
  {
    hide Exec, IsRun;
    var pre := FirstLogged(L, s0, b, x);
    var joined := SecondJoins(L, s0, pre, c, y);
    joins := |pre|;
    steps := EndBoth(L, s0, joined);
    assert steps[..joins] == joined[..joins] == pre && steps[joins] == joined[joins];
  }

  lemma {:induction false} FirstLogged(L: Layout, s0: State, b: nat, x: Block) returns (steps: seq<Step>)
    requires L.Valid() && Init(L, s0) && DecodeHead(s0.disk[L.start]) == [] && L.Home(b) && L.nlog > 2
    ensures IsRun(L, s0, steps)
    ensures var s := Exec(L, s0, steps);
            && s.phase.Idle? && !s.committing && s.lh == [b] && |s.ops| == 1 && s.ops[0].id == 0 && s.nextOp == 1
            && s.committed == [] && s.pending == [Write(0, b, x)]
  {
    steps := OneMore(L, s0, [], Boot);
    steps := OneMore(L, s0, steps, Advance);
    steps := OneMore(L, s0, steps, Advance);
    hide Exec, IsRun;
    steps := OneMore(L, s0, steps, Begin);
    steps := OneMore(L, s0, steps, LogWrite(0, b, x));
  }

  lemma {:induction false} SecondJoins(L: Layout, s0: State, pre: seq<Step>, c: nat, y: Block)
      returns (steps: seq<Step>)
    requires L.Valid() && IsRun(L, s0, pre) && L.Home(c) && L.nlog > 2
    requires var s := Exec(L, s0, pre);
             && s.phase.Idle? && !s.committing && |s.lh| == 1 && c !in s.lh && |s.ops| == 1 && s.nextOp == 1
    ensures |steps| == |pre| + 2 && steps[..|pre|] == pre && steps[|pre|] == Begin && IsRun(L, s0, steps)
    ensures var s, s' := Exec(L, s0, pre), Exec(L, s0, steps);
            && s'.phase.Idle? && |s'.ops| == 2 && |s'.lh| == 2 && s'.committed == s.committed
            && s'.pending == s.pending + [Write(1, c, y)]
  {
    hide Exec, IsRun;
    steps := OneMore(L, s0, pre, Begin);
    steps := OneMore(L, s0, steps, LogWrite(1, c, y));
  }

  /** Two calls that have logged two blocks end; the header write commits both. */
  lemma {:induction false} EndBoth(L: Layout, s0: State, pre: seq<Step>) returns (steps: seq<Step>)
    requires L.Valid() && Init(L, s0) && IsRun(L, s0, pre)
    requires var s := Exec(L, s0, pre); s.phase.Idle? && |s.ops| == 2 && |s.lh| == 2
    ensures |steps| == |pre| + 6 && steps[..|pre|] == pre && IsRun(L, s0, steps) && IsRun(L, s0, steps[..|steps| - 1])
    ensures var s := Exec(L, s0, pre);
            && Exec(L, s0, steps[..|steps| - 1]).committed == s.committed
            && Exec(L, s0, steps).committed == s.committed + s.pending
  {
    steps := OneMore(L, s0, pre, End(0));
    steps := OneMore(L, s0, steps, End(0));
    steps := Next(L, s0, steps);
    steps := Next(L, s0, steps);
    steps := Next(L, s0, steps);
    steps := Next(L, s0, steps);
  }

  /** The next block write of a commit is always possible. */
  lemma {:induction false} Next(L: Layout, s0: State, pre: seq<Step>) returns (steps: seq<Step>)
    requires L.Valid() && Init(L, s0) && IsRun(L, s0, pre)
    requires var s := Exec(L, s0, pre); s.phase.WriteLog? || s.phase.WriteHead?
    ensures steps == pre + [Advance] && IsRun(L, s0, steps) && Enabled(L, Exec(L, s0, pre), Advance)
    ensures Exec(L, s0, steps) == ApplyAdvance(L, Exec(L, s0, pre)) && steps[..|steps| - 1] == pre
  {
    RunKeepsInv(L, s0, pre);
    steps := OneMore(L, s0, pre, Advance);
  }

  // ---------------------------------------------------------------- the code

  lemma {:induction false} Installs(L: Layout, s: State)
    requires L.Valid() && Core(L, s) && s.phase.Install?
    ensures Enabled(L, s, Advance) && |s.disk| == L.size && |s.lh| <= L.Capacity()
    ensures forall i :: 0 <= i < |s.lh| ==> L.Home(s.lh[i])
  {
  }

  ghost predicate SameOutside(d: Disk, d': Disk, lh: seq<int>) {
    |d'| == |d| && forall b :: 0 <= b < |d| && b !in lh ==> d'[b] == d[b]
  }

  /** When install_trans is through, every home block has what its log slot had at the start. */
  lemma {:induction false} AllHome(L: Layout, d: Disk, s: State)
    requires L.Valid() && Core(L, s) && s.phase.Install? && s.phase.tail == |s.lh| && SameOutside(d, s.disk, s.lh)
    ensures L.start + |s.lh| < |s.disk|
    ensures forall i :: 0 <= i < |s.lh| ==> 0 <= s.lh[i] < |d| && s.disk[s.lh[i]] == d[L.start + 1 + i]
  {
    forall i | 0 <= i < |s.lh|
      ensures 0 <= s.lh[i] < |d| && s.disk[s.lh[i]] == d[L.start + 1 + i]
    {
      assert L.Home(s.lh[i]) && !L.Home(L.Slot(i));
    }
  }

  /** n block writes of commit or recovery. */
  function Advances(n: nat): seq<Step> {
    seq(n, _ => Advance)
  }

  /** struct log with its device and cache.  `steps` records the machine run so far;
      since a prefix of a run followed by Crash is a run, the theorems above speak of
      every moment at which the power could fail inside one of these methods. */
  class Logger {
    const L: Layout
    var disk: Disk
    var cache: map<int, Block>
    var n: nat
    var block: array<int>
    var outstanding: nat
    var committing: bool
    ghost const s0: State
    ghost var steps: seq<Step>
    ghost var st: State

    /** The recorded run is a run, and it has led to st. */
    ghost predicate Tracked()
      reads this`steps, this`st
    {
      L.Valid() && Init(L, s0) && IsRun(L, s0, steps) && st == Exec(L, s0, steps)
    }

    ghost predicate Valid()
      reads this, block
    {
      && Tracked() && block.Length == LOGSIZE
      && st.disk == disk && st.cache == cache && n <= LOGSIZE && st.lh == block[..n]
      && |st.ops| == outstanding && st.committing == committing
    }

    constructor (L: Layout, disk: Disk)
      requires L.Valid() && HeadOk(L, disk)
      ensures Valid() && fresh(block) && st.phase.Down? && this.L == L && this.disk == disk && steps == []
    {
      this.L := L;
      this.disk := disk;
      cache, n, outstanding, committing := map[], 0, 0, false;
      block := new int[LOGSIZE];
      s0 := State(disk, map[], [], [], false, Down, [], [], [], 0, true);
      st := State(disk, map[], [], [], false, Down, [], [], [], 0, true);
      steps := [];
    }

    ghost method Take(step: Step)
      requires Tracked() && Enabled(L, st, step)
      modifies this`steps, this`st
      ensures Tracked() && steps == old(steps) + [step] && st == Apply(L, old(st), step)
      ensures Core(L, st)
    {
      steps := OneMore(L, s0, steps, step);
      st := Exec(L, s0, steps);
      RunKeepsInv(L, s0, steps);
    }

    /** The power fails: memory is lost, the disk stays. */
    method PowerFailure()
      requires Valid()
      modifies this`cache, this`n, this`outstanding, this`committing, this`steps, this`st
      ensures Valid() && st.phase.Down? && HeadOk(L, disk) && steps == old(steps) + [Crash]
    {
      cache, n, outstanding, committing := map[], 0, 0, false;
      Take(Crash);
    }

    /** read_head: the in-memory header becomes the one on disk. */
    method ReadHead()
      requires Valid() && st.phase.Down? && HeadOk(L, disk)
      modifies this`n, block, this`steps, this`st
      ensures Valid() && Core(L, st) && steps == old(steps) + [Boot] && st == Apply(L, old(st), Boot)
      ensures n == disk[L.start][0] < WORDS && forall i :: 0 <= i < n ==> block[i] == disk[L.start][i + 1]
    {
      hide Exec, IsRun, Core;
      var head := disk[L.start];
      n := head[0];
      for i := 0 to n
        invariant block[..i] == head[1..i + 1]
        modifies block
      {
        block[i] := head[i + 1];
      }
      assert block[..n] == DecodeHead(head);
      assert forall i :: 0 <= i < n ==> block[i] == block[..n][i];
      Take(Boot);
    }

    /** write_head: one block write, of the header with the first n+1 words replaced. */
    method WriteHeadBlock()
      requires Valid() && Core(L, st) && (st.phase.WriteHead? || st.phase.ClearHead?)
      modifies this`disk, this`steps, this`st
      ensures Valid() && Core(L, st) && steps == old(steps) + [Advance] && st == Apply(L, old(st), Advance)
    {
      var hb := HeaderBlock();
      disk := disk[L.start := hb];
      Take(Advance);
    }

    method HeaderBlock() returns (hb: Block)
      requires n <= LOGSIZE == block.Length && L.start < |disk|
      ensures hb == EncodeHead(disk[L.start], block[..n])
      ensures hb[0] == n && forall i :: 0 < i < WORDS ==> hb[i] == if i <= n then block[i - 1] else disk[L.start][i]
    {
      hb := disk[L.start];
      hb := hb[0 := n];
      for i := 0 to n
        invariant hb == [n] + block[..i] + disk[L.start][i + 1..]
      {
        hb := hb[i + 1 := block[i]];
      }
    }

    /** write_log: copies every logged block from the cache to its log slot. */
    method WriteLogBlocks()
      requires Valid() && Core(L, st) && st.phase == Phase.WriteLog(0)
      modifies this`disk, this`steps, this`st
      ensures Valid() && Core(L, st) && steps == old(steps) + Advances(n + 1)
      ensures st.phase.WriteHead? && st == old(st).(disk := st.disk, phase := st.phase)
      ensures |disk| == |old(disk)| && L.start + n < |disk|
      ensures forall i :: 0 <= i < n ==> block[i] in cache && disk[L.start + 1 + i] == cache[block[i]]
      ensures forall b :: 0 <= b < |disk| && !(L.start < b <= L.start + n) ==> disk[b] == old(disk)[b]
    {
      hide Exec, IsRun;
      for tail := 0 to n
        invariant Valid() && Core(L, st) && steps == old(steps) + Advances(tail)
        invariant st == old(st).(disk := st.disk, phase := Phase.WriteLog(tail))
        invariant |disk| == |old(disk)|
        invariant forall b :: 0 <= b < |disk| && !(L.start < b <= L.start + tail) ==> disk[b] == old(disk)[b]
      {
        WriteSlot(tail);
      }
      Take(Advance);
    }

    method WriteSlot(tail: nat)
      requires Valid() && Core(L, st) && st.phase == Phase.WriteLog(tail) && tail < n
      modifies this`disk, this`steps, this`st
      ensures Valid() && Core(L, st) && steps == old(steps) + [Advance]
      ensures st == old(st).(disk := st.disk, phase := Phase.WriteLog(tail + 1))
      ensures L.start + 1 + tail < |old(disk)|
      ensures disk == old(disk)[L.start + 1 + tail := disk[L.start + 1 + tail]]
    {
      assert block[tail] == st.lh[tail] && st.lh[tail] in st.cache;
      disk := disk[L.start + tail + 1 := cache[block[tail]]];
      Take(Advance);
    }

    /** install_trans: copies every log slot to its home block, unpinning unless recovering. */
    method InstallTrans(recovering: bool)
      requires Valid() && Core(L, st) && st.phase == Phase.Install(0, recovering)
      modifies this`disk, this`cache, this`steps, this`st
      ensures Valid() && Core(L, st) && steps == old(steps) + Advances(n)
      ensures st == old(st).(disk := st.disk, cache := st.cache, phase := Phase.Install(n, recovering))
      ensures |disk| == |old(disk)| && L.start + n < |disk|
      ensures forall i :: 0 <= i < n ==> 0 <= block[i] < |disk| && disk[block[i]] == old(disk)[L.start + 1 + i]
      ensures SameOutside(old(disk), disk, block[..n])
    {
      hide Exec, IsRun, Core;
      for tail := 0 to n
        invariant Valid() && Core(L, st) && steps == old(steps) + Advances(tail)
        invariant st == old(st).(disk := st.disk, cache := st.cache, phase := Phase.Install(tail, recovering))
        invariant |disk| == |old(disk)|
        invariant SameOutside(old(disk), disk, block[..n])
      {
        assert block[tail] in block[..n];
        InstallBlock(tail, recovering);
      }
      AllHome(L, old(disk), st);
    }

    method InstallBlock(tail: nat, recovering: bool)
      requires Valid() && Core(L, st) && st.phase == Phase.Install(tail, recovering) && tail < n
      modifies this`disk, this`cache, this`steps, this`st
      ensures Valid() && Core(L, st) && steps == old(steps) + [Advance]
      ensures st == old(st).(disk := st.disk, cache := st.cache, phase := Phase.Install(tail + 1, recovering))
      ensures 0 <= block[tail] < |old(disk)| && disk == old(disk)[block[tail] := disk[block[tail]]]
    {
      hide Exec, IsRun, Core;
      Installs(L, st);
      assert block[tail] == st.lh[tail] && L.Home(st.lh[tail]);
      disk := disk[block[tail] := disk[L.start + tail + 1]];
      if !recovering {
        cache := cache - {block[tail]};
      }
      Take(Advance);
    }

    /** `log.lh.n = 0` followed by write_head. */
    method EraseLog(recovering: bool)
      requires Valid() && Core(L, st) && st.phase == Phase.Install(n, recovering)
      modifies this`disk, this`n, this`steps, this`st
      ensures Valid() && Core(L, st) && steps == old(steps) + Advances(2) && n == 0
      ensures st == old(st).(disk := st.disk, lh := [], phase := if recovering then Idle else Finish)
    {
      n := 0;
      Take(Advance);
      WriteHeadBlock();
    }

    /** recover_from_log, from the moment the machine is switched on. */
    method RecoverFromLog()
      requires Valid() && st.phase.Down? && HeadOk(L, disk)
      modifies this`disk, this`cache, this`n, block, this`steps, this`st
      ensures Valid() && st.phase.Idle? && steps == old(steps) + [Boot] + Advances(|DecodeHead(old(disk)[L.start])| + 2)
      ensures st.committed == old(st.committed)
      ensures HomeOf(L, disk) == Recovered(L, old(disk)) == HomeOf(L, Replay(Base(L, s0), st.committed))
    {
      hide Exec, IsRun, Core;
      CrashAtomicity(L, s0, steps);
      ReadHead();
      ghost var k := n;
      InstallTrans(true);
      EraseLog(true);
      CrashAtomicity(L, s0, steps);
      assert Advances(k + 2) == Advances(k) + Advances(2);
    }

    /** commit(): afterwards every log_write of the group is in its home block. */
    method Commit()
      requires Valid() && Core(L, st) && committing && (st.phase == Phase.WriteLog(0) || st.phase.Finish?)
      requires (n > 0) == st.phase.WriteLog?
      modifies this`disk, this`cache, this`n, this`steps, this`st
      ensures Valid() && Core(L, st) && st.phase.Finish? && n == 0
      ensures st.committed == old(st.committed + st.pending) && st.ops == old(st.ops)
      ensures steps == old(steps) + (if old(n) > 0 then Advances(2 * old(n) + 4) else [])
    {
      hide Exec, IsRun, PhaseOk, CacheOk;
      if n > 0 {
        ghost var k := n;
        WriteLogBlocks();
        CommitPoint();
        InstallTrans(false);
        EraseLog(false);
        assert Advances(2 * k + 4) == Advances(k + 1) + [Advance] + Advances(k) + Advances(2);
      }
      assert st.committed + [] == st.committed;
    }

    /** The header write of commit(), "the real commit". */
    method CommitPoint()
      requires Valid() && Core(L, st) && st.phase.WriteHead?
      modifies this`disk, this`steps, this`st
      ensures Valid() && Core(L, st) && steps == old(steps) + [Advance]
      ensures st == old(st).(disk := st.disk, committed := old(st.committed + st.pending), pending := [],
                             phase := Phase.Install(0, false))
    {
      hide Exec, IsRun, PhaseOk, CacheOk;
      WriteHeadBlock();
    }

    /** begin_op, one turn of its loop: admitted, or to sleep until woken. */
    method BeginOp() returns (admitted: bool)
      requires Valid() && Up(st.phase)
      modifies this`outstanding, this`steps, this`st
      ensures Valid() && outstanding == old(outstanding) + (if admitted then 1 else 0)
      ensures admitted <==> !old(committing) && old(n) + (old(outstanding) + 1) * MAXOPBLOCKS <= LOGSIZE
      ensures steps == if admitted then old(steps) + [Begin] else old(steps)
    {
      if committing || n + (outstanding + 1) * MAXOPBLOCKS > LOGSIZE {
        admitted := false;
      } else {
        Take(Begin);
        outstanding := outstanding + 1;
        admitted := true;
      }
    }

    /** log_write by the i-th running call; a panic leaves everything as it was. */
    method LogWriteBlock(ghost i: nat, b: nat, data: Block) returns (panics: bool)
      requires Valid() && Up(st.phase) && b < L.size && (b < L.start || b >= L.start + L.nlog)
      requires outstanding > 0 ==> i < |st.ops|
      modifies this`cache, this`n, block, this`steps, this`st
      ensures Valid()
      ensures panics <==> old(n) >= LOGSIZE || old(n) >= L.nlog - 1 || outstanding < 1
      ensures panics ==> cache == old(cache) && n == old(n) && block[..] == old(block[..])
      ensures !panics ==>
                && cache == old(cache)[b := data]
                && block[..n] == old(block[..n]) + if b in old(block[..n]) then [] else [b]
      ensures steps == if panics then old(steps) else old(steps) + [LogWrite(i, b, data)]
    {
      hide Exec, IsRun, Core;
      if n >= LOGSIZE || n >= L.nlog - 1 || outstanding < 1 {
        return true;
      }
      var k := 0;
      while k < n && block[k] != b
        invariant k <= n && b !in block[..k]
      {
        k := k + 1;
      }
      block[k] := b;
      if k == n {
        n := n + 1;
      }
      cache := cache[b := data];
      Take(LogWrite(i, b, data));
      panics := false;
    }

    /** end_op by the i-th running call; the last one commits the whole group. */
    method EndOp(ghost i: nat)
      requires Valid() && Core(L, st) && st.phase.Idle? && i < |st.ops|
      modifies this`disk, this`cache, this`n, this`outstanding, this`committing, this`steps, this`st
      ensures Valid() && Core(L, st) && st.phase.Idle? && !committing && outstanding == old(outstanding) - 1
      ensures old(outstanding) == 1 ==> n == 0 && st.committed == old(st.committed + st.pending) && st.pending == []
      ensures old(outstanding) == 1 ==>
                HomeOf(L, disk) == HomeOf(L, Replay(Base(L, s0), old(st.committed + st.pending)))
      ensures old(outstanding) > 1 ==> steps == old(steps) + [End(i)]
    {
      outstanding := outstanding - 1;
      committing := outstanding == 0;
      Take(End(i));
      if committing {
        Commit();
        committing := false;
        Take(Advance);
        CrashAtomicity(L, s0, steps);
      }
    }
  }
}
