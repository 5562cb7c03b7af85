/**
 * Processes: sleep, wakeup, sched, yield, kill, fork, exit and wait of kernel/proc.c
 * over the spin locks of kernel/spinlock.c, on any number of CPUs.
 *
 * `Program` is the code, one statement a program counter; `Apply` lets one CPU take one
 * step.  A run is any interleaving of steps.
 */
module Proc {

  datatype Option<T> = None | Some(value: T)

  datatype PState = UNUSED | USED | SLEEPING | RUNNABLE | RUNNING | ZOMBIE

  /** p->lock of process q, or any other spin lock; number 0 is wait_lock. */
  datatype Lock = P(q: nat) | Cond(k: nat)

  const WAIT: Lock := Cond(0)

  /** A lock is held by the kernel thread of a process or by the scheduler thread of a CPU. */
  datatype Thread = T(p: nat) | C(c: nat)

  /** Where sleep or wakeup returns to. */
  datatype Ret = ToCode | ToWait | ToReparent(i: nat) | ToExitLock

  /** The statement a process is about to execute, routine by routine. */
  datatype Pc =
    | Code                                                // user code, or kernel code outside proc.c
    | Sleep(sleepAt: SleepAt, ch: nat, ret: Ret)
    | Wake(wakeAt: WakeAt, ch: nat, i: nat, ret: Ret)
    | Yield(yieldAt: YieldAt)
    | Kill(killAt: KillAt, i: nat)
    | Fork(forkAt: ForkAt, i: nat)
    | Exit(exitAt: ExitAt, i: nat)
    | Wait(waitAt: WaitAt, i: nat, kids: bool)

  datatype SleepAt =
    | SRelease      // release(lk)
    | SMark         // p->chan = chan; p->state = SLEEPING
    | SSched        // sched()
    | SOff          // switched out inside sched()
    | SWoken        // p->chan = 0
    | SUnlock       // release(&p->lock)
    | SReacquire    // acquire(lk)

  datatype WakeAt =
    | WLoop         // p < &proc[NPROC]; p != myproc(); acquire(&p->lock)
    | WTest         // if SLEEPING on chan: RUNNABLE
    | WRelease      // release(&p->lock)

  datatype YieldAt = YMark | YSched | YOff | YUnlock      // YOff is also where a new process starts

  datatype KillAt = KTest | KRelease

  datatype ForkAt =
    | FScan         // allocproc: acquire(&p->lock)
    | FTest         // if UNUSED: found
    | FSkip         // release(&p->lock)
    | FHave         // the rest of allocproc, uvmcopy and so on; then release(&np->lock)
    | FFailed       // release(&np->lock); return -1
    | FWait         // acquire(&wait_lock)
    | FParent       // np->parent = p
    | FUnwait       // release(&wait_lock)
    | FReady        // acquire(&np->lock)
    | FRun          // np->state = RUNNABLE
    | FDone         // release(&np->lock)

  datatype ExitAt =
    | EReparent     // reparent: pp->parent == p; wakeup(initproc)
    | ELock         // acquire(&p->lock)
    | EMark         // p->state = ZOMBIE
    | ERelease      // release(&wait_lock)
    | ESched        // sched()
    | EDead         // never runs again; also every UNUSED slot

  datatype WaitAt =
    | AScan         // pp < &proc[NPROC]; pp->parent == p; acquire(&pp->lock)
    | ATest         // if ZOMBIE: freeproc(pp)
    | ASkip         // release(&pp->lock)
    | AReaped       // release(&pp->lock), a child found
    | AFailed       // release(&pp->lock), copyout failed
    | ALeave        // release(&wait_lock)

  /** scheduler() on one CPU. */
  datatype Cpu =
    | Scan(i: nat)      // acquire(&p->lock)
    | Test(i: nat)      // if RUNNABLE: RUNNING, c->proc = p, swtch
    | Runs(p: nat)      // inside swtch: p executes
    | Unlock(i: nat)    // c->proc = 0; release(&p->lock)

  datatype Event =
    | Acquired(p: nat, l: Lock)
    | Woke(p: nat, ch: nat)       // p returned from wakeup(ch) while holding the channel's lock
    | Exited(p: nat)
    | Reaped(w: nat, p: nat)      // w's wait() freed p

  datatype State = State(
    locks: map<Lock, Thread>,
    cpus: seq<Cpu>,
    pc: seq<Pc>,
    st: seq<PState>,
    chan: seq<Option<nat>>,
    parent: seq<Option<nat>>,
    trace: seq<Event>)          // history

  /** The kernel: which lock guards each channel, and which process is init.  Channel q, for a
      process q, is the address of its struct proc, on which it sleeps in wait(). */
  datatype Kernel = Kernel(guard: nat -> nat, init: nat)

  ghost predicate Shape(K: Kernel, s: State) {
    && |s.st| == |s.chan| == |s.parent| == |s.pc| && K.init < |s.pc|
    && forall q :: 0 <= q < |s.pc| ==> K.guard(q) == 0
  }

  // ---------------------------------------------------------------- the code

  /** What one statement does, and where it goes. */
  datatype Move =
    | Acquire(l: Lock, to: Pc)
    | Release(l: Lock, to: Pc)
    | Goto(to: Pc)
    | Returned(ch: nat, held: bool, to: Pc)     // wakeup(ch) returns
    | MarkSleeping(ch: nat, to: Pc)             // own channel and state
    | ClearChan(to: Pc)
    | SetState(q: nat, st: PState, to: Pc)
    | Die(to: Pc)                               // own state becomes ZOMBIE
    | SetParent(q: nat, par: nat, to: Pc)
    | Claim(q: nat, to: Pc)                     // allocproc: USED, context set to forkret
    | FreeProc(q: nat, reap: bool, to: Pc)      // freeproc, from wait or after a failed fork
    | SwitchOut(to: Pc)                         // swtch to the scheduler

  /** The choices open to code outside proc.c, and to statements that depend on what is not
      modelled (killed, memory, copyout). */
  datatype Choice =
    | ChAcquire(k: nat) | ChRelease(k: nat) | ChSleep(c: nat) | ChWakeup(c: nat)
    | ChYield | ChKill(i: nat) | ChFork | ChExit | ChWait
    | Next | Alt

  predicate HoldsIn(locks: map<Lock, Thread>, t: Thread, l: Lock) {
    l in locks && locks[l] == t
  }

  /** p holds no spin lock but those listed. */
  ghost predicate HoldsOnly(s: State, p: nat, ls: set<Lock>) {
    forall l :: HoldsIn(s.locks, T(p), l) ==> l in ls
  }

  function Return(ret: Ret): Pc {
    match ret
    case ToCode => Code
    case ToWait => Wait(AScan, 0, false)
    case ToReparent(i) => Exit(EReparent, i)
    case ToExitLock => Exit(ELock, 0)
  }

  ghost function Program(K: Kernel, s: State, p: nat, ch: Choice): Option<Move>
    requires Shape(K, s) && p < |s.pc|
  {
    match s.pc[p]
    case Code => CodeMove(K, s, p, ch)
    case Sleep(_, _, _) => SleepMove(K, p, s.pc[p])
    case Wake(_, _, _, _) => WakeMove(K, s, p, s.pc[p])
    case Yield(at) => YieldMove(p, at)
    case Kill(at, i) => KillMove(s, at, i)
    case Fork(at, i) => ForkMove(s, p, at, i, ch)
    case Exit(at, i) => ExitMove(K, s, p, at, i)
    case Wait(at, i, kids) => WaitMove(s, p, at, i, kids, ch)
  }

  /** Kernel code outside proc.c takes and drops its locks and calls in here.  sleep wants the
      channel's lock held and, for sched(), nothing else; exit, wait, fork and yield are called
      with no lock held; init does not exit. */
  ghost function CodeMove(K: Kernel, s: State, p: nat, ch: Choice): Option<Move>
  {
    match ch
    case ChAcquire(k) => Some(Acquire(Cond(k), Code))
    case ChRelease(k) => if HoldsIn(s.locks, T(p), Cond(k)) then Some(Release(Cond(k), Code)) else None
    case ChSleep(c) =>
      var lk := Cond(K.guard(c));
      if HoldsIn(s.locks, T(p), lk) && HoldsOnly(s, p, {lk}) && c >= |s.pc|
      then Some(Acquire(P(p), Sleep(SRelease, c, ToCode))) else None
    case ChWakeup(c) => Some(Goto(Wake(WLoop, c, 0, ToCode)))
    case ChYield => if HoldsOnly(s, p, {}) then Some(Acquire(P(p), Yield(YMark))) else None
    case ChKill(i) => if i < |s.pc| then Some(Acquire(P(i), Kill(KTest, i))) else None
    case ChFork => if HoldsOnly(s, p, {}) then Some(Goto(Fork(FScan, 0))) else None
    case ChExit => if HoldsOnly(s, p, {}) && p != K.init then Some(Acquire(WAIT, Exit(EReparent, 0))) else None
    case ChWait => if HoldsOnly(s, p, {}) then Some(Acquire(WAIT, Wait(AScan, 0, false))) else None
    case _ => None
  }

  function SleepMove(K: Kernel, p: nat, pc: Pc): Option<Move>
    requires pc.Sleep?
  {
    var lk := Cond(K.guard(pc.ch));
    match pc.sleepAt
    case SRelease => Some(Release(lk, pc.(sleepAt := SMark)))
    case SMark => Some(MarkSleeping(pc.ch, pc.(sleepAt := SSched)))
    case SSched => Some(SwitchOut(pc.(sleepAt := SOff)))
    case SOff => None
    case SWoken => Some(ClearChan(pc.(sleepAt := SUnlock)))
    case SUnlock => Some(Release(P(p), pc.(sleepAt := SReacquire)))
    case SReacquire => Some(Acquire(lk, Return(pc.ret)))
  }

  function WakeMove(K: Kernel, s: State, p: nat, pc: Pc): Option<Move>
    requires pc.Wake? && |s.st| == |s.chan| == |s.pc|
  {
    var i := pc.i;
    match pc.wakeAt
    case WLoop =>
      if i >= |s.pc| then Some(Returned(pc.ch, HoldsIn(s.locks, T(p), Cond(K.guard(pc.ch))), Return(pc.ret)))
      else if i == p then Some(Goto(Wake(WLoop, pc.ch, i + 1, pc.ret)))
      else Some(Acquire(P(i), pc.(wakeAt := WTest)))
    case WTest =>
      if i < |s.pc| && s.st[i] == SLEEPING && s.chan[i] == Some(pc.ch)
      then Some(SetState(i, RUNNABLE, pc.(wakeAt := WRelease)))
      else Some(Goto(pc.(wakeAt := WRelease)))
    case WRelease => Some(Release(P(i), Wake(WLoop, pc.ch, i + 1, pc.ret)))
  }

  function YieldMove(p: nat, at: YieldAt): Option<Move> {
    match at
    case YMark => Some(SetState(p, RUNNABLE, Yield(YSched)))
    case YSched => Some(SwitchOut(Yield(YOff)))
    case YOff => None
    case YUnlock => Some(Release(P(p), Code))
  }

  function KillMove(s: State, at: KillAt, i: nat): Option<Move>
    requires |s.st| == |s.pc|
  {
    match at
    case KTest =>
      if i < |s.pc| && s.st[i] == SLEEPING then Some(SetState(i, RUNNABLE, Kill(KRelease, i)))
      else Some(Goto(Kill(KRelease, i)))
    case KRelease => Some(Release(P(i), Code))
  }

  function ForkMove(s: State, p: nat, at: ForkAt, i: nat, ch: Choice): Option<Move>
    requires |s.st| == |s.pc|
  {
    match at
    case FScan => if i >= |s.pc| then Some(Goto(Code)) else Some(Acquire(P(i), Fork(FTest, i)))
    case FTest => if i < |s.pc| && s.st[i] == UNUSED then Some(Claim(i, Fork(FHave, i))) else Some(Goto(Fork(FSkip, i)))
    case FSkip => Some(Release(P(i), Fork(FScan, i + 1)))
    case FHave => if ch == Alt then Some(FreeProc(i, false, Fork(FFailed, i))) else Some(Release(P(i), Fork(FWait, i)))
    case FFailed => Some(Release(P(i), Code))
    case FWait => Some(Acquire(WAIT, Fork(FParent, i)))
    case FParent => Some(SetParent(i, p, Fork(FUnwait, i)))
    case FUnwait => Some(Release(WAIT, Fork(FReady, i)))
    case FReady => Some(Acquire(P(i), Fork(FRun, i)))
    case FRun => Some(SetState(i, RUNNABLE, Fork(FDone, i)))
    case FDone => Some(Release(P(i), Code))
  }

  function ExitMove(K: Kernel, s: State, p: nat, at: ExitAt, i: nat): Option<Move>
    requires p < |s.parent| == |s.pc|
  {
    match at
    case EReparent =>
      if i < |s.pc| then
        if s.parent[i] == Some(p) then Some(SetParent(i, K.init, Wake(WLoop, K.init, 0, ToReparent(i + 1))))
        else Some(Goto(Exit(EReparent, i + 1)))
      else if s.parent[p].Some? then Some(Goto(Wake(WLoop, s.parent[p].value, 0, ToExitLock)))
      else None
    case ELock => Some(Acquire(P(p), Exit(EMark, i)))
    case EMark => Some(Die(Exit(ERelease, i)))
    case ERelease => Some(Release(WAIT, Exit(ESched, i)))
    case ESched => Some(SwitchOut(Exit(EDead, i)))
    case EDead => None
  }

  function WaitMove(s: State, p: nat, at: WaitAt, i: nat, kids: bool, ch: Choice): Option<Move>
    requires |s.st| == |s.parent| == |s.pc|
  {
    match at
    case AScan =>
      if i < |s.pc| then
        if s.parent[i] == Some(p) then Some(Acquire(P(i), Wait(ATest, i, kids)))
            else Some(Goto(Wait(AScan, i + 1, kids)))
      else if !kids || ch == Alt then Some(Goto(Wait(ALeave, i, kids)))
      else Some(Acquire(P(p), Sleep(SRelease, p, ToWait)))
    case ATest =>
      if i < |s.pc| && s.st[i] == ZOMBIE then
        if ch == Alt then Some(Goto(Wait(AFailed, i, kids))) else Some(FreeProc(i, true, Wait(AReaped, i, kids)))
      else Some(Goto(Wait(ASkip, i, kids)))
    case ASkip => Some(Release(P(i), Wait(AScan, i + 1, true)))
    case AReaped => Some(Release(P(i), Wait(ALeave, i, kids)))
    case AFailed => Some(Release(P(i), Wait(ALeave, i, kids)))
    case ALeave => Some(Release(WAIT, Code))
  }

  // ---------------------------------------------------------------- steps

  datatype Step = Sched(c: nat) | Exec(c: nat, choice: Choice)

  ghost predicate Enabled(K: Kernel, s: State, step: Step)
    requires Shape(K, s)
  {
    && step.c < |s.cpus|
    && match step
       case Sched(c) => SchedOk(s, c)
       case Exec(c, ch) =>
         && s.cpus[c].Runs? && s.cpus[c].p < |s.pc|
         && var m := Program(K, s, s.cpus[c].p, ch);
            m.Some? && MoveOk(s, m.value)
  }

  predicate SchedOk(s: State, c: nat) {
    && c < |s.cpus|
    && match s.cpus[c]
       case Scan(i) => i < |s.pc| && P(i) !in s.locks       // else spin
       case Test(i) => i < |s.pc|
       case Runs(_) => false
       case Unlock(i) => true
  }

  predicate MoveOk(s: State, m: Move) {
    && (m.Acquire? ==> m.l !in s.locks)                     // else spin
    && (m.SetState? || m.SetParent? || m.Claim? || m.FreeProc? ==> m.q < |s.pc|)
  }

  ghost function Apply(K: Kernel, s: State, step: Step): State
    requires Shape(K, s) && Enabled(K, s, step)
  {
    match step
    case Sched(c) => ApplySched(s, c)
    case Exec(c, ch) => ApplyMove(s, c, Program(K, s, s.cpus[c].p, ch).value)
  }

  /** Where swtch lands in a process that was switched out, or has never run (forkret). */
  function Resumed(pc: Pc): Pc {
    if pc.Sleep? then pc.(sleepAt := SWoken) else Yield(YUnlock)
  }

  function ApplySched(s: State, c: nat): State
    requires SchedOk(s, c) && |s.st| == |s.pc|
  {
    match s.cpus[c]
    case Scan(i) => s.(locks := s.locks[P(i) := C(c)], cpus := s.cpus[c := Test(i)])
    case Test(i) =>
      if s.st[i] == RUNNABLE then
        s.(st := s.st[i := RUNNING], cpus := s.cpus[c := Runs(i)], pc := s.pc[i := Resumed(s.pc[i])],
           locks := s.locks[P(i) := T(i)])
      else s.(cpus := s.cpus[c := Unlock(i)])
    case Unlock(i) => s.(locks := s.locks - {P(i)}, cpus := s.cpus[c := Scan(if i + 1 < |s.pc| then i + 1 else 0)])
  }

  /** The locks after a move of p on CPU c. */
  function MoveLocks(locks: map<Lock, Thread>, p: nat, c: nat, m: Move): map<Lock, Thread> {
    match m
    case Acquire(l, _) => locks[l := T(p)]
    case Release(l, _) => locks - {l}
    case SwitchOut(_) => locks[P(p) := C(c)]
    case _ => locks
  }

  function MovePc(pc: seq<Pc>, p: nat, m: Move): (r: seq<Pc>)
    requires p < |pc| && (m.Claim? || m.FreeProc? ==> m.q < |pc|)
    ensures |r| == |pc|
  {
    match m
    case Claim(q, to) => pc[q := Yield(YOff)][p := to]
    case FreeProc(q, _, to) => pc[q := Exit(EDead, 0)][p := to]
    case _ => pc[p := m.to]
  }

  function MoveSt(st: seq<PState>, p: nat, m: Move): (r: seq<PState>)
    requires p < |st| && (m.SetState? || m.Claim? || m.FreeProc? ==> m.q < |st|)
    ensures |r| == |st|
  {
    match m
    case MarkSleeping(_, _) => st[p := SLEEPING]
    case SetState(q, x, _) => st[q := x]
    case Die(_) => st[p := ZOMBIE]
    case Claim(q, _) => st[q := USED]
    case FreeProc(q, _, _) => st[q := UNUSED]
    case _ => st
  }

  function MoveChan(chan: seq<Option<nat>>, p: nat, m: Move): (r: seq<Option<nat>>)
    requires p < |chan| && (m.FreeProc? ==> m.q < |chan|)
    ensures |r| == |chan|
  {
    match m
    case MarkSleeping(ch, _) => chan[p := Some(ch)]
    case ClearChan(_) => chan[p := None]
    case FreeProc(q, _, _) => chan[q := None]
    case _ => chan
  }

  function MoveParent(parent: seq<Option<nat>>, m: Move): (r: seq<Option<nat>>)
    requires m.SetParent? || m.FreeProc? ==> m.q < |parent|
    ensures |r| == |parent|
  {
    match m
    case SetParent(q, par, _) => parent[q := Some(par)]
    case FreeProc(q, _, _) => parent[q := None]
    case _ => parent
  }

  function MoveTrace(trace: seq<Event>, p: nat, m: Move): seq<Event> {
    match m
    case Acquire(l, _) => trace + [Acquired(p, l)]
    case Returned(ch, held, _) => if held then trace + [Woke(p, ch)] else trace
    case Die(_) => trace + [Exited(p)]
    case FreeProc(q, reap, _) => if reap then trace + [Reaped(p, q)] else trace
    case _ => trace
  }

  function ApplyMove(s: State, c: nat, m: Move): State
    requires |s.st| == |s.chan| == |s.parent| == |s.pc|
    requires c < |s.cpus| && s.cpus[c].Runs? && s.cpus[c].p < |s.pc| && MoveOk(s, m)
  {
    var p := s.cpus[c].p;
    State(MoveLocks(s.locks, p, c, m),
          if m.SwitchOut? then s.cpus[c := Unlock(p)] else s.cpus,
          MovePc(s.pc, p, m), MoveSt(s.st, p, m), MoveChan(s.chan, p, m), MoveParent(s.parent, m),
              MoveTrace(s.trace, p, m))
  }

  // ---------------------------------------------------------------- who holds what

  /** The p->lock a process holds at a statement. */
  function Wants(pc: Pc, p: nat): Option<nat> {
    match pc
    case Code => None
    case Sleep(at, _, _) => if at.SOff? || at.SReacquire? then None else Some(p)
    case Wake(at, _, i, _) => if at.WLoop? then None else Some(i)
    case Yield(at) => if at.YOff? then None else Some(p)
    case Kill(_, i) => Some(i)
    case Fork(at, i) => if at.FScan? || at.FWait? || at.FParent? || at.FUnwait? || at.FReady? then None else Some(i)
    case Exit(at, _) => if at.EReparent? || at.ELock? || at.EDead? then None else Some(p)
    case Wait(at, i, _) => if at.AScan? || at.ALeave? then None else Some(i)
  }

  /** The other locks it holds there; None where proc.c does not say. */
  function Conds(K: Kernel, pc: Pc): Option<set<nat>> {
    match pc
    case Code => None
    case Sleep(at, c, _) => if at.SRelease? then Some({K.guard(c)}) else Some({})
    case Wake(_, _, _, r) => if r.ToCode? then None else Some({0})
    case Yield(_) => Some({})
    case Kill(_, _) => None
    case Fork(at, _) => if at.FParent? || at.FUnwait? then Some({0}) else Some({})
    case Exit(at, _) => if at.ESched? || at.EDead? then Some({}) else Some({0})
    case Wait(_, _, _) => Some({0})
  }

  function SchedWants(cpu: Cpu): Option<nat> {
    match cpu
    case Test(i) => Some(i)
    case Unlock(i) => Some(i)
    case _ => None
  }

  ghost predicate ThreadOk(K: Kernel, locks: map<Lock, Thread>, p: nat, pc: Pc) {
    && (forall q: nat :: HoldsIn(locks, T(p), P(q)) <==> Wants(pc, p) == Some(q))
    && (Conds(K, pc).Some? ==> forall k: nat :: HoldsIn(locks, T(p), Cond(k)) <==> k in Conds(K, pc).value)
  }

  ghost predicate CpuOk(locks: map<Lock, Thread>, c: nat, cpu: Cpu) {
    && (forall q: nat :: HoldsIn(locks, C(c), P(q)) <==> SchedWants(cpu) == Some(q))
    && (forall k: nat :: !HoldsIn(locks, C(c), Cond(k)))
  }

  /** Lock ownership is what the program counters say. */
  ghost predicate Owners(K: Kernel, locks: map<Lock, Thread>, pc: seq<Pc>, cpus: seq<Cpu>) {
    && (forall p :: 0 <= p < |pc| ==> ThreadOk(K, locks, p, pc[p]))
    && (forall c :: 0 <= c < |cpus| ==> CpuOk(locks, c, cpus[c]))
  }

  /** Bounds and return addresses that make sense. */
  ghost predicate PcOk(K: Kernel, n: nat, p: nat, pc: Pc) {
    match pc
    case Code => true
    case Sleep(_, c, r) => if r.ToCode? then c >= n else r.ToWait? && c == p
    case Wake(at, _, i, r) => !r.ToWait? && (r.ToCode? || p != K.init) && if at.WLoop? then i <= n else i < n && i != p
    case Yield(_) => true
    case Kill(_, i) => i < n
    case Fork(at, i) => if at.FScan? then i <= n else i < n
    case Exit(_, _) => p != K.init
    case Wait(at, i, _) => at.AScan? || at.ALeave? || i < n
  }

  ghost predicate PcsOk(K: Kernel, pc: seq<Pc>) {
    forall p :: 0 <= p < |pc| ==> PcOk(K, |pc|, p, pc[p])
  }

  // ---------------------------------------------------------------- lock ownership is kept

  /** A statement takes or drops exactly the locks that the next one presupposes. */
  ghost predicate Disciplined(K: Kernel, s: State, p: nat, c: nat, m: Move) {
    && ThreadOk(K, MoveLocks(s.locks, p, c, m), p, m.to) && PcOk(K, |s.pc|, p, m.to)
    && (m.Release? ==> HoldsIn(s.locks, T(p), m.l))
    && (m.SwitchOut? ==> HoldsIn(s.locks, T(p), P(p)))
    && (m.SwitchOut? <==> !On(m.to))
  }

  /** On a CPU, as against switched out or dead. */
  predicate On(pc: Pc) {
    !(pc.Sleep? && pc.sleepAt.SOff?) && !(pc.Yield? && pc.yieldAt.YOff?) && !(pc.Exit? && pc.exitAt.EDead?)
  }

  lemma {:induction false} CodeDisciplined(K: Kernel, s: State, p: nat, c: nat, ch: Choice)
    requires Shape(K, s) && p < |s.pc| && s.pc[p].Code? && ThreadOk(K, s.locks, p, s.pc[p])
    requires CodeMove(K, s, p, ch).Some? && MoveOk(s, CodeMove(K, s, p, ch).value)
    ensures Disciplined(K, s, p, c, CodeMove(K, s, p, ch).value)
  {
    var m := CodeMove(K, s, p, ch).value;
    forall k: nat
      ensures Conds(K, m.to).Some? ==>
                (HoldsIn(MoveLocks(s.locks, p, c, m), T(p), Cond(k)) <==> k in Conds(K, m.to).value)
    {
      assert HoldsIn(s.locks, T(p), Cond(k)) || !HoldsIn(s.locks, T(p), Cond(k));
    }
  }

  lemma {:induction false} SleepDisciplined(K: Kernel, s: State, p: nat, c: nat)
    requires Shape(K, s) && p < |s.pc| && s.pc[p].Sleep? && PcsOk(K, s.pc) && ThreadOk(K, s.locks, p, s.pc[p])
    requires SleepMove(K, p, s.pc[p]).Some? && MoveOk(s, SleepMove(K, p, s.pc[p]).value)
    ensures Disciplined(K, s, p, c, SleepMove(K, p, s.pc[p]).value)
  {
    assert PcOk(K, |s.pc|, p, s.pc[p]);
  }

  lemma {:induction false} WakeDisciplined(K: Kernel, s: State, p: nat, c: nat)
    requires Shape(K, s) && p < |s.pc| && s.pc[p].Wake? && PcsOk(K, s.pc) && ThreadOk(K, s.locks, p, s.pc[p])
    requires WakeMove(K, s, p, s.pc[p]).Some? && MoveOk(s, WakeMove(K, s, p, s.pc[p]).value)
    ensures Disciplined(K, s, p, c, WakeMove(K, s, p, s.pc[p]).value)
  {
    assert PcOk(K, |s.pc|, p, s.pc[p]);
  }

  lemma {:induction false} YieldKillDisciplined(K: Kernel, s: State, p: nat, c: nat, ch: Choice)
    requires Shape(K, s) && p < |s.pc| && (s.pc[p].Yield? || s.pc[p].Kill?) && PcsOk(K, s.pc)
             && ThreadOk(K, s.locks, p, s.pc[p])
    requires Program(K, s, p, ch).Some? && MoveOk(s, Program(K, s, p, ch).value)
    ensures Disciplined(K, s, p, c, Program(K, s, p, ch).value)
  {
    assert PcOk(K, |s.pc|, p, s.pc[p]);
  }

  lemma {:induction false} ForkDisciplined(K: Kernel, s: State, p: nat, c: nat, ch: Choice)
    requires Shape(K, s) && p < |s.pc| && s.pc[p].Fork? && PcsOk(K, s.pc) && ThreadOk(K, s.locks, p, s.pc[p])
    requires var pc := s.pc[p];
             ForkMove(s, p, pc.forkAt, pc.i, ch).Some? && MoveOk(s, ForkMove(s, p, pc.forkAt, pc.i, ch).value)
    ensures Disciplined(K, s, p, c, ForkMove(s, p, s.pc[p].forkAt, s.pc[p].i, ch).value)
  {
    assert PcOk(K, |s.pc|, p, s.pc[p]);
    var m := ForkMove(s, p, s.pc[p].forkAt, s.pc[p].i, ch).value;
    hide ForkMove;
    ForkTable(s, p, s.pc[p].forkAt, s.pc[p].i, ch);
  }

  /** Which lock each statement of fork takes or drops. */
  lemma {:induction false} ForkTable(s: State, p: nat, at: ForkAt, i: nat, ch: Choice)
    requires |s.st| == |s.pc| && ForkMove(s, p, at, i, ch).Some?
    ensures var m := ForkMove(s, p, at, i, ch).value;
            && (m.Acquire? ==> m.l == if m.to.Fork? && m.to.forkAt.FParent? then WAIT else P(i))
            && (m.Release? ==> m.l == if at.FUnwait? then WAIT else P(i))
            && !m.SwitchOut? && (m.to == Code || m.to.Fork?)
  {
  }

  lemma {:induction false} ExitDisciplined(K: Kernel, s: State, p: nat, c: nat, ch: Choice)
    requires Shape(K, s) && p < |s.pc| && s.pc[p].Exit? && PcsOk(K, s.pc) && ThreadOk(K, s.locks, p, s.pc[p])
    requires Program(K, s, p, ch).Some? && MoveOk(s, Program(K, s, p, ch).value)
    ensures Disciplined(K, s, p, c, Program(K, s, p, ch).value)
  {
    assert PcOk(K, |s.pc|, p, s.pc[p]);
  }

  lemma {:induction false} WaitDisciplined(K: Kernel, s: State, p: nat, c: nat, ch: Choice)
    requires Shape(K, s) && p < |s.pc| && s.pc[p].Wait? && PcsOk(K, s.pc) && ThreadOk(K, s.locks, p, s.pc[p])
    requires Program(K, s, p, ch).Some? && MoveOk(s, Program(K, s, p, ch).value)
    ensures Disciplined(K, s, p, c, Program(K, s, p, ch).value)
  {
    assert PcOk(K, |s.pc|, p, s.pc[p]);
  }

  lemma {:induction false} MoveDisciplined(K: Kernel, s: State, p: nat, c: nat, ch: Choice)
    requires Shape(K, s) && p < |s.pc| && PcsOk(K, s.pc) && ThreadOk(K, s.locks, p, s.pc[p])
    requires Program(K, s, p, ch).Some? && MoveOk(s, Program(K, s, p, ch).value)
    ensures Disciplined(K, s, p, c, Program(K, s, p, ch).value)
  {
    hide ThreadOk, PcsOk, Disciplined, CodeMove, SleepMove, WakeMove, YieldMove, KillMove, ForkMove, ExitMove, WaitMove;
    match s.pc[p]
    case Code => CodeDisciplined(K, s, p, c, ch);
    case Sleep(_, _, _) => SleepDisciplined(K, s, p, c);
    case Wake(_, _, _, _) => WakeDisciplined(K, s, p, c);
    case Yield(_) => YieldKillDisciplined(K, s, p, c, ch);
    case Kill(_, _) => YieldKillDisciplined(K, s, p, c, ch);
    case Fork(_, _) => ForkDisciplined(K, s, p, c, ch);
    case Exit(_, _) => ExitDisciplined(K, s, p, c, ch);
    case Wait(_, _, _) => WaitDisciplined(K, s, p, c, ch);
  }

  /** A move leaves every other thread's locks alone. */
  lemma {:induction false} OthersKept(K: Kernel, locks: map<Lock, Thread>, p: nat, c: nat, m: Move, t: Thread, l: Lock)
    requires m.Acquire? ==> m.l !in locks
    requires m.Release? ==> HoldsIn(locks, T(p), m.l)
    requires m.SwitchOut? ==> HoldsIn(locks, T(p), P(p))
    requires t != T(p) && (m.SwitchOut? ==> t != C(c))
    ensures HoldsIn(MoveLocks(locks, p, c, m), t, l) <==> HoldsIn(locks, t, l)
  {
  }

  lemma {:induction false} OtherThreadKept(K: Kernel, locks: map<Lock, Thread>, p: nat, c: nat, m: Move, q: nat, pc: Pc)
    requires m.Acquire? ==> m.l !in locks
    requires m.Release? ==> HoldsIn(locks, T(p), m.l)
    requires m.SwitchOut? ==> HoldsIn(locks, T(p), P(p))
    requires q != p && ThreadOk(K, locks, q, pc)
    ensures ThreadOk(K, MoveLocks(locks, p, c, m), q, pc)
  {
    var locks' := MoveLocks(locks, p, c, m);
    forall l: Lock
      ensures HoldsIn(locks', T(q), l) <==> HoldsIn(locks, T(q), l)
    {
      OthersKept(K, locks, p, c, m, T(q), l);
    }
    hide MoveLocks, HoldsIn;
  }

  lemma {:induction false} OtherCpuKept(K: Kernel, locks: map<Lock, Thread>, p: nat, c: nat, m: Move, d: nat, cpu: Cpu)
    requires m.Acquire? ==> m.l !in locks
    requires m.Release? ==> HoldsIn(locks, T(p), m.l)
    requires m.SwitchOut? ==> HoldsIn(locks, T(p), P(p))
    requires (m.SwitchOut? ==> d != c) && CpuOk(locks, d, cpu)
    ensures CpuOk(MoveLocks(locks, p, c, m), d, cpu)
  {
    var locks' := MoveLocks(locks, p, c, m);
    forall l: Lock
      ensures HoldsIn(locks', C(d), l) <==> HoldsIn(locks, C(d), l)
    {
      OthersKept(K, locks, p, c, m, C(d), l);
    }
    hide MoveLocks, HoldsIn;
  }

  // ---------------------------------------------------------------- states and CPUs

  /** What state and channel go with a program counter. */
  ghost predicate StOk(pc: Pc, st: PState, chan: Option<nat>) {
    match pc
    case Sleep(at, c, _) =>
      && chan == (if at.SSched? || at.SOff? || at.SWoken? then Some(c) else None)
      && if at.SSched? then st == SLEEPING else if at.SOff? then st == SLEEPING || st == RUNNABLE else st == RUNNING
    case Yield(at) =>
      && chan == None
      && if at.YSched? then st == RUNNABLE else if at.YOff? then st == RUNNABLE || st == USED else st == RUNNING
    case Exit(at, _) =>
      && chan == None
      && if at.ERelease? || at.ESched? then st == ZOMBIE else if at.EDead? then st == ZOMBIE || st == UNUSED
         else st == RUNNING
    case _ => st == RUNNING && chan == None
  }

  ghost predicate States(pc: seq<Pc>, st: seq<PState>, chan: seq<Option<nat>>) {
    && |st| == |chan| == |pc|
    && forall p :: 0 <= p < |pc| ==> StOk(pc[p], st[p], chan[p])
  }

  ghost predicate RunsOn(cpus: seq<Cpu>, c: nat, p: nat) {
    c < |cpus| && cpus[c] == Runs(p)
  }

  /** Every process that is inside its kernel thread is on exactly one CPU. */
  ghost predicate Placed(pc: seq<Pc>, cpus: seq<Cpu>) {
    && (forall c :: 0 <= c < |cpus| ==>
          (if cpus[c].Runs? then cpus[c].p < |pc| && On(pc[cpus[c].p]) else cpus[c].i < |pc|))
    && (forall c, d, p :: RunsOn(cpus, c, p) && RunsOn(cpus, d, p) ==> c == d)
    && (forall p :: 0 <= p < |pc| && On(pc[p]) ==> exists c :: RunsOn(cpus, c, p))
  }

  ghost predicate Machine(K: Kernel, s: State) {
    && Shape(K, s) && PcsOk(K, s.pc) && Owners(K, s.locks, s.pc, s.cpus)
    && States(s.pc, s.st, s.chan) && Placed(s.pc, s.cpus)
    && s.st[K.init] != USED && s.st[K.init] != UNUSED && s.st[K.init] != ZOMBIE
  }

  lemma {:induction false} At(K: Kernel, s: State, p: nat)
    requires Machine(K, s) && p < |s.pc|
    ensures Shape(K, s) && PcOk(K, |s.pc|, p, s.pc[p]) && ThreadOk(K, s.locks, p, s.pc[p])
            && StOk(s.pc[p], s.st[p], s.chan[p])
  {
  }

  lemma {:induction false} OnCpu(K: Kernel, s: State, c: nat)
    requires Machine(K, s) && c < |s.cpus| && s.cpus[c].Runs?
    ensures Shape(K, s) && s.cpus[c].p < |s.pc| && On(s.pc[s.cpus[c].p])
  {
  }

  /** No two threads hold one lock, so nobody else is at a statement that wants it. */
  lemma {:induction false} Mutex(K: Kernel, s: State, p: nat, q: nat, r: nat)
    requires Machine(K, s) && p < |s.pc| && q < |s.pc| && p != q && Wants(s.pc[p], p) == Some(r)
    ensures Wants(s.pc[q], q) != Some(r)
  {
    assert ThreadOk(K, s.locks, p, s.pc[p]) && ThreadOk(K, s.locks, q, s.pc[q]);
    assert HoldsIn(s.locks, T(p), P(r));
    assert !HoldsIn(s.locks, T(q), P(r));
  }

  /** A process on whose lock someone else works is either between its own statements or off the CPU. */
  lemma {:induction false} OthersTarget(K: Kernel, s: State, p: nat, q: nat)
    requires Machine(K, s) && p < |s.pc| && q < |s.pc| && p != q && Wants(s.pc[p], p) == Some(q)
    ensures s.st[q] == SLEEPING ==> s.pc[q].Sleep? && s.pc[q].sleepAt.SOff?
    ensures s.st[q] == ZOMBIE || s.st[q] == UNUSED ==> s.pc[q].Exit? && s.pc[q].exitAt.EDead?
    ensures s.st[q] == USED ==> s.pc[q].Yield? && s.pc[q].yieldAt.YOff?
  {
    Mutex(K, s, p, q, q);
    assert StOk(s.pc[q], s.st[q], s.chan[q]);
  }

  // ---------------------------------------------------------------- the code, read by what it changes

  /** How far an exiting process has handed its children to init. */
  function Cleared(pc: Pc, n: nat): nat {
    match pc
    case Exit(at, i) => if at.EReparent? then i else if at.EDead? then 0 else n
    case Wake(_, _, _, r) => (match r case ToReparent(i) => i case ToExitLock => n case _ => 0)
    case _ => 0
  }

  /** Statements outside exit and reparent do not move the mark. */
  ghost predicate Marks(K: Kernel, s: State, p: nat, m: Move)
    requires Shape(K, s) && p < |s.pc|
  {
    var n, pc := |s.pc|, s.pc[p];
    && (Cleared(m.to, n) <= Cleared(pc, n)
        || (pc.Exit? && pc.exitAt.EReparent? && pc.i < n && Cleared(m.to, n) == pc.i + 1
            && (s.parent[pc.i] != Some(p) || (m.SetParent? && m.q == pc.i && m.par == K.init && p != K.init)))
        || Cleared(pc, n) >= n)
    && (m.to.Wait? && m.to.waitAt.ATest? ==> m.to.i < n && s.parent[m.to.i] == Some(p) && m.Acquire?)
  }

  /** How many processes a wakeup has dealt with. */
  function Limit(pc: Pc): nat {
    if pc.Wake? then (if pc.wakeAt.WRelease? then pc.i + 1 else pc.i) else 0
  }

  /** How statements advance a wakeup, and how a process comes to be asleep. */
  ghost predicate Wakes(K: Kernel, s: State, p: nat, m: Move)
    requires Shape(K, s) && p < |s.pc|
  {
    var pc := s.pc[p];
    && (m.to.Wake? ==>
          || Limit(m.to) == 0
          || (pc.Wake? && pc.ch == m.to.ch &&
              (|| Limit(m.to) == Limit(pc)
               || (pc.wakeAt.WLoop? && pc.i == p && Limit(m.to) == p + 1)
               || (pc.wakeAt.WTest? && Limit(m.to) == pc.i + 1
                   && (pc.i < |s.pc| && s.st[pc.i] == SLEEPING && s.chan[pc.i] == Some(pc.ch) ==>
                         m.SetState? && m.q == pc.i)))))
    && (m.to.Sleep? && (m.to.sleepAt.SMark? || m.to.sleepAt.SSched? || m.to.sleepAt.SOff?) ==>
          pc.Sleep? && pc.ch == m.to.ch && (pc.sleepAt.SRelease? || pc.sleepAt.SMark? || pc.sleepAt.SSched?))
    && (m.to.Sleep? && (m.to.sleepAt.SSched? || m.to.sleepAt.SOff?) ==> !pc.sleepAt.SRelease?)
    && (m.to.Wake? && m.Acquire? ==> m.l.P?)
    && (m.Returned? ==> pc.Wake? && pc.wakeAt.WLoop? && pc.i >= |s.pc| && m.ch == pc.ch
                        && m.held == HoldsIn(s.locks, T(p), Cond(K.guard(pc.ch))))
  }

  /** The slot that a fork in progress has claimed and not yet let loose. */
  function ForkTarget(pc: Pc): Option<nat> {
    if pc.Fork? && (pc.forkAt.FHave? || pc.forkAt.FWait? || pc.forkAt.FParent? || pc.forkAt.FUnwait?
        || pc.forkAt.FReady? || pc.forkAt.FRun?)
    then Some(pc.i) else None
  }

  predicate ForkNamed(pc: Pc) {
    pc.Fork? && (pc.forkAt.FUnwait? || pc.forkAt.FReady? || pc.forkAt.FRun?)
  }

  /** Fork's target comes from a claim and stays until the child is let loose. */
  predicate ForkStep(pc: Pc, m: Move) {
    ForkTarget(m.to).Some? ==>
      || (m.Claim? && m.to == Fork(FHave, m.q))
      || (ForkTarget(pc) == ForkTarget(m.to) && (ForkNamed(m.to) <==> ForkNamed(pc) || m.SetParent?)
          && (m.Acquire? || m.Release? || m.SetParent?))
  }

  ghost predicate Typed(K: Kernel, s: State, p: nat, m: Move)
    requires Shape(K, s) && p < |s.pc| && MoveOk(s, m)
  {
    Kinds(K, s, p, m) && Marks(K, s, p, m) && Wakes(K, s, p, m) && ForkStep(s.pc[p], m)
  }

  /** Which statements change what; and the process's own state goes with its new program counter. */
  ghost predicate Kinds(K: Kernel, s: State, p: nat, m: Move)
    requires Shape(K, s) && p < |s.pc| && MoveOk(s, m)
  {
    var pc := s.pc[p];
    match m
    case SetState(q, x, to) =>
      && x == RUNNABLE
      && (|| (q == p && pc == Yield(YMark) && to == Yield(YSched))
          || (q != p && Wants(pc, p) == Some(q) && s.st[q] == SLEEPING && StOk(to, s.st[p], s.chan[p])
              && (pc.Wake? || pc.Kill?))
          || (pc == Fork(FRun, q) && to == Fork(FDone, q)))
    case Claim(q, to) => pc == Fork(FTest, q) && s.st[q] == UNUSED && q != p && to == Fork(FHave, q)
    case FreeProc(q, reap, to) =>
      if reap then
        && q != p && pc.Wait? && pc.waitAt.ATest? && pc.i == q && s.st[q] == ZOMBIE
        && to.Wait? && to.waitAt.AReaped?
      else pc == Fork(FHave, q) && to == Fork(FFailed, q)
    case SetParent(q, par, to) =>
      || (pc == Fork(FParent, q) && par == p && to == Fork(FUnwait, q))
      || (pc == Exit(EReparent, q) && par == K.init && s.parent[q] == Some(p)
          && to == Wake(WLoop, K.init, 0, ToReparent(q + 1)))
    case MarkSleeping(c, to) => pc.Sleep? && pc.sleepAt.SMark? && pc.ch == c && to == pc.(sleepAt := SSched)
    case Die(to) => pc.Exit? && pc.exitAt.EMark? && to.Exit? && to.exitAt.ERelease?
    case ClearChan(to) => pc.Sleep? && pc.sleepAt.SWoken? && to == pc.(sleepAt := SUnlock)
    case _ => StOk(m.to, s.st[p], s.chan[p])
  }

  lemma {:induction false} CodeTyped(K: Kernel, s: State, p: nat, ch: Choice)
    requires Shape(K, s) && p < |s.pc| && s.pc[p].Code? && StOk(s.pc[p], s.st[p], s.chan[p])
             && PcOk(K, |s.pc|, p, s.pc[p])
    requires Program(K, s, p, ch).Some? && MoveOk(s, Program(K, s, p, ch).value)
    ensures Typed(K, s, p, Program(K, s, p, ch).value)
  {
    hide HoldsOnly;
  }

  lemma {:induction false} SleepTyped(K: Kernel, s: State, p: nat, ch: Choice)
    requires Shape(K, s) && p < |s.pc| && s.pc[p].Sleep? && StOk(s.pc[p], s.st[p], s.chan[p])
             && PcOk(K, |s.pc|, p, s.pc[p])
    requires Program(K, s, p, ch).Some? && MoveOk(s, Program(K, s, p, ch).value)
    ensures Typed(K, s, p, Program(K, s, p, ch).value)
  {
    hide HoldsOnly;
  }

  lemma {:induction false} WakeTyped(K: Kernel, s: State, p: nat, ch: Choice)
    requires Shape(K, s) && p < |s.pc| && s.pc[p].Wake? && StOk(s.pc[p], s.st[p], s.chan[p])
             && PcOk(K, |s.pc|, p, s.pc[p])
    requires Program(K, s, p, ch).Some? && MoveOk(s, Program(K, s, p, ch).value)
    ensures Typed(K, s, p, Program(K, s, p, ch).value)
  {
    hide HoldsOnly;
  }

  lemma {:induction false} YieldKillTyped(K: Kernel, s: State, p: nat, ch: Choice)
    requires Shape(K, s) && p < |s.pc| && (s.pc[p].Yield? || s.pc[p].Kill?) && StOk(s.pc[p], s.st[p], s.chan[p])
             && PcOk(K, |s.pc|, p, s.pc[p])
    requires Program(K, s, p, ch).Some? && MoveOk(s, Program(K, s, p, ch).value)
    ensures Typed(K, s, p, Program(K, s, p, ch).value)
  {
    hide HoldsOnly;
  }

  lemma {:induction false} ForkTyped(K: Kernel, s: State, p: nat, ch: Choice)
    requires Shape(K, s) && p < |s.pc| && s.pc[p].Fork? && StOk(s.pc[p], s.st[p], s.chan[p])
             && PcOk(K, |s.pc|, p, s.pc[p])
    requires Program(K, s, p, ch).Some? && MoveOk(s, Program(K, s, p, ch).value)
    ensures Typed(K, s, p, Program(K, s, p, ch).value)
  {
    hide HoldsOnly;
  }

  lemma {:induction false} ExitTyped(K: Kernel, s: State, p: nat, ch: Choice)
    requires Shape(K, s) && p < |s.pc| && s.pc[p].Exit? && StOk(s.pc[p], s.st[p], s.chan[p])
             && PcOk(K, |s.pc|, p, s.pc[p])
    requires Program(K, s, p, ch).Some? && MoveOk(s, Program(K, s, p, ch).value)
    ensures Typed(K, s, p, Program(K, s, p, ch).value)
  {
    hide HoldsOnly;
  }

  lemma {:induction false} WaitTyped(K: Kernel, s: State, p: nat, ch: Choice)
    requires Shape(K, s) && p < |s.pc| && s.pc[p].Wait? && StOk(s.pc[p], s.st[p], s.chan[p])
             && PcOk(K, |s.pc|, p, s.pc[p])
    requires Program(K, s, p, ch).Some? && MoveOk(s, Program(K, s, p, ch).value)
    ensures Typed(K, s, p, Program(K, s, p, ch).value)
  {
    hide HoldsOnly;
  }

  lemma {:induction false} MoveTyped(K: Kernel, s: State, p: nat, ch: Choice)
    requires Shape(K, s) && p < |s.pc| && StOk(s.pc[p], s.st[p], s.chan[p]) && PcOk(K, |s.pc|, p, s.pc[p])
    requires Program(K, s, p, ch).Some? && MoveOk(s, Program(K, s, p, ch).value)
    ensures Typed(K, s, p, Program(K, s, p, ch).value)
  {
    hide Typed, Program, StOk;
    match s.pc[p]
    case Code => CodeTyped(K, s, p, ch);
    case Sleep(_, _, _) => SleepTyped(K, s, p, ch);
    case Wake(_, _, _, _) => WakeTyped(K, s, p, ch);
    case Yield(_) => YieldKillTyped(K, s, p, ch);
    case Kill(_, _) => YieldKillTyped(K, s, p, ch);
    case Fork(_, _) => ForkTyped(K, s, p, ch);
    case Exit(_, _) => ExitTyped(K, s, p, ch);
    case Wait(_, _, _) => WaitTyped(K, s, p, ch);
  }

  // ---------------------------------------------------------------- fork's slot

  ghost predicate ForkOk(pc: seq<Pc>, st: seq<PState>, parent: seq<Option<nat>>, p: nat)
    requires p < |pc| == |st| == |parent|
  {
    var i := ForkTarget(pc[p]);
    i.Some? ==> && i.value < |pc| && i.value != p && st[i.value] == USED
                && parent[i.value] == if ForkNamed(pc[p]) then Some(p) else None
  }

  ghost predicate Forks(pc: seq<Pc>, st: seq<PState>, parent: seq<Option<nat>>) {
    && |pc| == |st| == |parent|
    && (forall p :: 0 <= p < |pc| ==> ForkOk(pc, st, parent, p))
    && (forall p, q :: 0 <= p < q < |pc| && ForkTarget(pc[p]).Some? ==> ForkTarget(pc[p]) != ForkTarget(pc[q]))
  }

  // ---------------------------------------------------------------- a process step keeps the machine

  /** The process that a move changes from outside is off the CPU and holds nothing. */
  lemma {:induction false} TargetOff(K: Kernel, s: State, p: nat, m: Move)
    requires Machine(K, s) && Forks(s.pc, s.st, s.parent) && p < |s.pc| && MoveOk(s, m) && Typed(K, s, p, m)
    requires m.Claim? || m.FreeProc? || (m.SetState? && m.to != Yield(YSched))
    ensures m.q != p && m.q < |s.pc| && !On(s.pc[m.q]) && Wants(s.pc[p], p) == Some(m.q)
    ensures m.SetState? ==> (s.pc[m.q].Sleep? && s.st[m.q] == SLEEPING) || (s.pc[m.q].Yield? && s.st[m.q] == USED)
    ensures m.Claim? ==> s.pc[m.q].Exit?
    ensures m.Claim? || m.FreeProc? ==> m.q != K.init
  {
    assert ForkOk(s.pc, s.st, s.parent, p);
    OthersTarget(K, s, p, m.q);
  }

  lemma {:induction false} ExecState(K: Kernel, s: State, p: nat, m: Move, q: nat)
    requires Machine(K, s) && Forks(s.pc, s.st, s.parent) && p < |s.pc| && MoveOk(s, m) && Typed(K, s, p, m)
             && q < |s.pc|
    ensures StOk(MovePc(s.pc, p, m)[q], MoveSt(s.st, p, m)[q], MoveChan(s.chan, p, m)[q])
  {
    hide Machine, Forks, Marks, Wakes, ForkStep, ThreadOk, PcOk;
    At(K, s, q);
    At(K, s, p);
    if m.Claim? || m.FreeProc? || (m.SetState? && m.to != Yield(YSched)) { TargetOff(K, s, p, m); }
  }

  lemma {:induction false} ExecStates(K: Kernel, s: State, c: nat, m: Move)
    requires Machine(K, s) && Forks(s.pc, s.st, s.parent) && c < |s.cpus| && s.cpus[c].Runs? && s.cpus[c].p < |s.pc|
    requires MoveOk(s, m) && Typed(K, s, s.cpus[c].p, m)
    ensures var s' := ApplyMove(s, c, m); States(s'.pc, s'.st, s'.chan)
  {
    hide Machine, Forks, Typed, StOk;
    OnCpu(K, s, c);
    var s' := ApplyMove(s, c, m);
    forall q | 0 <= q < |s.pc|
      ensures StOk(s'.pc[q], s'.st[q], s'.chan[q])
    {
      ExecState(K, s, s.cpus[c].p, m, q);
    }
  }

  lemma {:induction false} OnAfter(K: Kernel, s: State, p: nat, m: Move, q: nat)
    requires Machine(K, s) && Forks(s.pc, s.st, s.parent) && p < |s.pc| && MoveOk(s, m) && Typed(K, s, p, m)
             && q < |s.pc|
    ensures On(MovePc(s.pc, p, m)[q]) <==> if q == p then On(m.to) else On(s.pc[q])
  {
    if m.Claim? || m.FreeProc? { TargetOff(K, s, p, m); }
    hide Machine, Typed, Forks;
  }

  lemma {:induction false} ExecPlaced(K: Kernel, s: State, c: nat, m: Move)
    requires Machine(K, s) && Forks(s.pc, s.st, s.parent) && c < |s.cpus| && s.cpus[c].Runs? && s.cpus[c].p < |s.pc|
    requires MoveOk(s, m) && Typed(K, s, s.cpus[c].p, m) && (m.SwitchOut? <==> !On(m.to))
    ensures var s' := ApplyMove(s, c, m); Placed(s'.pc, s'.cpus)
  {
    var p := s.cpus[c].p;
    var s' := ApplyMove(s, c, m);
    forall q | 0 <= q < |s.pc|
      ensures On(s'.pc[q]) <==> if q == p then On(m.to) else On(s.pc[q])
    {
      OnAfter(K, s, p, m, q);
    }
    hide Owners, States, PcsOk, Typed, Forks, On, MovePc, MoveLocks, MoveSt, MoveChan, MoveParent, MoveTrace;
    assert RunsOn(s.cpus, c, p);
    forall q | 0 <= q < |s'.pc| && On(s'.pc[q])
      ensures exists d :: RunsOn(s'.cpus, d, q)
    {
      if q == p {
        assert RunsOn(s'.cpus, c, p);
      } else {
        var d :| RunsOn(s.cpus, d, q);
        assert RunsOn(s'.cpus, d, q);
      }
    }
    forall d, e, q | RunsOn(s'.cpus, d, q) && RunsOn(s'.cpus, e, q)
      ensures d == e
    {
      assert RunsOn(s.cpus, d, q) && RunsOn(s.cpus, e, q);
    }
    forall d | 0 <= d < |s'.cpus| && s'.cpus[d].Runs?
      ensures s'.cpus[d].p < |s'.pc| && On(s'.pc[s'.cpus[d].p])
    {
      assert RunsOn(s.cpus, d, s.cpus[d].p);
    }
  }

  lemma {:induction false} ExecOwners(K: Kernel, s: State, c: nat, m: Move)
    requires Machine(K, s) && Forks(s.pc, s.st, s.parent) && c < |s.cpus| && s.cpus[c].Runs? && s.cpus[c].p < |s.pc|
    requires MoveOk(s, m) && Typed(K, s, s.cpus[c].p, m) && Disciplined(K, s, s.cpus[c].p, c, m)
    ensures var s' := ApplyMove(s, c, m); Owners(K, s'.locks, s'.pc, s'.cpus) && PcsOk(K, s'.pc)
  {
    var p := s.cpus[c].p;
    var s' := ApplyMove(s, c, m);
    if m.Claim? || m.FreeProc? { TargetOff(K, s, p, m); }
    forall q | 0 <= q < |s.pc|
      ensures ThreadOk(K, s'.locks, q, s'.pc[q]) && PcOk(K, |s.pc|, q, s'.pc[q])
    {
      ExecThread(K, s, c, m, q);
    }
    hide Typed, Placed, States;
    forall d | 0 <= d < |s'.cpus|
      ensures CpuOk(s'.locks, d, s'.cpus[d])
    {
      assert CpuOk(s.locks, d, s.cpus[d]);
      if m.SwitchOut? && d == c {
        SwitchedOut(s.locks, p, c);
      } else {
        OtherCpuKept(K, s.locks, p, c, m, d, s.cpus[d]);
      }
    }
  }

  lemma {:induction false} SwitchedOut(locks: map<Lock, Thread>, p: nat, c: nat)
    requires HoldsIn(locks, T(p), P(p)) && CpuOk(locks, c, Runs(p))
    ensures CpuOk(locks[P(p) := C(c)], c, Unlock(p))
  {
    var locks' := locks[P(p) := C(c)];
    forall q: nat
      ensures HoldsIn(locks', C(c), P(q)) <==> q == p
    {
      assert !HoldsIn(locks, C(c), P(q));
    }
    forall k: nat
      ensures !HoldsIn(locks', C(c), Cond(k))
    {
      assert !HoldsIn(locks, C(c), Cond(k));
    }
  }

  lemma {:induction false} ExecThread(K: Kernel, s: State, c: nat, m: Move, q: nat)
    requires Machine(K, s) && c < |s.cpus| && s.cpus[c].Runs? && s.cpus[c].p < |s.pc| && q < |s.pc|
    requires MoveOk(s, m) && Disciplined(K, s, s.cpus[c].p, c, m)
    requires m.Claim? || m.FreeProc? ==> m.q != s.cpus[c].p && !On(s.pc[m.q])
    requires (m.Claim? ==> s.pc[m.q].Exit?) && (m.FreeProc? ==> m.q != K.init)
    ensures ThreadOk(K, MoveLocks(s.locks, s.cpus[c].p, c, m), q, MovePc(s.pc, s.cpus[c].p, m)[q])
    ensures PcOk(K, |s.pc|, q, MovePc(s.pc, s.cpus[c].p, m)[q])
  {
    var p := s.cpus[c].p;
    assert ThreadOk(K, s.locks, q, s.pc[q]) && PcOk(K, |s.pc|, q, s.pc[q]);
    hide Placed, States, Owners, PcsOk;
    if q != p {
      OtherThreadKept(K, s.locks, p, c, m, q, s.pc[q]);
      if (m.Claim? || m.FreeProc?) && m.q == q {
        OffHoldsNothing(K, MoveLocks(s.locks, p, c, m), q, s.pc[q], MovePc(s.pc, p, m)[q]);
      }
    }
  }

  lemma {:induction false} OffHoldsNothing(K: Kernel, locks: map<Lock, Thread>, q: nat, pc: Pc, pc': Pc)
    requires ThreadOk(K, locks, q, pc) && !On(pc) && !On(pc')
    ensures ThreadOk(K, locks, q, pc')
  {
    hide HoldsIn;
  }

  lemma {:induction false} ExecMachine(K: Kernel, s: State, c: nat, ch: Choice)
    requires Machine(K, s) && Forks(s.pc, s.st, s.parent) && Enabled(K, s, Exec(c, ch))
    ensures Machine(K, Apply(K, s, Exec(c, ch)))
    ensures Typed(K, s, s.cpus[c].p, Program(K, s, s.cpus[c].p, ch).value)
  {
    var p := s.cpus[c].p;
    var m := Program(K, s, p, ch).value;
    assert StOk(s.pc[p], s.st[p], s.chan[p]) && ThreadOk(K, s.locks, p, s.pc[p]) && PcOk(K, |s.pc|, p, s.pc[p]);
    MoveTyped(K, s, p, ch);
    MoveDisciplined(K, s, p, c, ch);
    hide Program, Owners, PcsOk, Placed, States, Marks, Wakes, Kinds, Forks, ThreadOk, StOk, PcOk;
    ExecStates(K, s, c, m);
    ExecPlaced(K, s, c, m);
    ExecOwners(K, s, c, m);
    ExecInit(K, s, c, m);
  }

  lemma {:induction false} ExecInit(K: Kernel, s: State, c: nat, m: Move)
    requires Machine(K, s) && Forks(s.pc, s.st, s.parent) && c < |s.cpus| && s.cpus[c].Runs? && s.cpus[c].p < |s.pc|
    requires MoveOk(s, m) && Typed(K, s, s.cpus[c].p, m)
    ensures var st := MoveSt(s.st, s.cpus[c].p, m); st[K.init] != USED && st[K.init] != UNUSED && st[K.init] != ZOMBIE
  {
    var p := s.cpus[c].p;
    if m.Claim? || m.FreeProc? { TargetOff(K, s, p, m); }
    if m.Die? { assert PcOk(K, |s.pc|, p, s.pc[p]); }
  }

  // ---------------------------------------------------------------- a scheduler step keeps the machine

  lemma {:induction false} SchedHolds(K: Kernel, s: State, c: nat)
    requires Machine(K, s) && c < |s.cpus| && SchedWants(s.cpus[c]).Some?
    ensures var i := SchedWants(s.cpus[c]).value;
            && i < |s.pc| && HoldsIn(s.locks, C(c), P(i)) && Wants(s.pc[i], i) != Some(i)
            && (s.st[i] == RUNNABLE ==> !On(s.pc[i]) && !s.pc[i].Exit?)
  {
    var i := SchedWants(s.cpus[c]).value;
    assert CpuOk(s.locks, c, s.cpus[c]);
    assert HoldsIn(s.locks, C(c), P(i));
    assert ThreadOk(K, s.locks, i, s.pc[i]);
    assert !HoldsIn(s.locks, T(i), P(i));
    assert StOk(s.pc[i], s.st[i], s.chan[i]);
  }

  /** Taking a free p->lock, passing it on, or dropping it leaves other threads alone. */
  lemma {:induction false} PLockOthers(K: Kernel, locks: map<Lock, Thread>, locks': map<Lock, Thread>, i: nat, q: nat,
      pc: Pc)
    requires ThreadOk(K, locks, q, pc) && !HoldsIn(locks, T(q), P(i)) && !HoldsIn(locks', T(q), P(i))
    requires forall l: Lock :: l != P(i) ==> (HoldsIn(locks', T(q), l) <==> HoldsIn(locks, T(q), l))
    ensures ThreadOk(K, locks', q, pc)
  {
    hide HoldsIn;
  }

  lemma {:induction false} PLockCpus(locks: map<Lock, Thread>, locks': map<Lock, Thread>, i: nat, d: nat, cpu: Cpu)
    requires CpuOk(locks, d, cpu) && !HoldsIn(locks, C(d), P(i)) && !HoldsIn(locks', C(d), P(i))
    requires forall l: Lock :: l != P(i) ==> (HoldsIn(locks', C(d), l) <==> HoldsIn(locks, C(d), l))
    ensures CpuOk(locks', d, cpu)
  {
    hide HoldsIn;
  }

  lemma {:induction false} SchedCpu(locks: map<Lock, Thread>, locks': map<Lock, Thread>, c: nat, cpu: Cpu, cpu': Cpu,
      i: nat)
    requires CpuOk(locks, c, cpu) && (SchedWants(cpu) == None || SchedWants(cpu) == Some(i))
    requires forall l: Lock :: l != P(i) ==> (HoldsIn(locks', C(c), l) <==> HoldsIn(locks, C(c), l))
    requires HoldsIn(locks', C(c), P(i)) <==> SchedWants(cpu') == Some(i)
    requires SchedWants(cpu') == None || SchedWants(cpu') == Some(i)
    ensures CpuOk(locks', c, cpu')
  {
    hide HoldsIn;
  }

  lemma {:induction false} ResumedOk(K: Kernel, locks: map<Lock, Thread>, c: nat, i: nat, pc: Pc)
    requires ThreadOk(K, locks, i, pc) && !On(pc) && !pc.Exit? && HoldsIn(locks, C(c), P(i))
    ensures ThreadOk(K, locks[P(i) := T(i)], i, Resumed(pc))
  {
    var locks' := locks[P(i) := T(i)];
    forall l: Lock
      ensures HoldsIn(locks', T(i), l) <==> l == P(i)
    {
      assert Wants(pc, i) == None && Conds(K, pc) == Some({});
      match l
      case P(q) => assert !HoldsIn(locks, T(i), P(q));
      case Cond(k) => assert !HoldsIn(locks, T(i), Cond(k));
    }
    hide HoldsIn;
  }

  lemma {:induction false} SchedOwners(K: Kernel, s: State, c: nat)
    requires Machine(K, s) && SchedOk(s, c)
    ensures var s' := ApplySched(s, c); Owners(K, s'.locks, s'.pc, s'.cpus)
  {
    var s' := ApplySched(s, c);
    var cpu := s.cpus[c];
    assert CpuOk(s.locks, c, cpu);
    if SchedWants(cpu).Some? { SchedHolds(K, s, c); }
    var i := cpu.i;
    hide Placed, States, PcsOk;
    forall q | 0 <= q < |s.pc|
      ensures ThreadOk(K, s'.locks, q, s'.pc[q])
    {
      assert ThreadOk(K, s.locks, q, s.pc[q]);
      if s'.pc[q] != s.pc[q] || (q == i && cpu.Test? && s.st[i] == RUNNABLE) {
        ResumedOk(K, s.locks, c, i, s.pc[i]);
      } else {
        PLockOthers(K, s.locks, s'.locks, i, q, s.pc[q]);
      }
    }
    forall d | 0 <= d < |s'.cpus|
      ensures CpuOk(s'.locks, d, s'.cpus[d])
    {
      assert CpuOk(s.locks, d, s.cpus[d]);
      if d == c {
        SchedCpu(s.locks, s'.locks, c, cpu, s'.cpus[c], i);
      } else {
        PLockCpus(s.locks, s'.locks, i, d, s.cpus[d]);
      }
    }
  }

  lemma {:induction false} SchedPlaced(K: Kernel, s: State, c: nat)
    requires Machine(K, s) && SchedOk(s, c)
    ensures var s' := ApplySched(s, c); Placed(s'.pc, s'.cpus)
  {
    var s' := ApplySched(s, c);
    var i := s.cpus[c].i;
    if SchedWants(s.cpus[c]).Some? { SchedHolds(K, s, c); }
    hide Owners, PcsOk, States;
    forall q | 0 <= q < |s'.pc| && On(s'.pc[q])
      ensures exists d :: RunsOn(s'.cpus, d, q)
    {
      if On(s.pc[q]) {
        var d :| RunsOn(s.cpus, d, q);
        assert RunsOn(s'.cpus, d, q);
      } else {
        assert RunsOn(s'.cpus, c, q);
      }
    }
    forall d: nat, e: nat, q: nat | RunsOn(s'.cpus, d, q) && RunsOn(s'.cpus, e, q)
      ensures d == e
    {
      if d != c { assert RunsOn(s.cpus, d, q) && On(s.pc[q]); }
      if e != c { assert RunsOn(s.cpus, e, q) && On(s.pc[q]); }
    }
  }

  lemma {:induction false} SchedMachine(K: Kernel, s: State, c: nat)
    requires Machine(K, s) && Enabled(K, s, Sched(c))
    ensures Machine(K, Apply(K, s, Sched(c)))
  {
    SchedOwners(K, s, c);
    SchedPlaced(K, s, c);
    if SchedWants(s.cpus[c]).Some? { SchedHolds(K, s, c); }
    hide Owners, Placed;
  }

  // ---------------------------------------------------------------- parents, exit and wait

  predicate Alive(st: PState) {
    st == RUNNABLE || st == RUNNING || st == SLEEPING
  }

  /** Every parent is alive, and everybody but init who has been let loose has one. */
  ghost predicate Parents(K: Kernel, st: seq<PState>, parent: seq<Option<nat>>) {
    && |st| == |parent|
    && (forall i :: 0 <= i < |st| && parent[i].Some? ==>
          parent[i].value < |st| && Alive(st[parent[i].value]) && st[i] != UNUSED)
    && (forall i :: 0 <= i < |st| && i != K.init && (Alive(st[i]) || st[i] == ZOMBIE) ==> parent[i].Some?)
  }

  ghost predicate Childless(parent: seq<Option<nat>>, p: nat, below: nat) {
    forall i :: 0 <= i < below && i < |parent| ==> parent[i] != Some(p)
  }

  /** Exiting processes have no children below their mark; a waiting one looks at a child of its own. */
  ghost predicate Family(pc: seq<Pc>, parent: seq<Option<nat>>) {
    && |pc| == |parent|
    && (forall p :: 0 <= p < |pc| ==> Childless(parent, p, Cleared(pc[p], |pc|)))
    && (forall p :: 0 <= p < |pc| && pc[p].Wait? && pc[p].waitAt.ATest? ==>
          pc[p].i < |pc| && parent[pc[p].i] == Some(p))
  }

  predicate HasWait(K: Kernel, pc: Pc) {
    Conds(K, pc).Some? && 0 in Conds(K, pc).value
  }

  lemma {:induction false} WaitMutex(K: Kernel, s: State, p: nat, q: nat)
    requires Machine(K, s) && p < |s.pc| && q < |s.pc| && HasWait(K, s.pc[p]) && HasWait(K, s.pc[q])
    ensures p == q
  {
    assert ThreadOk(K, s.locks, p, s.pc[p]) && ThreadOk(K, s.locks, q, s.pc[q]);
    assert HoldsIn(s.locks, T(p), WAIT) && HoldsIn(s.locks, T(q), WAIT);
  }

  // ---------------------------------------------------------------- fork, exit and wait keep the family in order

  /** What a move does to states and parents cannot touch a slot that another fork has claimed. */
  lemma {:induction false} ClaimedSafe(K: Kernel, s: State, p: nat, m: Move, i: nat)
    requires Machine(K, s) && Forks(s.pc, s.st, s.parent) && p < |s.pc| && On(s.pc[p]) && MoveOk(s, m)
             && Typed(K, s, p, m)
    requires i < |s.pc| && s.st[i] == USED && ForkTarget(s.pc[p]) != Some(i) && s.parent[i] != Some(p)
    ensures MoveSt(s.st, p, m)[i] == USED && MoveParent(s.parent, m)[i] == s.parent[i]
  {
    assert StOk(s.pc[p], s.st[p], s.chan[p]);
    assert ForkOk(s.pc, s.st, s.parent, p);
    hide Machine, Marks, Wakes, Forks, ForkOk;
  }

  lemma {:induction false} ForkOkOther(K: Kernel, s: State, p: nat, m: Move, q: nat)
    requires Machine(K, s) && Forks(s.pc, s.st, s.parent) && p < |s.pc| && On(s.pc[p]) && MoveOk(s, m)
             && Typed(K, s, p, m)
    requires q < |s.pc| && q != p
    ensures ForkOk(MovePc(s.pc, p, m), MoveSt(s.st, p, m), MoveParent(s.parent, m), q)
    ensures ForkTarget(MovePc(s.pc, p, m)[q]) == ForkTarget(s.pc[q])
  {
    hide Machine, Typed, MoveSt, MoveParent;
    assert ForkOk(s.pc, s.st, s.parent, q);
    if m.Claim? || m.FreeProc? { TargetOff(K, s, p, m); }
    var i := ForkTarget(s.pc[q]);
    if i.Some? { ClaimedSafe(K, s, p, m, i.value); }
  }

  lemma {:induction false} ForkOkOwn(K: Kernel, s: State, p: nat, m: Move)
    requires Machine(K, s) && Forks(s.pc, s.st, s.parent) && Parents(K, s.st, s.parent)
    requires p < |s.pc| && MoveOk(s, m) && Typed(K, s, p, m)
    ensures ForkOk(MovePc(s.pc, p, m), MoveSt(s.st, p, m), MoveParent(s.parent, m), p)
  {
    hide Machine, Marks, Wakes;
    assert ForkOk(s.pc, s.st, s.parent, p);
    if m.Claim? { assert s.parent[m.q] == None; }
  }

  lemma {:induction false} FreshTarget(K: Kernel, s: State, p: nat, m: Move, q: nat)
    requires Machine(K, s) && Forks(s.pc, s.st, s.parent) && p < |s.pc| && MoveOk(s, m) && Typed(K, s, p, m)
    requires q < |s.pc| && q != p && ForkTarget(m.to).Some?
    ensures ForkTarget(m.to) != ForkTarget(s.pc[q])
  {
    hide Machine, Marks, Wakes;
    assert ForkOk(s.pc, s.st, s.parent, q);
  }

  lemma {:induction false} ExecForks(K: Kernel, s: State, c: nat, m: Move)
    requires Machine(K, s) && Forks(s.pc, s.st, s.parent) && Parents(K, s.st, s.parent)
    requires c < |s.cpus| && s.cpus[c].Runs? && s.cpus[c].p < |s.pc| && MoveOk(s, m) && Typed(K, s, s.cpus[c].p, m)
    ensures var s' := ApplyMove(s, c, m); Forks(s'.pc, s'.st, s'.parent)
  {
    hide Machine, Typed, Parents, MoveSt, MoveParent, ForkOk, On;
    OnCpu(K, s, c);
    var p := s.cpus[c].p;
    var s' := ApplyMove(s, c, m);
    ForkOkOwn(K, s, p, m);
    forall q | 0 <= q < |s'.pc| && q != p
      ensures ForkOk(s'.pc, s'.st, s'.parent, q) && ForkTarget(s'.pc[q]) == ForkTarget(s.pc[q])
      ensures ForkTarget(s'.pc[p]).Some? ==> ForkTarget(s'.pc[p]) != ForkTarget(s.pc[q])
    {
      ForkOkOther(K, s, p, m, q);
      if ForkTarget(m.to).Some? { FreshTarget(K, s, p, m, q); }
    }
  }

  /** The two conditions of Parents, for process i after a move of p. */
  lemma {:induction false} ParentAlive(K: Kernel, s: State, p: nat, m: Move, i: nat)
    requires Machine(K, s) && Forks(s.pc, s.st, s.parent) && Parents(K, s.st, s.parent) && Family(s.pc, s.parent)
    requires p < |s.pc| && On(s.pc[p]) && MoveOk(s, m) && Typed(K, s, p, m) && i < |s.pc|
    ensures var st, parent := MoveSt(s.st, p, m), MoveParent(s.parent, m);
            && (parent[i].Some? ==> parent[i].value < |st| && Alive(st[parent[i].value]) && st[i] != UNUSED)
            && (i != K.init && (Alive(st[i]) || st[i] == ZOMBIE) ==> parent[i].Some?)
  {
    hide Machine, Marks, Wakes, Forks, ForkStep, ThreadOk;
    At(K, s, p);
    assert ForkOk(s.pc, s.st, s.parent, p) by { ForkOf(s, p); }
    if m.Claim? || m.FreeProc? || (m.SetState? && m.to != Yield(YSched)) { TargetOff(K, s, p, m); }
    if m.Die? { assert Childless(s.parent, p, |s.pc|); }
    InitAlive(K, s);
  }

  lemma {:induction false} InitAlive(K: Kernel, s: State)
    requires Machine(K, s)
    ensures Alive(s.st[K.init])
  {
  }

  lemma {:induction false} ForkOf(s: State, p: nat)
    requires Forks(s.pc, s.st, s.parent) && p < |s.pc|
    ensures ForkOk(s.pc, s.st, s.parent, p)
  {
  }

  lemma {:induction false} ExecParents(K: Kernel, s: State, c: nat, m: Move)
    requires Machine(K, s) && Forks(s.pc, s.st, s.parent) && Parents(K, s.st, s.parent) && Family(s.pc, s.parent)
    requires c < |s.cpus| && s.cpus[c].Runs? && s.cpus[c].p < |s.pc| && MoveOk(s, m) && Typed(K, s, s.cpus[c].p, m)
    ensures var s' := ApplyMove(s, c, m); Parents(K, s'.st, s'.parent)
  {
    hide Machine, Typed, Forks, Family, Alive, On;
    OnCpu(K, s, c);
    var s' := ApplyMove(s, c, m);
    forall i | 0 <= i < |s'.st|
      ensures s'.parent[i].Some? ==>
                s'.parent[i].value < |s'.st| && Alive(s'.st[s'.parent[i].value]) && s'.st[i] != UNUSED
      ensures i != K.init && (Alive(s'.st[i]) || s'.st[i] == ZOMBIE) ==> s'.parent[i].Some?
    {
      ParentAlive(K, s, s.cpus[c].p, m, i);
    }
  }

  lemma {:induction false} ExecChildless(K: Kernel, s: State, p: nat, m: Move, q: nat)
    requires Machine(K, s) && Forks(s.pc, s.st, s.parent) && Family(s.pc, s.parent)
    requires p < |s.pc| && MoveOk(s, m) && Typed(K, s, p, m) && q < |s.pc|
    ensures Childless(MoveParent(s.parent, m), q, Cleared(MovePc(s.pc, p, m)[q], |s.pc|))
  {
    hide Machine, Wakes, Forks, ForkStep, ThreadOk, StOk;
    At(K, s, q);
    assert Childless(s.parent, q, Cleared(s.pc[q], |s.pc|));
    if m.Claim? || m.FreeProc? { TargetOff(K, s, p, m); }
    hide Family;
  }

  lemma {:induction false} ExecWaiting(K: Kernel, s: State, p: nat, m: Move, q: nat)
    requires Machine(K, s) && Forks(s.pc, s.st, s.parent) && Family(s.pc, s.parent)
    requires p < |s.pc| && MoveOk(s, m) && Typed(K, s, p, m) && q < |s.pc|
    requires var pc := MovePc(s.pc, p, m)[q]; pc.Wait? && pc.waitAt.ATest?
    ensures var i := MovePc(s.pc, p, m)[q].i; i < |s.pc| && MoveParent(s.parent, m)[i] == Some(q)
  {
    hide Machine, Forks, Wakes, ForkStep;
    if m.Claim? || m.FreeProc? { TargetOff(K, s, p, m); }
    if q != p {
      if HasWait(K, s.pc[p]) { WaitMutex(K, s, p, q); }
      ForkOf(s, p);
    }
  }

  lemma {:induction false} ExecFamily(K: Kernel, s: State, c: nat, m: Move)
    requires Machine(K, s) && Forks(s.pc, s.st, s.parent) && Family(s.pc, s.parent)
    requires c < |s.cpus| && s.cpus[c].Runs? && s.cpus[c].p < |s.pc| && MoveOk(s, m) && Typed(K, s, s.cpus[c].p, m)
    ensures var s' := ApplyMove(s, c, m); Family(s'.pc, s'.parent)
  {
    hide Machine, Forks, Typed, Childless, Cleared;
    OnCpu(K, s, c);
    var p := s.cpus[c].p;
    var s' := ApplyMove(s, c, m);
    forall q | 0 <= q < |s'.pc|
      ensures Childless(s'.parent, q, Cleared(s'.pc[q], |s'.pc|))
    {
      ExecChildless(K, s, p, m, q);
    }
    forall q | 0 <= q < |s'.pc| && s'.pc[q].Wait? && s'.pc[q].waitAt.ATest?
      ensures s'.pc[q].i < |s'.pc| && s'.parent[s'.pc[q].i] == Some(q)
    {
      ExecWaiting(K, s, p, m, q);
    }
  }

  // ---------------------------------------------------------------- no wakeup is lost

  /** Bound to be found asleep on ch, or asleep on it already. */
  predicate Committed(pc: Pc, st: PState, ch: nat) {
    pc.Sleep? && pc.ch == ch && (pc.sleepAt.SMark? || ((pc.sleepAt.SSched? || pc.sleepAt.SOff?) && st == SLEEPING))
  }

  ghost predicate WakeOk(K: Kernel, s: State, w: nat)
    requires w < |s.pc| == |s.st|
  {
    s.pc[w].Wake? && HoldsIn(s.locks, T(w), Cond(K.guard(s.pc[w].ch))) ==>
      forall q :: 0 <= q < |s.pc| && q < Limit(s.pc[w]) && q != w ==> !Committed(s.pc[q], s.st[q], s.pc[w].ch)
  }

  /** A wakeup whose caller holds the channel's lock has left nobody behind among those it has passed. */
  ghost predicate Waking(K: Kernel, s: State) {
    |s.pc| == |s.st| && forall w :: 0 <= w < |s.pc| ==> WakeOk(K, s, w)
  }

  /** q has taken lock l after position k of the trace. */
  ghost predicate TakenSince(trace: seq<Event>, k: nat, q: nat, l: Lock) {
    exists j :: k < j < |trace| && trace[j] == Acquired(q, l)
  }

  ghost predicate SinceWoken(K: Kernel, s: State, k: nat, q: nat)
    requires k < |s.trace| && s.trace[k].Woke? && q < |s.pc| == |s.st|
  {
    var ch := s.trace[k].ch;
    q != s.trace[k].p && (HoldsIn(s.locks, T(q), Cond(K.guard(ch))) || Committed(s.pc[q], s.st[q], ch)) ==>
      TakenSince(s.trace, k, q, Cond(K.guard(ch)))
  }

  ghost predicate Traced(K: Kernel, s: State) {
    |s.pc| == |s.st| && forall k, q :: 0 <= k < |s.trace| && s.trace[k].Woke? && 0 <= q < |s.pc| ==>
          SinceWoken(K, s, k, q)
  }

  /** A process becomes committed only by giving up the channel's lock. */
  lemma {:induction false} CommittedBefore(K: Kernel, s: State, p: nat, m: Move, q: nat, ch: nat)
    requires Machine(K, s) && Forks(s.pc, s.st, s.parent) && p < |s.pc| && MoveOk(s, m) && Typed(K, s, p, m)
             && q < |s.pc|
    requires Committed(MovePc(s.pc, p, m)[q], MoveSt(s.st, p, m)[q], ch)
    ensures Committed(s.pc[q], s.st[q], ch) || (q == p && HoldsIn(s.locks, T(p), Cond(K.guard(ch))))
  {
    hide Machine, Forks, Marks, ForkStep, PcOk;
    At(K, s, q);
    At(K, s, p);
    if m.Claim? || m.FreeProc? || (m.SetState? && m.to != Yield(YSched)) { TargetOff(K, s, p, m); }
  }

  /** While one process holds the channel's lock no other becomes committed on it. */
  lemma {:induction false} NoNewSleeper(K: Kernel, s: State, p: nat, m: Move, q: nat, w: nat, ch: nat)
    requires Machine(K, s) && Forks(s.pc, s.st, s.parent) && p < |s.pc| && MoveOk(s, m) && Typed(K, s, p, m)
             && q < |s.pc|
    requires HoldsIn(s.locks, T(w), Cond(K.guard(ch))) && q != w && !Committed(s.pc[q], s.st[q], ch)
    ensures !Committed(MovePc(s.pc, p, m)[q], MoveSt(s.st, p, m)[q], ch)
  {
    hide Machine, Forks, Typed, Committed;
    At(K, s, p);
    if Committed(MovePc(s.pc, p, m)[q], MoveSt(s.st, p, m)[q], ch) { CommittedBefore(K, s, p, m, q, ch); }
  }

  /** The process that wakeup tests is not committed once the test is over. */
  lemma {:induction false} TestedAwake(K: Kernel, s: State, p: nat, m: Move)
    requires Machine(K, s) && Forks(s.pc, s.st, s.parent) && p < |s.pc| && MoveOk(s, m) && Typed(K, s, p, m)
    requires s.pc[p].Wake? && s.pc[p].wakeAt.WTest? && m.to.Wake? && m.to.ch == s.pc[p].ch
             && Limit(m.to) == s.pc[p].i + 1
    requires s.pc[p].i < |s.pc|
    ensures var i := s.pc[p].i; !Committed(MovePc(s.pc, p, m)[i], MoveSt(s.st, p, m)[i], s.pc[p].ch)
  {
    hide Machine, Forks, Marks, ForkStep;
    var i := s.pc[p].i;
    At(K, s, p);
    At(K, s, i);
    Mutex(K, s, p, i, i);
  }

  lemma {:induction false} ExecWakeOk(K: Kernel, s: State, c: nat, m: Move, w: nat)
    requires Machine(K, s) && Forks(s.pc, s.st, s.parent) && Waking(K, s) && c < |s.cpus| && s.cpus[c].Runs?
             && s.cpus[c].p < |s.pc|
    requires MoveOk(s, m) && Typed(K, s, s.cpus[c].p, m) && Disciplined(K, s, s.cpus[c].p, c, m) && w < |s.pc|
    ensures WakeOk(K, ApplyMove(s, c, m), w)
  {
    hide Machine, Forks, Disciplined, Marks, ForkStep, Kinds, Committed;
    var p := s.cpus[c].p;
    At(K, s, p);
    var s' := ApplyMove(s, c, m);
    assert WakeOk(K, s, w);
    if s'.pc[w].Wake? {
      var ch := s'.pc[w].ch;
      WakerKeepsLock(K, s, c, m, w);
      if HoldsIn(s'.locks, T(w), Cond(K.guard(ch))) {
        forall q | 0 <= q < |s.pc| && q < Limit(s'.pc[w]) && q != w
          ensures !Committed(s'.pc[q], s'.st[q], ch)
        {
          if q < Limit(s.pc[w]) && s.pc[w].Wake? && s.pc[w].ch == ch {
            NoNewSleeper(K, s, p, m, q, w, ch);
          } else {
            TestedAwake(K, s, p, m);
          }
        }
      }
    }
  }

  lemma {:induction false} WakerKeepsLock(K: Kernel, s: State, c: nat, m: Move, w: nat)
    requires Machine(K, s) && Forks(s.pc, s.st, s.parent) && c < |s.cpus| && s.cpus[c].Runs? && s.cpus[c].p < |s.pc|
    requires MoveOk(s, m) && Typed(K, s, s.cpus[c].p, m) && Disciplined(K, s, s.cpus[c].p, c, m) && w < |s.pc|
    requires MovePc(s.pc, s.cpus[c].p, m)[w].Wake?
    ensures forall k: nat :: HoldsIn(MoveLocks(s.locks, s.cpus[c].p, c, m), T(w), Cond(k)) ==>
              HoldsIn(s.locks, T(w), Cond(k))
    ensures w != s.cpus[c].p ==> MovePc(s.pc, s.cpus[c].p, m)[w] == s.pc[w]
  {
    var p := s.cpus[c].p;
    if m.Claim? || m.FreeProc? { TargetOff(K, s, p, m); }
    hide Machine, Forks, Marks, ForkStep, Kinds;
  }

  lemma {:induction false} ExecWaking(K: Kernel, s: State, c: nat, m: Move)
    requires Machine(K, s) && Forks(s.pc, s.st, s.parent) && Waking(K, s) && c < |s.cpus| && s.cpus[c].Runs?
             && s.cpus[c].p < |s.pc|
    requires MoveOk(s, m) && Typed(K, s, s.cpus[c].p, m) && Disciplined(K, s, s.cpus[c].p, c, m)
    ensures Waking(K, ApplyMove(s, c, m))
  {
    hide Machine, Forks, Disciplined, Typed, WakeOk;
    OnCpu(K, s, c);
    forall w | 0 <= w < |s.pc|
      ensures WakeOk(K, ApplyMove(s, c, m), w)
    {
      ExecWakeOk(K, s, c, m, w);
    }
  }

  /** A thread comes by a lock only by acquiring it, which is recorded. */
  lemma {:induction false} HeldBefore(K: Kernel, s: State, c: nat, m: Move, q: nat, k: nat)
    requires Machine(K, s) && c < |s.cpus| && s.cpus[c].Runs? && s.cpus[c].p < |s.pc| && MoveOk(s, m)
    requires Disciplined(K, s, s.cpus[c].p, c, m) && q < |s.pc|
    requires HoldsIn(MoveLocks(s.locks, s.cpus[c].p, c, m), T(q), Cond(k))
    ensures HoldsIn(s.locks, T(q), Cond(k)) || (q == s.cpus[c].p && m.Acquire? && m.l == Cond(k))
  {
    hide Machine, Disciplined;
  }

  lemma {:induction false} ExecSinceOld(K: Kernel, s: State, c: nat, m: Move, k: nat, q: nat)
    requires Machine(K, s) && Forks(s.pc, s.st, s.parent) && c < |s.cpus| && s.cpus[c].Runs? && s.cpus[c].p < |s.pc|
    requires MoveOk(s, m) && Typed(K, s, s.cpus[c].p, m) && Disciplined(K, s, s.cpus[c].p, c, m)
    requires k < |s.trace| && s.trace[k].Woke? && q < |s.pc| && SinceWoken(K, s, k, q)
    ensures var s' := ApplyMove(s, c, m); k < |s'.trace| && s'.trace[k] == s.trace[k] && SinceWoken(K, s', k, q)
  {
    hide Machine, Forks, Disciplined, Typed, Committed, MoveSt, MovePc;
    var p := s.cpus[c].p;
    At(K, s, p);
    var s' := ApplyMove(s, c, m);
    var ch := s.trace[k].ch;
    var l := Cond(K.guard(ch));
    assert s.trace <= s'.trace;
    if q != s.trace[k].p && (HoldsIn(s'.locks, T(q), l) || Committed(s'.pc[q], s'.st[q], ch)) {
      if HoldsIn(s'.locks, T(q), l) { HeldBefore(K, s, c, m, q, K.guard(ch)); }
          else { CommittedBefore(K, s, p, m, q, ch); }
      if HoldsIn(s.locks, T(q), l) || Committed(s.pc[q], s.st[q], ch) {
        var j :| k < j < |s.trace| && s.trace[j] == Acquired(q, l);
        assert s'.trace[j] == Acquired(q, l);
      } else {
        assert s'.trace[|s.trace|] == Acquired(q, l);
      }
    }
  }

  /** At the moment wakeup returns nobody else is asleep on the channel or holds its lock. */
  lemma {:induction false} ExecSinceNew(K: Kernel, s: State, c: nat, m: Move, q: nat)
    requires Machine(K, s) && Forks(s.pc, s.st, s.parent) && Waking(K, s)
    requires c < |s.cpus| && s.cpus[c].Runs? && s.cpus[c].p < |s.pc| && q < |s.pc|
    requires MoveOk(s, m) && Typed(K, s, s.cpus[c].p, m) && m.Returned? && m.held
    ensures var s' := ApplyMove(s, c, m); |s'.trace| == |s.trace| + 1 && s'.trace[|s.trace|] == Woke(s.cpus[c].p, m.ch)
                                          && SinceWoken(K, s', |s.trace|, q)
  {
    hide Machine, Forks, Marks, ForkStep, Kinds;
    var p := s.cpus[c].p;
    At(K, s, p);
    assert WakeOk(K, s, p);
    assert q != p ==> !Committed(s.pc[q], s.st[q], m.ch);
  }

  lemma {:induction false} ExecTraced(K: Kernel, s: State, c: nat, m: Move)
    requires Machine(K, s) && Forks(s.pc, s.st, s.parent) && Waking(K, s) && Traced(K, s)
    requires c < |s.cpus| && s.cpus[c].Runs? && s.cpus[c].p < |s.pc|
    requires MoveOk(s, m) && Typed(K, s, s.cpus[c].p, m) && Disciplined(K, s, s.cpus[c].p, c, m)
    ensures Traced(K, ApplyMove(s, c, m))
  {
    hide Machine, Forks, Disciplined, Typed, Waking, SinceWoken;
    OnCpu(K, s, c);
    var s' := ApplyMove(s, c, m);
    forall k, q | 0 <= k < |s'.trace| && s'.trace[k].Woke? && 0 <= q < |s'.pc|
      ensures SinceWoken(K, s', k, q)
    {
      if k < |s.trace| {
        ExecSinceOld(K, s, c, m, k, q);
      } else {
        ExecSinceNew(K, s, c, m, q);
      }
    }
  }

  // ---------------------------------------------------------------- every exit is reaped once

  function Exits(trace: seq<Event>, i: nat): nat {
    if trace == [] then 0
    else Exits(trace[..|trace| - 1], i) + if trace[|trace| - 1] == Exited(i) then 1 else 0
  }

  function Reaps(trace: seq<Event>, i: nat): nat {
    if trace == [] then 0
    else Reaps(trace[..|trace| - 1], i) + if trace[|trace| - 1].Reaped? && trace[|trace| - 1].p == i then 1 else 0
  }

  /** Process i has exited as often as it was reaped, once more while it is a zombie. */
  ghost predicate Balanced(st: seq<PState>, trace: seq<Event>) {
    forall i :: 0 <= i < |st| ==> Exits(trace, i) == Reaps(trace, i) + if st[i] == ZOMBIE then 1 else 0
  }

  lemma {:induction false} Counted(trace: seq<Event>, e: Event, i: nat)
    ensures Exits(trace + [e], i) == Exits(trace, i) + if e == Exited(i) then 1 else 0
    ensures Reaps(trace + [e], i) == Reaps(trace, i) + if e.Reaped? && e.p == i then 1 else 0
  {
    assert (trace + [e])[..|trace|] == trace;
  }

  lemma {:induction false} ExecBalanced(K: Kernel, s: State, c: nat, m: Move)
    requires Machine(K, s) && Forks(s.pc, s.st, s.parent) && Balanced(s.st, s.trace)
    requires c < |s.cpus| && s.cpus[c].Runs? && s.cpus[c].p < |s.pc| && MoveOk(s, m) && Typed(K, s, s.cpus[c].p, m)
    ensures var s' := ApplyMove(s, c, m); Balanced(s'.st, s'.trace)
  {
    hide Machine, Marks, Wakes, ForkStep, Forks, Exits, Reaps, PcOk, ThreadOk;
    var p := s.cpus[c].p;
    At(K, s, p);
    ForkOf(s, p);
    if m.FreeProc? || m.Claim? { TargetOff(K, s, p, m); }
    var s' := ApplyMove(s, c, m);
    forall i | 0 <= i < |s.st|
      ensures Exits(s'.trace, i) == Reaps(s'.trace, i) + if s'.st[i] == ZOMBIE then 1 else 0
    {
      if |s'.trace| > |s.trace| { Counted(s.trace, s'.trace[|s.trace|], i); }
    }
  }

  // ---------------------------------------------------------------- wait does not sleep through an exit

  /** How many processes wait() has found not to be zombie children of its caller, while that finding is relied on. */
  function Scanned(pc: Pc, st: PState, n: nat): nat {
    match pc
    case Wait(at, i, _) => if at.AScan? || at.ATest? then i else if at.ASkip? then i + 1 else 0
    case Sleep(at, c, r) =>
      if r.ToWait? && (at.SRelease? || Committed(pc, st, c)) then n else 0
    case _ => 0
  }

  /** Somebody is handing children to w and has yet to wake it. */
  ghost predicate CalledBy(pc: seq<Pc>, w: nat, e: nat) {
    e < |pc| && e != w && pc[e].Wake? && pc[e].ch == w && pc[e].ret.ToReparent? && Limit(pc[e]) <= w
  }

  ghost predicate HeardOk(s: State, w: nat, i: nat)
    requires w < |s.pc| == |s.st| == |s.parent| && i < |s.pc|
  {
    i < Scanned(s.pc[w], s.st[w], |s.pc|) && s.parent[i] == Some(w) && s.st[i] == ZOMBIE ==>
          exists e :: CalledBy(s.pc, w, e)
  }

  /** The parent of a process about to become a zombie has been woken. */
  ghost predicate DyingOk(s: State, e: nat)
    requires e < |s.pc| == |s.st| == |s.parent|
  {
    && (s.pc[e].Wake? && s.pc[e].ret.ToExitLock? ==> s.parent[e] == Some(s.pc[e].ch))
    && (s.pc[e].Exit? && (s.pc[e].exitAt.ELock? || s.pc[e].exitAt.EMark?) ==>
          && s.parent[e].Some? && s.parent[e].value < |s.pc|
          && !Committed(s.pc[s.parent[e].value], s.st[s.parent[e].value], s.parent[e].value))
  }

  ghost predicate Heard(s: State) {
    && |s.pc| == |s.st| == |s.parent|
    && (forall w, i :: 0 <= w < |s.pc| && 0 <= i < |s.pc| ==> HeardOk(s, w, i))
    && (forall e :: 0 <= e < |s.pc| ==> DyingOk(s, e))
  }

  /** How statements advance wait's scan and exit's wakeup of the parent. */
  ghost predicate Scans(s: State, p: nat, m: Move)
    requires |s.st| == |s.parent| == |s.pc| && p < |s.pc| && MoveOk(s, m)
  {
    var pc, n := s.pc[p], |s.pc|;
    var a, b := Scanned(pc, s.st[p], n), Scanned(m.to, MoveSt(s.st, p, m)[p], n);
    && (b > a ==> m.Goto? && a < n && b == a + 1 && !(s.parent[a] == Some(p) && s.st[a] == ZOMBIE))
    && (m.to.Wake? && m.to.ret.ToExitLock? ==>
          && !m.SetParent? && !m.FreeProc?
          && ((pc.Wake? && pc.ret.ToExitLock? && pc.ch == m.to.ch) || s.parent[p] == Some(m.to.ch)))
    && (m.to.Exit? && m.to.exitAt.ELock? ==> m.Returned? && pc.Wake? && pc.ret.ToExitLock?)
    && (m.to.Exit? && m.to.exitAt.EMark? ==> m.Acquire? && pc.Exit? && pc.exitAt.ELock?)
    && (pc.Wake? ==> m.Returned? || (m.to.Wake? && m.to.ret == pc.ret && m.to.ch == pc.ch))
  }

  lemma {:induction false} WaitScans(K: Kernel, s: State, p: nat, ch: Choice)
    requires Shape(K, s) && p < |s.pc| && s.pc[p].Wait? && PcOk(K, |s.pc|, p, s.pc[p])
    requires Program(K, s, p, ch).Some? && MoveOk(s, Program(K, s, p, ch).value)
    ensures Scans(s, p, Program(K, s, p, ch).value)
  {
  }

  lemma {:induction false} ExitScans(K: Kernel, s: State, p: nat, ch: Choice)
    requires Shape(K, s) && p < |s.pc| && (s.pc[p].Exit? || s.pc[p].Wake?) && PcOk(K, |s.pc|, p, s.pc[p])
    requires Program(K, s, p, ch).Some? && MoveOk(s, Program(K, s, p, ch).value)
    ensures Scans(s, p, Program(K, s, p, ch).value)
  {
  }

  lemma {:induction false} OtherScans(K: Kernel, s: State, p: nat, ch: Choice)
    requires Shape(K, s) && p < |s.pc| && !s.pc[p].Exit? && !s.pc[p].Wake? && !s.pc[p].Wait?
             && PcOk(K, |s.pc|, p, s.pc[p])
    requires StOk(s.pc[p], s.st[p], s.chan[p])
    requires Program(K, s, p, ch).Some? && MoveOk(s, Program(K, s, p, ch).value)
    ensures Scans(s, p, Program(K, s, p, ch).value)
  {
    hide HoldsOnly;
  }

  lemma {:induction false} MoveScans(K: Kernel, s: State, p: nat, ch: Choice)
    requires Shape(K, s) && p < |s.pc| && StOk(s.pc[p], s.st[p], s.chan[p]) && PcOk(K, |s.pc|, p, s.pc[p])
    requires Program(K, s, p, ch).Some? && MoveOk(s, Program(K, s, p, ch).value)
    ensures Scans(s, p, Program(K, s, p, ch).value)
  {
    hide Scans, Program, StOk, PcOk;
    if s.pc[p].Wait? {
      WaitScans(K, s, p, ch);
    } else if s.pc[p].Exit? || s.pc[p].Wake? {
      ExitScans(K, s, p, ch);
    } else {
      OtherScans(K, s, p, ch);
    }
  }

  ghost predicate Moving(K: Kernel, s: State, c: nat, m: Move) {
    && c < |s.cpus| && s.cpus[c].Runs? && s.cpus[c].p < |s.pc| && Shape(K, s) && MoveOk(s, m)
    && Typed(K, s, s.cpus[c].p, m) && Scans(s, s.cpus[c].p, m)
  }

  /** Outside its own moves a process on a CPU keeps its program counter. */
  lemma {:induction false} OthersPc(K: Kernel, s: State, c: nat, m: Move, q: nat)
    requires Machine(K, s) && Forks(s.pc, s.st, s.parent) && Moving(K, s, c, m) && q < |s.pc| && q != s.cpus[c].p
    ensures var s' := ApplyMove(s, c, m); On(s.pc[q]) ==> s'.pc[q] == s.pc[q]
    ensures var s' := ApplyMove(s, c, m); Scanned(s'.pc[q], s'.st[q], |s.pc|) <= Scanned(s.pc[q], s.st[q], |s.pc|)
    ensures var s' := ApplyMove(s, c, m); On(s.pc[q]) ==> s'.pc[q] == s.pc[q]
    ensures var s' := ApplyMove(s, c, m); s'.pc[q] == s.pc[q] || Scanned(s'.pc[q], s'.st[q], |s.pc|) == 0
  {
    if m.Claim? || m.FreeProc? || (m.SetState? && m.to != Yield(YSched)) { TargetOff(K, s, s.cpus[c].p, m); }
    hide Machine, Forks, Marks, Wakes, ForkStep, Scans;
  }

  /** A parent whose scan counts is committed to its sleep, or holds wait_lock. */
  lemma {:induction false} ScannedHow(K: Kernel, pc: Pc, st: PState, n: nat, w: nat)
    requires Scanned(pc, st, n) > 0 && PcOk(K, n, w, pc) && w < n && K.guard(w) == 0
    ensures Committed(pc, st, w) || HasWait(K, pc)
  {
  }

  lemma {:induction false} ExecDying(K: Kernel, s: State, c: nat, m: Move, e: nat)
    requires Machine(K, s) && Forks(s.pc, s.st, s.parent) && Parents(K, s.st, s.parent) && Family(s.pc, s.parent)
    requires Waking(K, s) && Heard(s) && Moving(K, s, c, m) && e < |s.pc|
    ensures DyingOk(ApplyMove(s, c, m), e)
  {
    var p := s.cpus[c].p;
    var s' := ApplyMove(s, c, m);
    At(K, s, e);
    assert DyingOk(s, e);
    if e == p {
      OwnDying(K, s, c, m);
    } else {
      OthersPc(K, s, c, m, e);
      OtherDying(K, s, c, m, e);
    }
  }

  /** Once exit's wakeup of the parent is over, and until the zombie is marked, the parent is awake. */
  lemma {:induction false} ParentAwake(K: Kernel, s: State, p: nat)
    requires Machine(K, s) && Parents(K, s.st, s.parent) && Family(s.pc, s.parent) && Waking(K, s) && Heard(s)
             && p < |s.pc|
    requires || (s.pc[p].Wake? && s.pc[p].wakeAt.WLoop? && s.pc[p].i >= |s.pc| && s.pc[p].ret.ToExitLock?)
             || (s.pc[p].Exit? && s.pc[p].exitAt.ELock?)
    ensures s.parent[p].Some? && s.parent[p].value < |s.pc| && s.parent[p].value != p
    ensures var w := s.parent[p].value; !Committed(s.pc[w], s.st[w], w)
  {
    hide Committed;
    assert DyingOk(s, p) && WakeOk(K, s, p);
    At(K, s, p);
    assert Childless(s.parent, p, |s.pc|);
    hide Machine, Waking, Heard, Family;
    if s.pc[p].Wake? { assert HoldsIn(s.locks, T(p), Cond(0)); }
  }

  lemma {:induction false} OwnDying(K: Kernel, s: State, c: nat, m: Move)
    requires Machine(K, s) && Forks(s.pc, s.st, s.parent) && Parents(K, s.st, s.parent) && Family(s.pc, s.parent)
    requires Waking(K, s) && Heard(s) && Moving(K, s, c, m)
    ensures DyingOk(ApplyMove(s, c, m), s.cpus[c].p)
  {
    hide Machine, Forks, Marks, ForkStep, Kinds, Committed, Parents, Family, Waking;
    var p := s.cpus[c].p;
    assert DyingOk(s, p);
    hide Heard;
    if m.to.Exit? && (m.to.exitAt.ELock? || m.to.exitAt.EMark?) {
      ParentAwake(K, s, p);
      OthersPc(K, s, c, m, s.parent[p].value);
    }
  }

  /** While a process holds wait_lock, nobody changes whose child it is. */
  lemma {:induction false} ParentFixed(K: Kernel, s: State, c: nat, m: Move, e: nat)
    requires Machine(K, s) && Forks(s.pc, s.st, s.parent) && Moving(K, s, c, m) && e < |s.pc| && e != s.cpus[c].p
    requires HasWait(K, s.pc[e]) && On(s.pc[e]) && s.st[e] == RUNNING
    ensures ApplyMove(s, c, m).parent[e] == s.parent[e]
  {
    hide Machine, Forks, Marks, Wakes, ForkStep, Scans;
    var p := s.cpus[c].p;
    ForkOf(s, p);
    if HasWait(K, s.pc[p]) { WaitMutex(K, s, p, e); }
    if m.FreeProc? { TargetOff(K, s, p, m); }
  }

  lemma {:induction false} OtherDying(K: Kernel, s: State, c: nat, m: Move, e: nat)
    requires Machine(K, s) && Forks(s.pc, s.st, s.parent)
    requires Heard(s) && Moving(K, s, c, m) && e < |s.pc| && e != s.cpus[c].p
    ensures DyingOk(ApplyMove(s, c, m), e)
  {
    hide Machine, Forks, Typed, Scans;
    var p := s.cpus[c].p;
    At(K, s, e);
    assert DyingOk(s, e);
    OthersPc(K, s, c, m, e);
    var s' := ApplyMove(s, c, m);
    var pc := s'.pc[e];
    if (pc.Wake? && pc.ret.ToExitLock?) || (pc.Exit? && (pc.exitAt.ELock? || pc.exitAt.EMark?)) {
      NewlyDead(K, s, c, m, e);
      assert pc == s.pc[e];
      ParentFixed(K, s, c, m, e);
      if pc.Exit? {
        var w := s.parent[e].value;
        hide Heard;
        if w != e { NoNewSleeper(K, s, p, m, w, e, w); }
      }
    }
  }

  lemma {:induction false} NewlyDead(K: Kernel, s: State, c: nat, m: Move, e: nat)
    requires Machine(K, s) && Forks(s.pc, s.st, s.parent) && Moving(K, s, c, m) && e < |s.pc| && e != s.cpus[c].p
    ensures var pc := ApplyMove(s, c, m).pc[e]; pc == s.pc[e] || pc == Yield(YOff) || pc == Exit(EDead, 0)
  {
    hide Machine, Forks, Typed, Scans;
  }

  /** The caller of a process goes on calling it until it has woken it. */
  lemma {:induction false} StillCalled(K: Kernel, s: State, c: nat, m: Move, w: nat, e: nat)
    requires Machine(K, s) && Forks(s.pc, s.st, s.parent) && Moving(K, s, c, m) && w < |s.pc| && CalledBy(s.pc, w, e)
             && e == s.cpus[c].p
    requires var s' := ApplyMove(s, c, m); Committed(s'.pc[w], s'.st[w], w)
    ensures CalledBy(ApplyMove(s, c, m).pc, w, e)
  {
    hide Machine, Forks, Committed, Kinds, Marks, ForkStep;
    var p := s.cpus[c].p;
    At(K, s, e);
    if s.pc[p].wakeAt.WTest? && m.to.Wake? && Limit(m.to) == s.pc[p].i + 1 { TestedAwake(K, s, p, m); }
  }

  /** A scan that counts does not change hands with a call to the same process. */
  lemma {:induction false} CallExcludesScan(K: Kernel, s: State, w: nat, e: nat)
    requires Machine(K, s) && w < |s.pc| && CalledBy(s.pc, w, e)
    ensures !HasWait(K, s.pc[w])
  {
    hide Machine;
    if HasWait(K, s.pc[w]) { WaitMutex(K, s, w, e); }
  }

  /** Process i is a zombie child of w that w's scan counts as none: case by case, what the move did. */
  lemma {:induction false} HeardWas(K: Kernel, s: State, c: nat, m: Move, w: nat, i: nat)
    requires Machine(K, s) && Forks(s.pc, s.st, s.parent) && Heard(s) && Moving(K, s, c, m) && w < |s.pc| && i < |s.pc|
    requires var s' := ApplyMove(s, c, m);
             i < Scanned(s'.pc[w], s'.st[w], |s.pc|) && s'.parent[i] == Some(w) && s'.st[i] == ZOMBIE
    ensures (i < Scanned(s.pc[w], s.st[w], |s.pc|) && s.parent[i] == Some(w) && s.st[i] == ZOMBIE)
            || (m.SetParent? && m.q == i && m.par == w && w != s.cpus[c].p
                && m.to == Wake(WLoop, w, 0, ToReparent(i + 1)))
  {
    hide Machine, Forks, Marks, Wakes, ForkStep, Committed;
    var p := s.cpus[c].p;
    At(K, s, p);
    ForkOf(s, p);
    if w != p { OthersPc(K, s, c, m, w); }
    if m.Die? && i == p { DeadUnheard(K, s, c, m, w); }
  }

  lemma {:induction false} DeadUnheard(K: Kernel, s: State, c: nat, m: Move, w: nat)
    requires Machine(K, s) && Forks(s.pc, s.st, s.parent) && Heard(s) && Moving(K, s, c, m) && w < |s.pc| && m.Die?
    requires s.parent[s.cpus[c].p] == Some(w)
    ensures var s' := ApplyMove(s, c, m); Scanned(s'.pc[w], s'.st[w], |s.pc|) == 0
  {
    hide Machine, Forks, Marks, Wakes, ForkStep, Scans, Committed;
    var p := s.cpus[c].p;
    At(K, s, w);
    assert DyingOk(s, p);
    if w != p {
      if HasWait(K, s.pc[w]) { WaitMutex(K, s, w, p); }
      if Scanned(s.pc[w], s.st[w], |s.pc|) > 0 { ScannedHow(K, s.pc[w], s.st[w], |s.pc|, w); }
    }
  }

  lemma {:induction false} ExecHeardOk(K: Kernel, s: State, c: nat, m: Move, w: nat, i: nat)
    requires Machine(K, s) && Forks(s.pc, s.st, s.parent) && Heard(s) && Moving(K, s, c, m) && w < |s.pc| && i < |s.pc|
    ensures HeardOk(ApplyMove(s, c, m), w, i)
  {
    hide Machine, Forks, Typed, Scans, Scanned, Committed;
    var p := s.cpus[c].p;
    var s' := ApplyMove(s, c, m);
    assert HeardOk(s, w, i);
    if i < Scanned(s'.pc[w], s'.st[w], |s.pc|) && s'.parent[i] == Some(w) && s'.st[i] == ZOMBIE {
      HeardWas(K, s, c, m, w, i);
      if m.SetParent? && m.to == Wake(WLoop, w, 0, ToReparent(i + 1)) && w != p {
        assert CalledBy(s'.pc, w, p);
      } else {
        var e :| CalledBy(s.pc, w, e);
        CallKept(K, s, c, m, w, e);
        assert CalledBy(s'.pc, w, e);
      }
    }
  }

  lemma {:induction false} CallKept(K: Kernel, s: State, c: nat, m: Move, w: nat, e: nat)
    requires Machine(K, s) && Forks(s.pc, s.st, s.parent) && Moving(K, s, c, m) && w < |s.pc| && CalledBy(s.pc, w, e)
    requires var s' := ApplyMove(s, c, m); Scanned(s'.pc[w], s'.st[w], |s.pc|) > 0
    ensures CalledBy(ApplyMove(s, c, m).pc, w, e)
  {
    hide Machine, Forks, Typed, Scans, Scanned, Committed;
    var p := s.cpus[c].p;
    var s' := ApplyMove(s, c, m);
    At(K, s, e);
    if e != p {
      OthersPc(K, s, c, m, e);
    } else {
      CallExcludesScan(K, s, w, e);
      At(K, s, w);
      OthersPc(K, s, c, m, w);
      NewlyDead(K, s, c, m, w);
      ScannedHow(K, s'.pc[w], s'.st[w], |s.pc|, w);
      StillCalled(K, s, c, m, w, e);
    }
  }

  lemma {:induction false} ExecHeard(K: Kernel, s: State, c: nat, m: Move)
    requires Machine(K, s) && Forks(s.pc, s.st, s.parent) && Parents(K, s.st, s.parent) && Family(s.pc, s.parent)
    requires Waking(K, s) && Heard(s) && Moving(K, s, c, m)
    ensures Heard(ApplyMove(s, c, m))
  {
    var s' := ApplyMove(s, c, m);
    hide Machine, Forks, Parents, Family, Waking, Heard, Moving, HeardOk, DyingOk;
    forall w, i | 0 <= w < |s'.pc| && 0 <= i < |s'.pc|
      ensures HeardOk(s', w, i)
    {
      ExecHeardOk(K, s, c, m, w, i);
    }
    forall e | 0 <= e < |s'.pc|
      ensures DyingOk(s', e)
    {
      ExecDying(K, s, c, m, e);
    }
  }

  // ---------------------------------------------------------------- the whole invariant

  ghost predicate Inv(K: Kernel, s: State) {
    && Machine(K, s) && Forks(s.pc, s.st, s.parent) && Parents(K, s.st, s.parent) && Family(s.pc, s.parent)
    && Waking(K, s) && Traced(K, s) && Balanced(s.st, s.trace) && Heard(s)
  }

  lemma {:induction false} ExecKeeps(K: Kernel, s: State, c: nat, ch: Choice)
    requires Inv(K, s) && Enabled(K, s, Exec(c, ch))
    ensures Inv(K, Apply(K, s, Exec(c, ch)))
  {
    hide Machine, Forks, Parents, Family, Waking, Traced, Balanced, Heard, Scans, Typed, Disciplined, Program, ThreadOk,
        PcOk, StOk, PcsOk;
    var p := s.cpus[c].p;
    AllPcs(K, s);
    var m := Program(K, s, p, ch).value;
    ExecMachine(K, s, c, ch);
    At(K, s, p);
    MoveDisciplined(K, s, p, c, ch);
    ExecForks(K, s, c, m);
    ExecParents(K, s, c, m);
    ExecFamily(K, s, c, m);
    ExecWaking(K, s, c, m);
    ExecTraced(K, s, c, m);
    ExecBalanced(K, s, c, m);
    MoveScans(K, s, p, ch);
    ExecHeard(K, s, c, m);
  }

  lemma {:induction false} AllPcs(K: Kernel, s: State)
    requires Machine(K, s)
    ensures Shape(K, s) && PcsOk(K, s.pc)
  {
  }

  /** The scheduler changes one process, from switched out to running, and no history. */
  lemma {:induction false} SchedOne(K: Kernel, s: State, c: nat, q: nat)
    requires Machine(K, s) && SchedOk(s, c) && q < |s.pc|
    ensures var s' := ApplySched(s, c);
            && s'.parent == s.parent && s'.trace == s.trace && s'.chan == s.chan && |s'.st| == |s.st|
                && |s'.pc| == |s.pc|
            && ((s'.pc[q] == s.pc[q] && s'.st[q] == s.st[q])
                || (s'.pc[q] == Resumed(s.pc[q]) && !On(s.pc[q]) && !s.pc[q].Exit? && s.st[q] == RUNNABLE
                    && s'.st[q] == RUNNING))
            && (forall k: nat :: HoldsIn(s'.locks, T(q), Cond(k)) <==> HoldsIn(s.locks, T(q), Cond(k)))
  {
    if SchedWants(s.cpus[c]).Some? { SchedHolds(K, s, c); }
    hide Owners, Placed, PcsOk, States;
  }

  /** What a step of a scheduler may do to process q: nothing, or let it run. */
  ghost predicate RunsOnly(s: State, s': State, q: nat)
    requires q < |s.pc| == |s.st| == |s'.pc| == |s'.st|
  {
    && ((s'.pc[q] == s.pc[q] && s'.st[q] == s.st[q])
        || (s'.pc[q] == Resumed(s.pc[q]) && !On(s.pc[q]) && !s.pc[q].Exit? && s.st[q] == RUNNABLE
            && s'.st[q] == RUNNING))
    && ForkTarget(s'.pc[q]) == ForkTarget(s.pc[q]) && ForkNamed(s'.pc[q]) == ForkNamed(s.pc[q])
    && Cleared(s'.pc[q], |s.pc|) == Cleared(s.pc[q], |s.pc|)
    && (s'.pc[q].Wait? ==> s'.pc[q] == s.pc[q])
  }

  lemma {:induction false} RunsForks(s: State, s': State)
    requires Forks(s.pc, s.st, s.parent) && s'.parent == s.parent && |s'.pc| == |s.pc| && |s'.st| == |s.st|
    requires forall q :: 0 <= q < |s.pc| ==> RunsOnly(s, s', q)
    ensures Forks(s'.pc, s'.st, s'.parent)
  {
    hide Resumed, On, ForkTarget, ForkNamed, Cleared;
    forall q | 0 <= q < |s.pc|
      ensures ForkOk(s'.pc, s'.st, s'.parent, q)
    {
      assert ForkOk(s.pc, s.st, s.parent, q) && RunsOnly(s, s', q);
      var i := ForkTarget(s.pc[q]);
      assert i.Some? ==> RunsOnly(s, s', i.value);
    }
    forall p, q | 0 <= p < q < |s.pc| && ForkTarget(s'.pc[p]).Some?
      ensures ForkTarget(s'.pc[p]) != ForkTarget(s'.pc[q])
    {
      assert RunsOnly(s, s', p) && RunsOnly(s, s', q);
    }
  }

  lemma {:induction false} RunsFamily(K: Kernel, s: State, s': State)
    requires Parents(K, s.st, s.parent) && Family(s.pc, s.parent) && Balanced(s.st, s.trace) && s'.trace == s.trace
    requires s'.parent == s.parent && |s'.pc| == |s.pc| && |s'.st| == |s.st|
    requires forall q :: 0 <= q < |s.pc| ==> RunsOnly(s, s', q)
    ensures Parents(K, s'.st, s'.parent) && Family(s'.pc, s'.parent) && Balanced(s'.st, s'.trace)
  {
    hide Resumed, On, ForkTarget, ForkNamed, Cleared, Childless;
    forall q | 0 <= q < |s.pc|
      ensures Alive(s'.st[q]) == Alive(s.st[q]) && (s'.st[q] == ZOMBIE <==> s.st[q] == ZOMBIE)
      ensures (s'.st[q] == UNUSED <==> s.st[q] == UNUSED) && (s'.pc[q].Wait? ==> s'.pc[q] == s.pc[q])
      ensures Childless(s'.parent, q, Cleared(s'.pc[q], |s'.pc|))
    {
      assert RunsOnly(s, s', q);
      assert Childless(s.parent, q, Cleared(s.pc[q], |s.pc|));
    }
    hide Alive;
  }

  lemma {:induction false} SchedFamily(K: Kernel, s: State, c: nat)
    requires Inv(K, s) && SchedOk(s, c)
    ensures var s' := ApplySched(s, c);
            && Forks(s'.pc, s'.st, s'.parent) && Parents(K, s'.st, s'.parent) && Family(s'.pc, s'.parent)
            && Balanced(s'.st, s'.trace)
  {
    hide Machine, Forks, Parents, Family, Balanced, Waking, Traced, Heard, ApplySched, SchedOk;
    AllPcs(K, s);
    var s' := ApplySched(s, c);
    SchedOne(K, s, c, K.init);
    forall q | 0 <= q < |s.pc|
      ensures RunsOnly(s, s', q)
    {
      SchedOne(K, s, c, q);
    }
    RunsForks(s, s');
    RunsFamily(K, s, s');
  }

  lemma {:induction false} SchedWaking(K: Kernel, s: State, c: nat)
    requires Inv(K, s) && SchedOk(s, c)
    ensures var s' := ApplySched(s, c); Waking(K, s') && Traced(K, s')
  {
    hide Machine, Forks, Parents, Family, Balanced, Heard;
    AllPcs(K, s);
    var s' := ApplySched(s, c);
    SchedOne(K, s, c, K.init);
    forall q | 0 <= q < |s.pc|
      ensures forall k: nat :: HoldsIn(s'.locks, T(q), Cond(k)) <==> HoldsIn(s.locks, T(q), Cond(k))
      ensures s'.pc[q].Wake? ==> s'.pc[q] == s.pc[q]
      ensures forall ch :: Committed(s'.pc[q], s'.st[q], ch) ==> Committed(s.pc[q], s.st[q], ch)
    {
      SchedOne(K, s, c, q);
    }
    hide ApplySched, Committed, HoldsIn, SchedOk;
    forall w | 0 <= w < |s'.pc|
      ensures WakeOk(K, s', w)
    {
      assert WakeOk(K, s, w);
    }
    forall k, q | 0 <= k < |s'.trace| && s'.trace[k].Woke? && 0 <= q < |s'.pc|
      ensures SinceWoken(K, s', k, q)
    {
      assert SinceWoken(K, s, k, q);
    }
  }

  lemma {:induction false} SchedHeard(K: Kernel, s: State, c: nat)
    requires Inv(K, s) && SchedOk(s, c)
    ensures Heard(ApplySched(s, c))
  {
    hide Machine, Forks, Parents, Family, Balanced, Waking, Traced;
    AllPcs(K, s);
    var s' := ApplySched(s, c);
    SchedOne(K, s, c, K.init);
    forall q | 0 <= q < |s.pc|
      ensures s'.pc[q].Wake? || (s'.pc[q].Exit? && !s'.pc[q].exitAt.EDead?) || s.pc[q].Wake? ==> s'.pc[q] == s.pc[q]
      ensures forall ch :: Committed(s'.pc[q], s'.st[q], ch) ==> Committed(s.pc[q], s.st[q], ch)
      ensures Scanned(s'.pc[q], s'.st[q], |s.pc|) <= Scanned(s.pc[q], s.st[q], |s.pc|)
      ensures s'.st[q] == ZOMBIE ==> s.st[q] == ZOMBIE
    {
      SchedOne(K, s, c, q);
    }
    hide ApplySched, Committed, Scanned, SchedOk;
    forall w, i | 0 <= w < |s'.pc| && 0 <= i < |s'.pc|
      ensures HeardOk(s', w, i)
    {
      assert HeardOk(s, w, i);
      if i < Scanned(s'.pc[w], s'.st[w], |s.pc|) && s'.parent[i] == Some(w) && s'.st[i] == ZOMBIE {
        var e :| CalledBy(s.pc, w, e);
        assert CalledBy(s'.pc, w, e);
      }
    }
    forall e | 0 <= e < |s'.pc|
      ensures DyingOk(s', e)
    {
      assert DyingOk(s, e);
    }
  }

  lemma {:induction false} StepKeeps(K: Kernel, s: State, step: Step)
    requires Inv(K, s) && Enabled(K, s, step)
    ensures Inv(K, Apply(K, s, step))
  {
    hide Machine, Forks, Parents, Family, Waking, Traced, Balanced, Heard;
    AllPcs(K, s);
    match step
    case Exec(c, ch) => ExecKeeps(K, s, c, ch);
    case Sched(c) =>
      SchedMachine(K, s, c);
      SchedFamily(K, s, c);
      SchedWaking(K, s, c);
      SchedHeard(K, s, c);
  }

  // ---------------------------------------------------------------- runs

  /** After procinit and userinit: only init is there, runnable, and every CPU enters scheduler(). */
  ghost predicate Init(K: Kernel, s: State) {
    && Shape(K, s) && s.locks == map[] && s.trace == []
    && (forall c :: 0 <= c < |s.cpus| ==> s.cpus[c] == Scan(0))
    && (forall p :: 0 <= p < |s.pc| ==>
          && s.parent[p] == None && s.chan[p] == None
          && s.pc[p] == (if p == K.init then Yield(YOff) else Exit(EDead, 0))
          && s.st[p] == (if p == K.init then RUNNABLE else UNUSED))
  }

  ghost predicate Reachable(K: Kernel, s0: State, s: State, n: nat)
    decreases n
  {
    if n == 0 then s == s0 && Init(K, s0)
    else exists s1, step :: Reachable(K, s0, s1, n - 1) && Shape(K, s1) && Enabled(K, s1, step) && s == Apply(K, s1,
        step)
  }

  lemma {:induction false} InitMachine(K: Kernel, s: State)
    requires Init(K, s)
    ensures Machine(K, s)
  {
    assert forall p :: 0 <= p < |s.pc| ==> ThreadOk(K, s.locks, p, s.pc[p]);
    assert forall p :: 0 <= p < |s.pc| ==> !On(s.pc[p]);
  }

  lemma {:induction false} InitInv(K: Kernel, s: State)
    requires Init(K, s)
    ensures Inv(K, s)
  {
    InitMachine(K, s);
    hide Machine;
    assert forall p :: 0 <= p < |s.pc| ==> Cleared(s.pc[p], |s.pc|) == 0 && Scanned(s.pc[p], s.st[p], |s.pc|) == 0;
  }

  lemma {:induction false} ReachableInv(K: Kernel, s0: State, s: State, n: nat)
    requires Reachable(K, s0, s, n)
    ensures Inv(K, s)
    decreases n
  {
    hide Inv, Apply, Enabled;
    if n == 0 {
      InitInv(K, s);
    } else {
      var s1, step :| Reachable(K, s0, s1, n - 1) && Shape(K, s1) && Enabled(K, s1, step) && s == Apply(K, s1, step);
      ReachableInv(K, s0, s1, n - 1);
      StepKeeps(K, s1, step);
    }
  }

  /** No lost wakeup: in every interleaving, a process that sleeps on a channel has acquired the
      channel's lock since the last wakeup of that channel by another process holding it. */
  lemma {:induction false} NoLostWakeup(K: Kernel, s0: State, s: State, n: nat, q: nat, k: nat)
    requires Reachable(K, s0, s, n) && q < |s.pc| == |s.st| == |s.chan|
    requires k < |s.trace| && s.trace[k].Woke? && s.trace[k].p != q
    requires s.st[q] == SLEEPING && s.chan[q] == Some(s.trace[k].ch)
    ensures exists j :: k < j < |s.trace| && s.trace[j] == Acquired(q, Cond(K.guard(s.trace[k].ch)))
  {
    hide Reachable;
    ReachableInv(K, s0, s, n);
    assert StOk(s.pc[q], s.st[q], s.chan[q]);
    assert SinceWoken(K, s, k, q);
    assert Committed(s.pc[q], s.st[q], s.trace[k].ch);
  }

  /** When wakeup returns to a caller that holds the channel's lock, nobody else is asleep on the channel. */
  lemma {:induction false} WakeupWakesAll(K: Kernel, s0: State, s: State, n: nat, w: nat, q: nat)
    requires Reachable(K, s0, s, n) && w < |s.pc| == |s.st| == |s.chan| && q < |s.pc| && q != w
    requires s.pc[w].Wake? && s.pc[w].i >= |s.pc| && HoldsIn(s.locks, T(w), Cond(K.guard(s.pc[w].ch)))
    ensures !(s.st[q] == SLEEPING && s.chan[q] == Some(s.pc[w].ch))
  {
    hide Reachable;
    ReachableInv(K, s0, s, n);
    hide Parents, Forks, Family, Traced, Balanced, Heard;
    assert WakeOk(K, s, w);
    At(K, s, q);
    hide Machine, Waking, PcOk, ThreadOk;
  }

  lemma {:induction false} CallerHoldsWait(K: Kernel, s: State, w: nat, e: nat)
    requires Machine(K, s) && CalledBy(s.pc, w, e)
    ensures WAIT in s.locks
  {
    At(K, s, e);
    hide Machine;
    assert HoldsIn(s.locks, T(e), Cond(0));
  }

  /** wait() never sleeps through an exit: whenever wait_lock is free, a process asleep in wait has
      no zombie child. */
  lemma {:induction false} NoZombieUnderSleepingParent(K: Kernel, s0: State, s: State, n: nat, w: nat, i: nat)
    requires Reachable(K, s0, s, n) && w < |s.pc| == |s.st| == |s.chan| == |s.parent| && i < |s.pc|
    requires WAIT !in s.locks && s.st[w] == SLEEPING && s.chan[w] == Some(w) && s.parent[i] == Some(w)
    ensures s.st[i] != ZOMBIE
  {
    hide Reachable;
    ReachableInv(K, s0, s, n);
    hide Parents, Forks, Family, Waking, Traced, Balanced;
    At(K, s, w);
    hide Machine;
    assert HeardOk(s, w, i);
    forall e
      ensures !CalledBy(s.pc, w, e)
    {
      if CalledBy(s.pc, w, e) { CallerHoldsWait(K, s, w, e); }
    }
  }

  /** What sched() tests of its caller: it holds its own p->lock, no other lock, and is not RUNNING.  The test
      of the interrupt flag is not part of the model. */
  lemma {:induction false} SchedPreconditions(K: Kernel, s0: State, s: State, n: nat, p: nat)
    requires Reachable(K, s0, s, n) && p < |s.pc| == |s.st|
    requires (s.pc[p].Sleep? && s.pc[p].sleepAt.SSched?) || s.pc[p] == Yield(YSched)
             || (s.pc[p].Exit? && s.pc[p].exitAt.ESched?)
    ensures HoldsIn(s.locks, T(p), P(p)) && (forall l :: HoldsIn(s.locks, T(p), l) ==> l == P(p)) && s.st[p] != RUNNING
  {
    hide Reachable;
    ReachableInv(K, s0, s, n);
    At(K, s, p);
    hide Machine, Forks, Parents, Family, Waking, Traced, Balanced, Heard, PcOk;
    forall l | HoldsIn(s.locks, T(p), l)
      ensures l == P(p)
    {
      assert forall q :: l == P(q) ==> HoldsIn(s.locks, T(p), P(q));
      assert forall k :: l == Cond(k) ==> HoldsIn(s.locks, T(p), Cond(k));
    }
  }

  /** A RUNNING process is on exactly one CPU. */
  lemma {:induction false} RunningOnOneCpu(K: Kernel, s0: State, s: State, n: nat, p: nat)
    requires Reachable(K, s0, s, n) && p < |s.pc| == |s.st| && s.st[p] == RUNNING
    ensures exists c :: RunsOn(s.cpus, c, p) && forall d :: RunsOn(s.cpus, d, p) ==> d == c
  {
    hide Reachable;
    ReachableInv(K, s0, s, n);
    assert StOk(s.pc[p], s.st[p], s.chan[p]);
    var c :| RunsOn(s.cpus, c, p);
  }

  /** Parents are alive at all times, so every zombie has somebody to reap it, and exit always
      finds a parent to wake. */
  lemma {:induction false} ParentsAlive(K: Kernel, s0: State, s: State, n: nat, i: nat)
    requires Reachable(K, s0, s, n) && i < |s.pc| == |s.st| == |s.parent|
    ensures s.parent[i].Some? ==> s.parent[i].value < |s.st| && s.st[s.parent[i].value] !in {UNUSED, USED, ZOMBIE}
    ensures s.st[i] == ZOMBIE ==> s.parent[i].Some?
    ensures s.pc[i] == Exit(EReparent, |s.pc|) ==> s.parent[i].Some?
  {
    hide Reachable;
    ReachableInv(K, s0, s, n);
    At(K, s, i);
    hide Machine;
  }

  /** wait frees a process only when that is its own zombie child, off every CPU, with both locks held. */
  lemma {:induction false} ReapIsSafe(K: Kernel, s0: State, s: State, n: nat, c: nat, ch: Choice)
    requires Reachable(K, s0, s, n) && Shape(K, s) && Enabled(K, s, Exec(c, ch))
    requires Program(K, s, s.cpus[c].p, ch).value.FreeProc? && Program(K, s, s.cpus[c].p, ch).value.reap
    ensures var w, q := s.cpus[c].p, Program(K, s, s.cpus[c].p, ch).value.q;
            && q < |s.pc| && s.st[q] == ZOMBIE && s.parent[q] == Some(w)
            && HoldsIn(s.locks, T(w), P(q)) && HoldsIn(s.locks, T(w), WAIT)
            && forall d :: !RunsOn(s.cpus, d, q)
  {
    hide Reachable;
    ReachableInv(K, s0, s, n);
    hide Traced, Waking, Balanced, Parents;
    var w := s.cpus[c].p;
    var m := Program(K, s, w, ch).value;
    ExecMachine(K, s, c, ch);
    TargetOff(K, s, w, m);
    At(K, s, w);
    assert HoldsIn(s.locks, T(w), Cond(0));
    assert HoldsIn(s.locks, T(w), P(m.q));
    hide Program, Forks, Typed, Owners;
  }

  /** Every exit is reaped exactly once before the slot exits again. */
  lemma {:induction false} ExitsAreReaped(K: Kernel, s0: State, s: State, n: nat, i: nat)
    requires Reachable(K, s0, s, n) && i < |s.pc| == |s.st|
    ensures Exits(s.trace, i) == Reaps(s.trace, i) + if s.st[i] == ZOMBIE then 1 else 0
  {
    hide Reachable;
    ReachableInv(K, s0, s, n);
  }

  // ---------------------------------------------------------------- what a routine has seen to

  /** What a process knows at a statement: wait knows whether it has a child among the slots scanned, kill that its
      target does not sleep, allocproc that the slot it passes over is taken, fork that its child is ready. */
  ghost predicate KnowsAt(pc: Pc, p: nat, st: seq<PState>, parent: seq<Option<nat>>, trace: seq<Event>)
    requires |st| == |parent|
  {
    match pc
    case Wait(at, i, kids) =>
      && (at.AScan? || at.ATest? || at.ASkip? ==> (kids <==> !Childless(parent, p, i)))
      && (at.ASkip? ==> i < |st| && parent[i] == Some(p))
      && (at.AReaped? ==> Reaped(p, i) in trace)
    case Kill(at, i) => at.KRelease? ==> i < |st| && st[i] != SLEEPING
    case Fork(at, i) =>
      && (at.FSkip? ==> i < |st| && st[i] != UNUSED)
      && (at.FDone? ==> i < |st| && st[i] == RUNNABLE && parent[i] == Some(p))
    case _ => true
  }

  ghost predicate Knows(s: State, p: nat)
    requires p < |s.pc| == |s.st| == |s.parent|
  {
    KnowsAt(s.pc[p], p, s.st, s.parent, s.trace)
  }

  lemma {:induction false} ChildlessStep(parent: seq<Option<nat>>, p: nat, i: nat)
    requires i < |parent|
    ensures Childless(parent, p, i + 1) <==> Childless(parent, p, i) && parent[i] != Some(p)
  {
  }

  /** What p knows after a move of its own. */
  ghost predicate KnowsNext(s: State, p: nat, m: Move)
    requires |s.st| == |s.parent| == |s.pc| && p < |s.pc| && MoveOk(s, m)
  {
    KnowsAt(m.to, p, MoveSt(s.st, p, m), MoveParent(s.parent, m), MoveTrace(s.trace, p, m))
  }

  lemma {:induction false} WaitKnows(K: Kernel, s: State, p: nat, ch: Choice)
    requires Shape(K, s) && p < |s.pc| && s.pc[p].Wait? && PcOk(K, |s.pc|, p, s.pc[p]) && Knows(s, p)
    requires s.pc[p].waitAt.ATest? ==> s.pc[p].i < |s.pc| && s.parent[s.pc[p].i] == Some(p)
    requires Program(K, s, p, ch).Some? && MoveOk(s, Program(K, s, p, ch).value)
    ensures KnowsNext(s, p, Program(K, s, p, ch).value)
  {
    hide Childless;
    if s.pc[p].i < |s.pc| { ChildlessStep(s.parent, p, s.pc[p].i); }
  }

  lemma {:induction false} ForkKnows(K: Kernel, s: State, p: nat, ch: Choice)
    requires Shape(K, s) && p < |s.pc| && s.pc[p].Fork? && PcOk(K, |s.pc|, p, s.pc[p])
    requires ForkOk(s.pc, s.st, s.parent, p)
    requires Program(K, s, p, ch).Some? && MoveOk(s, Program(K, s, p, ch).value)
    ensures KnowsNext(s, p, Program(K, s, p, ch).value)
  {
  }

  lemma {:induction false} OtherKnows(K: Kernel, s: State, p: nat, ch: Choice)
    requires Shape(K, s) && p < |s.pc| && !s.pc[p].Wait? && !s.pc[p].Fork? && PcOk(K, |s.pc|, p, s.pc[p])
    requires Program(K, s, p, ch).Some? && MoveOk(s, Program(K, s, p, ch).value)
    ensures KnowsNext(s, p, Program(K, s, p, ch).value)
  {
    hide HoldsOnly;
  }

  lemma {:induction false} OwnKnows(K: Kernel, s: State, p: nat, ch: Choice)
    requires Inv(K, s) && p < |s.pc| && Shape(K, s) && Knows(s, p)
    requires Program(K, s, p, ch).Some? && MoveOk(s, Program(K, s, p, ch).value)
    ensures KnowsNext(s, p, Program(K, s, p, ch).value)
  {
    At(K, s, p);
    ForkOf(s, p);
    assert s.pc[p].Wait? && s.pc[p].waitAt.ATest? ==> s.pc[p].i < |s.pc| && s.parent[s.pc[p].i] == Some(p);
    hide Inv, Program, KnowsNext, Knows, PcOk, ThreadOk, StOk, ForkOk;
    if s.pc[p].Wait? {
      WaitKnows(K, s, p, ch);
    } else if s.pc[p].Fork? {
      ForkKnows(K, s, p, ch);
    } else {
      OtherKnows(K, s, p, ch);
    }
  }

  /** States change only under the lock of the process. */
  lemma {:induction false} StateLocked(K: Kernel, s: State, c: nat, m: Move, i: nat)
    requires Machine(K, s) && Moving(K, s, c, m) && i < |s.pc| && MoveSt(s.st, s.cpus[c].p, m)[i] != s.st[i]
    ensures Wants(s.pc[s.cpus[c].p], s.cpus[c].p) == Some(i)
  {
    hide Machine, Marks, Wakes, ForkStep, Scans;
  }

  /** Parents change only under wait_lock. */
  lemma {:induction false} ParentLocked(K: Kernel, s: State, c: nat, m: Move, i: nat)
    requires Machine(K, s) && Forks(s.pc, s.st, s.parent) && Moving(K, s, c, m) && i < |s.pc|
    requires MoveParent(s.parent, m)[i] != s.parent[i]
    ensures HasWait(K, s.pc[s.cpus[c].p])
  {
    ForkOf(s, s.cpus[c].p);
    hide Machine, Forks, Marks, Wakes, ForkStep, Scans;
  }

  /** What a process knows holds as long as the states and parents that it has locked are the same. */
  lemma {:induction false} KnowsKept(K: Kernel, s: State, q: nat, st: seq<PState>, parent: seq<Option<nat>>,
      trace: seq<Event>)
    requires Shape(K, s) && q < |s.pc| && Knows(s, q) && |st| == |parent| == |s.pc|
    requires HasWait(K, s.pc[q]) ==> parent == s.parent
    requires var w := Wants(s.pc[q], q); w.Some? && w.value < |s.pc| ==> st[w.value] == s.st[w.value]
    requires s.pc[q].Fork? && s.pc[q].forkAt.FDone? && s.pc[q].i < |s.pc| ==> parent[s.pc[q].i] == s.parent[s.pc[q].i]
    requires forall e :: e in s.trace ==> e in trace
    ensures KnowsAt(s.pc[q], q, st, parent, trace)
  {
    hide Childless;
  }

  lemma {:induction false} KnowsStill(K: Kernel, s: State, c: nat, m: Move, q: nat)
    requires Inv(K, s) && Moving(K, s, c, m) && q < |s.pc| && q != s.cpus[c].p && Knows(s, q) && On(s.pc[q])
    ensures Knows(ApplyMove(s, c, m), q)
  {
    hide Parents, Family, Waking, Traced, Balanced, Heard, Typed, Scans, Machine, Forks, MoveSt, MoveParent, MovePc;
    hide KnowsAt, HasWait, Wants, On;
    var p := s.cpus[c].p;
    var s' := ApplyMove(s, c, m);
    OthersPc(K, s, c, m, q);
    if HasWait(K, s.pc[q]) {
      forall i | 0 <= i < |s.pc|
        ensures s'.parent[i] == s.parent[i]
      {
        if s'.parent[i] != s.parent[i] {
          ParentLocked(K, s, c, m, i);
          WaitMutex(K, s, p, q);
        }
      }
      assert s'.parent == s.parent;
    }
    var w := Wants(s.pc[q], q);
    if w.Some? && w.value < |s.pc| && s'.st[w.value] != s.st[w.value] {
      StateLocked(K, s, c, m, w.value);
      Mutex(K, s, p, q, w.value);
    }
    if s.pc[q].Fork? && s.pc[q].forkAt.FDone? { ChildStays(K, s, c, m, q); }
    TraceGrows(s, c, m);
    KnowsKept(K, s, q, s'.st, s'.parent, s'.trace);
  }

  /** Switched out, or dead, there is nothing to know. */
  lemma {:induction false} KnowsOff(K: Kernel, s: State, c: nat, m: Move, q: nat)
    requires Inv(K, s) && Moving(K, s, c, m) && q < |s.pc| && q != s.cpus[c].p && !On(s.pc[q])
    ensures Knows(ApplyMove(s, c, m), q)
  {
    hide Parents, Family, Waking, Traced, Balanced, Heard, Typed, Scans, Machine, Forks, MoveSt, MoveParent;
  }

  lemma {:induction false} TraceGrows(s: State, c: nat, m: Move)
    requires |s.st| == |s.chan| == |s.parent| == |s.pc|
    requires c < |s.cpus| && s.cpus[c].Runs? && s.cpus[c].p < |s.pc| && MoveOk(s, m)
    ensures forall e :: e in s.trace ==> e in ApplyMove(s, c, m).trace
  {
  }

  /** Nobody takes the child from a fork that is about to return. */
  lemma {:induction false} ChildStays(K: Kernel, s: State, c: nat, m: Move, q: nat)
    requires Inv(K, s) && Moving(K, s, c, m) && q < |s.pc| && q != s.cpus[c].p && Knows(s, q)
    requires s.pc[q].Fork? && s.pc[q].forkAt.FDone?
    ensures s.pc[q].i < |s.pc| && MoveParent(s.parent, m)[s.pc[q].i] == s.parent[s.pc[q].i]
  {
    ForkOf(s, s.cpus[c].p);
    hide Machine, Forks, Parents, Family, Waking, Traced, Balanced, Heard, Marks, Wakes, ForkStep, Scans;
  }

  lemma {:induction false} SchedMutex(K: Kernel, s: State, c: nat, q: nat)
    requires Machine(K, s) && c < |s.cpus| && SchedWants(s.cpus[c]).Some? && q < |s.pc|
    ensures Wants(s.pc[q], q) != SchedWants(s.cpus[c])
  {
    SchedHolds(K, s, c);
    At(K, s, q);
    hide Machine;
    assert !HoldsIn(s.locks, T(q), P(SchedWants(s.cpus[c]).value));
  }

  lemma {:induction false} SchedKnows(K: Kernel, s: State, c: nat, q: nat)
    requires Inv(K, s) && SchedOk(s, c) && q < |s.pc| && Knows(s, q)
    ensures Knows(ApplySched(s, c), q)
  {
    hide Forks, Parents, Family, Waking, Traced, Balanced, Heard, Machine, KnowsAt;
    AllPcs(K, s);
    var s' := ApplySched(s, c);
    SchedOne(K, s, c, q);
    if s'.pc[q] == s.pc[q] {
      if SchedWants(s.cpus[c]).Some? { SchedMutex(K, s, c, q); }
      KnowsKept(K, s, q, s'.st, s'.parent, s'.trace);
    } else {
      RunsFresh(s.pc[q], q, s'.st, s'.parent, s'.trace);
    }
  }

  lemma {:induction false} RunsFresh(pc: Pc, q: nat, st: seq<PState>, parent: seq<Option<nat>>, trace: seq<Event>)
    requires |st| == |parent|
    ensures KnowsAt(Resumed(pc), q, st, parent, trace)
  {
  }

  ghost predicate AllKnow(s: State) {
    |s.st| == |s.parent| == |s.pc| && forall q :: 0 <= q < |s.pc| ==> Knows(s, q)
  }

  lemma {:induction false} StepKnows(K: Kernel, s: State, step: Step)
    requires Inv(K, s) && AllKnow(s) && Shape(K, s) && Enabled(K, s, step)
    ensures AllKnow(Apply(K, s, step))
  {
    var s' := Apply(K, s, step);
    assert |s'.st| == |s'.parent| == |s'.pc|;
    forall q | 0 <= q < |s'.pc|
      ensures Knows(s', q)
    {
      assert Knows(s, q);
      KnowsAfter(K, s, step, q);
    }
  }

  lemma {:induction false} OwnPc(K: Kernel, s: State, c: nat, m: Move)
    requires Machine(K, s) && Forks(s.pc, s.st, s.parent) && c < |s.cpus| && s.cpus[c].Runs? && s.cpus[c].p < |s.pc|
    requires MoveOk(s, m) && Typed(K, s, s.cpus[c].p, m)
    ensures MovePc(s.pc, s.cpus[c].p, m)[s.cpus[c].p] == m.to
  {
  }

  lemma {:induction false} KnowsAfter(K: Kernel, s: State, step: Step, q: nat)
    requires Inv(K, s) && Shape(K, s) && Enabled(K, s, step) && q < |s.pc| && Knows(s, q)
    ensures q < |Apply(K, s, step).pc| && Knows(Apply(K, s, step), q)
  {
    hide Machine, Forks, Parents, Family, Waking, Traced, Balanced, Heard, KnowsAt, Typed, Scans, Program, StOk, PcOk,
        ThreadOk, On, MoveSt, MoveParent, MoveTrace;
    match step
    case Sched(c) => SchedKnows(K, s, c, q);
    case Exec(c, ch) =>
      var p := s.cpus[c].p;
      var m := Program(K, s, p, ch).value;
      ExecMachine(K, s, c, ch);
      if q == p {
        OwnKnows(K, s, p, ch);
        OwnPc(K, s, c, m);
      } else {
        At(K, s, p);
        MoveScans(K, s, p, ch);
        if On(s.pc[q]) { KnowsStill(K, s, c, m, q); } else { KnowsOff(K, s, c, m, q); }
      }
  }

  lemma {:induction false} ReachableKnows(K: Kernel, s0: State, s: State, n: nat)
    requires Reachable(K, s0, s, n)
    ensures Inv(K, s) && AllKnow(s)
    decreases n
  {
    hide Inv, AllKnow, Apply, Enabled;
    if n == 0 {
      InitInv(K, s);
      InitKnows(K, s);
    } else {
      var s1, step :| Reachable(K, s0, s1, n - 1) && Shape(K, s1) && Enabled(K, s1, step) && s == Apply(K, s1, step);
      ReachableKnows(K, s0, s1, n - 1);
      StepKeeps(K, s1, step);
      StepKnows(K, s1, step);
    }
  }

  lemma {:induction false} InitKnows(K: Kernel, s: State)
    requires Init(K, s)
    ensures AllKnow(s)
  {
  }

  // ---------------------------------------------------------------- when wait gives up, and what kill and fork leave

  /** At the end of its scan wait leaves if and only if it was killed or no process whatever has it for a parent;
      otherwise it goes to sleep on its own channel. */
  lemma {:induction false} WaitDecides(K: Kernel, s0: State, s: State, n: nat, c: nat, ch: Choice)
    requires Reachable(K, s0, s, n) && Shape(K, s) && Enabled(K, s, Exec(c, ch))
    requires var pc := s.pc[s.cpus[c].p]; pc.Wait? && pc.waitAt.AScan? && pc.i >= |s.pc|
    ensures var p, s' := s.cpus[c].p, Apply(K, s, Exec(c, ch));
            && HoldsIn(s.locks, T(p), WAIT)
            && if ch == Alt || forall q :: 0 <= q < |s.parent| ==> s.parent[q] != Some(p)
               then s'.pc[p].Wait? && s'.pc[p].waitAt.ALeave?
               else s'.pc[p] == Sleep(SRelease, p, ToWait)
  {
    hide Reachable;
    ReachableKnows(K, s0, s, n);
    var p := s.cpus[c].p;
    At(K, s, p);
    assert HoldsIn(s.locks, T(p), Cond(0));
    assert Knows(s, p);
    hide Inv;
    assert Childless(s.parent, p, s.pc[p].i) <==> forall q :: 0 <= q < |s.parent| ==> s.parent[q] != Some(p);
  }

  /** Every way out of wait: a child reaped, a copyout that failed on a zombie child's status, killed, or no child. */
  lemma {:induction false} WaitLeaves(K: Kernel, s0: State, s: State, n: nat, c: nat, ch: Choice)
    requires Reachable(K, s0, s, n) && Shape(K, s) && Enabled(K, s, Exec(c, ch))
    requires var p := s.cpus[c].p; s.pc[p].Wait? && !s.pc[p].waitAt.ALeave?
    requires var pc := Apply(K, s, Exec(c, ch)).pc[s.cpus[c].p]; !pc.Wait? || pc.waitAt.ALeave?
    ensures var p := s.cpus[c].p;
            || Reaped(p, s.pc[p].i) in s.trace
            || s.pc[p].waitAt.AFailed?
            || ch == Alt
            || (forall q :: 0 <= q < |s.parent| ==> s.parent[q] != Some(p))
            || Apply(K, s, Exec(c, ch)).pc[p] == Sleep(SRelease, p, ToWait)
  {
    hide Reachable, Machine, Forks, Parents, Family, Waking, Traced, Balanced, Heard;
    ReachableKnows(K, s0, s, n);
    var p := s.cpus[c].p;
    At(K, s, p);
    assert Knows(s, p);
    hide Inv, ThreadOk, AllKnow, Childless;
    if s.pc[p].waitAt.AScan? && s.pc[p].i >= |s.pc| { WaitDecides(K, s0, s, n, c, ch); }
  }

  /** A zombie child that wait comes upon is freed, unless its status cannot be copied out. */
  lemma {:induction false} WaitReaps(K: Kernel, s0: State, s: State, n: nat, c: nat, ch: Choice)
    requires Reachable(K, s0, s, n) && Shape(K, s) && Enabled(K, s, Exec(c, ch)) && ch != Alt
    requires var pc := s.pc[s.cpus[c].p]; pc.Wait? && pc.waitAt.ATest?
    ensures var p, s' := s.cpus[c].p, Apply(K, s, Exec(c, ch));
            var i := s.pc[p].i;
            && i < |s.pc| == |s'.st| && s.parent[i] == Some(p)
            && (s.st[i] == ZOMBIE ==> s'.st[i] == UNUSED && s'.trace == s.trace + [Reaped(p, i)])
  {
    hide Reachable, Machine, Forks, Parents, Family, Waking, Traced, Balanced, Heard;
    ReachableInv(K, s0, s, n);
    MoverFacts(K, s, s.cpus[c].p, s.cpus[c].p);
  }

  /** fork claims the first UNUSED slot that it comes upon, and with memory enough goes on with it. */
  lemma {:induction false} ForkGoesOn(K: Kernel, s: State, p: nat, ch: Choice)
    requires Shape(K, s) && p < |s.pc| && s.pc[p].Fork? && s.pc[p].i < |s.pc| && ch != Alt
    ensures var i := s.pc[p].i;
            && (s.pc[p].forkAt.FTest? && s.st[i] == UNUSED ==>
                  Program(K, s, p, ch).Some? && ForkTarget(Program(K, s, p, ch).value.to) == Some(i))
            && (s.pc[p].forkAt.FHave? ==>
                  Program(K, s, p, ch).Some? && ForkTarget(Program(K, s, p, ch).value.to) == Some(i))
  {
  }

  /** When kill lets go of its target's lock the target does not sleep. */
  lemma {:induction false} KillWakes(K: Kernel, s0: State, s: State, n: nat, p: nat)
    requires Reachable(K, s0, s, n) && p < |s.pc| == |s.st| && s.pc[p].Kill? && s.pc[p].killAt.KRelease?
    ensures var i := s.pc[p].i; i < |s.pc| && HoldsIn(s.locks, T(p), P(i)) && s.st[i] != SLEEPING
  {
    hide Reachable;
    ReachableKnows(K, s0, s, n);
    At(K, s, p);
    assert Knows(s, p);
    hide Inv;
    assert HoldsIn(s.locks, T(p), P(s.pc[p].i));
  }

  /** When fork lets go of its child's lock for the last time the child is RUNNABLE and its own; and it passes over
      a slot only if that is in use. */
  lemma {:induction false} ForkLaunches(K: Kernel, s0: State, s: State, n: nat, p: nat)
    requires Reachable(K, s0, s, n) && p < |s.pc| == |s.st| == |s.parent| && s.pc[p].Fork?
    ensures var i := s.pc[p].i;
            && (s.pc[p].forkAt.FDone? ==>
                  i < |s.pc| && HoldsIn(s.locks, T(p), P(i)) && s.st[i] == RUNNABLE && s.parent[i] == Some(p))
            && (s.pc[p].forkAt.FSkip? ==> i < |s.pc| && HoldsIn(s.locks, T(p), P(i)) && s.st[i] != UNUSED)
  {
    hide Reachable;
    ReachableKnows(K, s0, s, n);
    At(K, s, p);
    assert Knows(s, p);
    hide Inv;
    assert s.pc[p].forkAt.FDone? || s.pc[p].forkAt.FSkip? ==> HoldsIn(s.locks, T(p), P(s.pc[p].i));
  }

  // ---------------------------------------------------------------- the state diagram

  /** The ways in which process p may change the state of q, always holding q's lock. */
  ghost predicate ByProcess(K: Kernel, s: State, s': State, p: nat, q: nat)
    requires p < |s.pc| && q < |s.st| == |s.chan| == |s.parent| && q < |s'.st| == |s'.chan|
  {
    var a, b, pc := s.st[q], s'.st[q], s.pc[p];
    && HoldsIn(s.locks, T(p), P(q))
    && (|| (a == RUNNING && b == RUNNABLE && q == p && pc.Yield?)
        || (a == RUNNING && b == SLEEPING && q == p && pc.Sleep? && s'.chan[q] == Some(pc.ch))
        || (a == RUNNING && b == ZOMBIE && q == p && q != K.init && HoldsIn(s.locks, T(p), WAIT)
            && s'.trace == s.trace + [Exited(q)])
        || (a == SLEEPING && b == RUNNABLE && q != p && (pc.Kill? || (pc.Wake? && s.chan[q] == Some(pc.ch))))
        || (a == UNUSED && b == USED && pc.Fork?)
        || (a == USED && b == RUNNABLE && pc.Fork? && s.parent[q] == Some(p))
        || (a == USED && b == UNUSED && pc.Fork? && s.parent[q] == None)
        || (a == ZOMBIE && b == UNUSED && pc.Wait? && s.parent[q] == Some(p) && HoldsIn(s.locks, T(p), WAIT)
            && s'.trace == s.trace + [Reaped(p, q)]))
  }

  lemma {:induction false} WakesOnly(K: Kernel, s: State, p: nat, ch: Choice)
    requires Shape(K, s) && p < |s.pc| && s.pc[p].Wake? && Program(K, s, p, ch).Some?
    ensures var m := Program(K, s, p, ch).value; m.SetState? ==> m.q < |s.pc| && s.chan[m.q] == Some(s.pc[p].ch)
  {
  }

  /** What holds of a process that is about to change another. */
  lemma {:induction false} MoverFacts(K: Kernel, s: State, p: nat, q: nat)
    requires Inv(K, s) && Shape(K, s) && p < |s.pc| && q < |s.pc|
    ensures StOk(s.pc[p], s.st[p], s.chan[p]) && PcOk(K, |s.pc|, p, s.pc[p]) && ForkOk(s.pc, s.st, s.parent, p)
    ensures Wants(s.pc[p], p) == Some(q) ==> HoldsIn(s.locks, T(p), P(q))
    ensures HasWait(K, s.pc[p]) ==> HoldsIn(s.locks, T(p), WAIT)
    ensures s.pc[p].Wait? && s.pc[p].waitAt.ATest? ==> s.pc[p].i < |s.pc| && s.parent[s.pc[p].i] == Some(p)
  {
    hide Machine, Forks, Parents, Waking, Traced, Balanced, Heard, StOk, PcOk, ForkOk;
    At(K, s, p);
    ForkOf(s, p);
    assert HoldsIn(s.locks, T(p), P(q)) <==> Wants(s.pc[p], p) == Some(q);
    assert HasWait(K, s.pc[p]) ==> HoldsIn(s.locks, T(p), Cond(0));
  }

  lemma {:induction false} MoveDiagram(K: Kernel, s: State, c: nat, m: Move, q: nat)
    requires Inv(K, s) && Moving(K, s, c, m) && q < |s.pc|
    requires s.pc[s.cpus[c].p].Wake? && m.SetState? ==> s.chan[m.q] == Some(s.pc[s.cpus[c].p].ch)
    requires ApplyMove(s, c, m).st[q] != s.st[q]
    ensures ByProcess(K, s, ApplyMove(s, c, m), s.cpus[c].p, q)
  {
    hide Machine, Forks, Parents, Family, Waking, Traced, Balanced, Heard, Marks, Wakes, ForkStep, Scans;
    StateLocked(K, s, c, m, q);
    MoverFacts(K, s, s.cpus[c].p, q);
  }

  /** A process changes state only along the arrows of the diagram: the scheduler runs RUNNABLE ones, a running one
      yields, sleeps or exits itself, wakeup of its channel or kill wakes a sleeping one, fork makes one of an UNUSED
      slot, and its parent's wait frees a ZOMBIE.  All of it happens under the lock of that process. */
  lemma {:induction false} StateDiagram(K: Kernel, s0: State, s: State, n: nat, step: Step, q: nat)
    requires Reachable(K, s0, s, n) && Shape(K, s) && Enabled(K, s, step) && q < |s.pc|
    ensures var s' := Apply(K, s, step);
            && q < |s'.st| == |s'.chan|
            && (s'.st[q] != s.st[q] ==>
                  match step
                  case Exec(c, _) => ByProcess(K, s, s', s.cpus[c].p, q)
                  case Sched(c) =>
                    s.st[q] == RUNNABLE && s'.st[q] == RUNNING && s'.cpus[c] == Runs(q) && HoldsIn(s.locks, C(c), P(q)))
  {
    hide Reachable;
    ReachableInv(K, s0, s, n);
    hide Forks, Parents, Family, Waking, Traced, Balanced, Heard;
    match step
    case Exec(c, ch) =>
      var p := s.cpus[c].p;
      ExecMachine(K, s, c, ch);
      At(K, s, p);
      MoveScans(K, s, p, ch);
      if s.pc[p].Wake? { WakesOnly(K, s, p, ch); }
      hide Machine, Program, Typed, Scans, ByProcess, StOk, ThreadOk, PcOk;
      if Apply(K, s, step).st[q] != s.st[q] { MoveDiagram(K, s, c, Program(K, s, p, ch).value, q); }
    case Sched(c) =>
      if SchedWants(s.cpus[c]).Some? { SchedHolds(K, s, c); }
      hide Machine;
  }

  /** Parents change only under wait_lock: fork names itself, exit hands its own child to init, and wait frees its
      own zombie child. */
  lemma {:induction false} ParentDiagram(K: Kernel, s0: State, s: State, n: nat, step: Step, q: nat)
    requires Reachable(K, s0, s, n) && Shape(K, s) && Enabled(K, s, step) && q < |s.pc|
    requires var s' := Apply(K, s, step); q < |s'.parent| == |s'.st| && s'.parent[q] != s.parent[q]
    ensures step.Exec?
    ensures var p, s' := s.cpus[step.c].p, Apply(K, s, step);
            && HoldsIn(s.locks, T(p), WAIT)
            && (|| (s.pc[p].Fork? && s.parent[q] == None && s'.parent[q] == Some(p) && s.st[q] == USED)
                || (s.pc[p].Exit? && s.parent[q] == Some(p) && s'.parent[q] == Some(K.init) && p != K.init)
                || (s.pc[p].Wait? && s.parent[q] == Some(p) && s'.parent[q] == None && s.st[q] == ZOMBIE
                    && s'.st[q] == UNUSED))
  {
    hide Reachable, Machine, Forks, Parents, Family, Waking, Traced, Balanced, Heard, Typed, Scans, StOk, PcOk;
    ReachableInv(K, s0, s, n);
    match step
    case Exec(c, ch) =>
      hide Program, MoveParent, MoveSt;
      var p := s.cpus[c].p;
      ExecMachine(K, s, c, ch);
      MoverFacts(K, s, p, q);
      MoveScans(K, s, p, ch);
      MoveParents(K, s, c, Program(K, s, p, ch).value, q);
    case Sched(c) =>
  }

  lemma {:induction false} MoveParents(K: Kernel, s: State, c: nat, m: Move, q: nat)
    requires Inv(K, s) && Moving(K, s, c, m) && q < |s.pc| && MoveParent(s.parent, m)[q] != s.parent[q]
    ensures var p := s.cpus[c].p;
            var parent, st := MoveParent(s.parent, m), MoveSt(s.st, p, m);
            && HoldsIn(s.locks, T(p), WAIT)
            && (|| (s.pc[p].Fork? && s.parent[q] == None && parent[q] == Some(p) && s.st[q] == USED)
                || (s.pc[p].Exit? && s.parent[q] == Some(p) && parent[q] == Some(K.init) && p != K.init)
                || (s.pc[p].Wait? && s.parent[q] == Some(p) && parent[q] == None && s.st[q] == ZOMBIE
                    && st[q] == UNUSED))
  {
    hide Machine, Forks, Parents, Family, Waking, Traced, Balanced, Heard, Marks, Wakes, ForkStep, Scans;
    ParentLocked(K, s, c, m, q);
    MoverFacts(K, s, s.cpus[c].p, q);
  }

  // ---------------------------------------------------------------- sleep, locks, and never getting stuck

  lemma {:induction false} HoldsNothing(K: Kernel, locks: map<Lock, Thread>, p: nat, pc: Pc, l: Lock)
    requires ThreadOk(K, locks, p, pc) && Wants(pc, p) == None && Conds(K, pc) == Some({})
    ensures !HoldsIn(locks, T(p), l)
  {
    match l
    case P(q) => assert !HoldsIn(locks, T(p), P(q));
    case Cond(k) => assert !HoldsIn(locks, T(p), Cond(k));
  }

  /** The last statement of sleep is the only one that leaves it. */
  lemma {:induction false} SleepLast(K: Kernel, p: nat, pc: Pc)
    requires pc.Sleep? && SleepMove(K, p, pc).Some? && !SleepMove(K, p, pc).value.to.Sleep?
    ensures pc.sleepAt.SReacquire? && SleepMove(K, p, pc).value == Acquire(Cond(K.guard(pc.ch)), Return(pc.ret))
  {
  }

  /** sleep returns, awake and off its channel, with the channel's lock and no other. */
  lemma {:induction false} SleepReturns(K: Kernel, s0: State, s: State, n: nat, c: nat, ch: Choice)
    requires Reachable(K, s0, s, n) && Shape(K, s) && Enabled(K, s, Exec(c, ch)) && s.pc[s.cpus[c].p].Sleep?
    requires !Program(K, s, s.cpus[c].p, ch).value.to.Sleep?
    ensures var p, s' := s.cpus[c].p, Apply(K, s, Exec(c, ch));
            var lk := Cond(K.guard(s.pc[p].ch));
            && p < |s'.pc| == |s'.st| == |s'.chan| && !s'.pc[p].Sleep? && s'.st[p] == RUNNING && s'.chan[p] == None
            && HoldsIn(s'.locks, T(p), lk) && HoldsOnly(s', p, {lk})
  {
    hide Reachable, Inv;
    ReachableInv(K, s0, s, n);
    var p := s.cpus[c].p;
    assert Machine(K, s) by { InvMachine(K, s); }
    hide Machine, PcOk;
    At(K, s, p);
    SleepLast(K, p, s.pc[p]);
    var lk, s' := Cond(K.guard(s.pc[p].ch)), Apply(K, s, Exec(c, ch));
    assert s' == ApplyMove(s, c, Acquire(lk, Return(s.pc[p].ret)));
    hide Apply;
    forall l | HoldsIn(s'.locks, T(p), l)
      ensures l == lk
    {
      HoldsNothing(K, s.locks, p, s.pc[p], l);
    }
  }

  lemma {:induction false} InvMachine(K: Kernel, s: State)
    requires Inv(K, s)
    ensures Machine(K, s)
    ensures forall i :: 0 <= i < |s.pc| && i != K.init && Alive(s.st[i]) ==> s.parent[i].Some?
  {
    hide Machine, Forks, Family, Waking, Traced, Balanced, Heard, Alive;
    AllPcs(K, s);
  }

  /** A statement releases a lock that p holds, or acquires one that it does not. */
  ghost predicate Proper(s: State, p: nat, m: Move) {
    (m.Release? ==> HoldsIn(s.locks, T(p), m.l)) && (m.Acquire? ==> !HoldsIn(s.locks, T(p), m.l))
  }

  lemma {:induction false} CodeProper(K: Kernel, s: State, p: nat, ch: Choice)
    requires Shape(K, s) && p < |s.pc| && ThreadOk(K, s.locks, p, s.pc[p])
    requires s.pc[p].Code? && !ch.ChAcquire? && Program(K, s, p, ch).Some?
    ensures Proper(s, p, Program(K, s, p, ch).value)
  {
    assert forall q: nat :: !HoldsIn(s.locks, T(p), P(q));
    assert HoldsOnly(s, p, {}) ==> !HoldsIn(s.locks, T(p), WAIT);
    hide ThreadOk, HoldsIn, HoldsOnly;
  }

  lemma {:induction false} SleepProper(K: Kernel, s: State, p: nat, ch: Choice)
    requires Shape(K, s) && p < |s.pc| && ThreadOk(K, s.locks, p, s.pc[p]) && PcOk(K, |s.pc|, p, s.pc[p])
    requires s.pc[p].Sleep? || s.pc[p].Wake? || s.pc[p].Yield? || s.pc[p].Kill?
    requires Program(K, s, p, ch).Some?
    ensures Proper(s, p, Program(K, s, p, ch).value)
  {
    hide HoldsIn;
  }

  lemma {:induction false} ForkProper(K: Kernel, s: State, p: nat, ch: Choice)
    requires Shape(K, s) && p < |s.pc| && ThreadOk(K, s.locks, p, s.pc[p]) && PcOk(K, |s.pc|, p, s.pc[p])
    requires s.pc[p].Fork? && Program(K, s, p, ch).Some?
    ensures Proper(s, p, Program(K, s, p, ch).value)
  {
    hide HoldsIn;
  }

  lemma {:induction false} ExitProper(K: Kernel, s: State, p: nat, ch: Choice)
    requires Shape(K, s) && p < |s.pc| && ThreadOk(K, s.locks, p, s.pc[p]) && PcOk(K, |s.pc|, p, s.pc[p])
    requires (s.pc[p].Exit? || s.pc[p].Wait?) && Program(K, s, p, ch).Some?
    ensures Proper(s, p, Program(K, s, p, ch).value)
  {
    hide HoldsIn;
  }

  /** proc.c never meets the panics of spinlock.c: it releases only what it holds and acquires only what it does not,
      whatever locks its callers take. */
  lemma {:induction false} NoLockPanic(K: Kernel, s0: State, s: State, n: nat, p: nat, ch: Choice)
    requires Reachable(K, s0, s, n) && Shape(K, s) && p < |s.pc| && Program(K, s, p, ch).Some?
    requires s.pc[p].Code? ==> !ch.ChAcquire?
    ensures var m := Program(K, s, p, ch).value;
            && (m.Release? ==> HoldsIn(s.locks, T(p), m.l))
            && (m.Acquire? ==> !HoldsIn(s.locks, T(p), m.l))
  {
    hide Reachable, Inv, Machine, Program, StOk, PcOk, ThreadOk, HoldsIn;
    ReachableInv(K, s0, s, n);
    InvMachine(K, s);
    At(K, s, p);
    match s.pc[p]
    case Code => CodeProper(K, s, p, ch);
    case Fork(_, _) => ForkProper(K, s, p, ch);
    case Exit(_, _) => ExitProper(K, s, p, ch);
    case Wait(_, _, _) => ExitProper(K, s, p, ch);
    case _ => SleepProper(K, s, p, ch);
  }

  lemma {:induction false} NextMove(K: Kernel, s: State, p: nat)
    requires Shape(K, s) && p < |s.pc| && PcOk(K, |s.pc|, p, s.pc[p]) && On(s.pc[p]) && s.pc[p] != Code
    requires StOk(s.pc[p], s.st[p], s.chan[p]) && (p != K.init && Alive(s.st[p]) ==> s.parent[p].Some?)
    ensures var m := Program(K, s, p, Next);
            m.Some? && (m.value.SetState? || m.value.SetParent? || m.value.Claim? || m.value.FreeProc? ==>
                          m.value.q < |s.pc|)
  {
  }

  /** Inside proc.c a process on a CPU can always take its next step, unless that step is to acquire a lock that some
      other thread holds. */
  lemma {:induction false} NeverStuck(K: Kernel, s0: State, s: State, n: nat, c: nat)
    requires Reachable(K, s0, s, n) && Shape(K, s) && c < |s.cpus| && s.cpus[c].Runs? && s.cpus[c].p < |s.pc|
    requires s.pc[s.cpus[c].p] != Code
    ensures var p := s.cpus[c].p;
            var m := Program(K, s, p, Next);
            m.Some? && if m.value.Acquire? && m.value.l in s.locks then s.locks[m.value.l] != T(p)
                       else Enabled(K, s, Exec(c, Next))
  {
    hide Reachable, Inv, Machine, Program, StOk, PcOk, ThreadOk, On;
    ReachableInv(K, s0, s, n);
    InvMachine(K, s);
    var p := s.cpus[c].p;
    At(K, s, p);
    OnCpu(K, s, c);
    NextMove(K, s, p);
    NoLockPanic(K, s0, s, n, p, Next);
  }

  /** Code outside proc.c may call in at any time: wakeup, kill and acquire always, yield, fork, wait and exit (but for
      init) without locks, and sleep with the channel's lock alone. */
  lemma {:induction false} MayCall(K: Kernel, s: State, p: nat, k: nat, ch: nat, i: nat)
    requires Shape(K, s) && p < |s.pc| && s.pc[p] == Code && i < |s.pc| && ch >= |s.pc|
    ensures Program(K, s, p, ChAcquire(k)) == Some(Acquire(Cond(k), Code))
    ensures HoldsIn(s.locks, T(p), Cond(k)) ==> Program(K, s, p, ChRelease(k)) == Some(Release(Cond(k), Code))
    ensures Program(K, s, p, ChWakeup(ch)).Some? && Program(K, s, p, ChKill(i)).Some?
    ensures HoldsOnly(s, p, {}) ==>
              && Program(K, s, p, ChYield).Some? && Program(K, s, p, ChFork).Some? && Program(K, s, p, ChWait).Some?
              && (p != K.init ==> Program(K, s, p, ChExit).Some?)
    ensures var lk := Cond(K.guard(ch));
            HoldsIn(s.locks, T(p), lk) && HoldsOnly(s, p, {lk}) ==> Program(K, s, p, ChSleep(ch)).Some?
  {
  }

  // ---------------------------------------------------------------- every routine comes to its end

  /** How many steps exit has left when it is at slot i of reparent. */
  function ExitLeft(n: nat, i: nat): nat {
    (if i < n then (n - i) * (3 * n + 3) else 0) + 3 * n + 7
  }

  function ReturnLeft(n: nat, ret: Ret): nat {
    match ret
    case ToCode => 0
    case ToWait => 3 * n + 5
    case ToReparent(i) => ExitLeft(n, i)
    case ToExitLock => 4
  }

  function Times3(n: nat, i: nat): nat {
    if i < n then 3 * (n - i) else 0
  }

  /** An upper bound on the steps that a process has left, in a table of n, until it is back in its caller's code,
      switched out or dead. */
  function Left(n: nat, pc: Pc): nat {
    match pc
    case Code => 0
    case Sleep(at, _, r) =>
      (match at
       case SRelease => 3 case SMark => 2 case SSched => 1 case SOff => 0
       case SWoken => ReturnLeft(n, r) + 3 case SUnlock => ReturnLeft(n, r) + 2 case SReacquire => ReturnLeft(n, r) + 1)
    case Wake(at, _, i, r) =>
      Times3(n, i) + ReturnLeft(n, r) + (match at case WLoop => 2 case WTest => 1 case WRelease => 0)
    case Yield(at) => (match at case YMark => 2 case YSched => 1 case YOff => 0 case YUnlock => 1)
    case Kill(at, _) => (match at case KTest => 2 case KRelease => 1)
    case Fork(at, i) =>
      (match at
       case FScan => Times3(n, i) + 10 case FTest => Times3(n, i) + 9 case FSkip => Times3(n, i) + 8
       case FHave => 8 case FFailed => 1 case FWait => 7 case FParent => 6 case FUnwait => 5 case FReady => 4
       case FRun => 3 case FDone => 2)
    case Exit(at, i) =>
      (match at
       case EReparent => ExitLeft(n, i) case ELock => 4 case EMark => 3 case ERelease => 2 case ESched => 1
       case EDead => 0)
    case Wait(at, i, _) =>
      (match at
       case AScan => Times3(n, i) + 5 case ATest => Times3(n, i) + 4 case ASkip => Times3(n, i) + 3
       case AReaped => 2 case AFailed => 2 case ALeave => 1)
  }

  lemma {:induction false} ExitLeftStep(n: nat, i: nat)
    requires i < n
    ensures ExitLeft(n, i) == ExitLeft(n, i + 1) + 3 * n + 3
  {
    var k := 3 * n + 3;
    assert (n - i) * k == (n - (i + 1)) * k + k;
  }

  lemma {:induction false} Times3Step(n: nat, i: nat)
    ensures i < n ==> Times3(n, i) == Times3(n, i + 1) + 3
    ensures Times3(n, 0) == 3 * n
  {
  }

  lemma {:induction false} ExitShrinks(K: Kernel, s: State, p: nat, ch: Choice)
    requires Shape(K, s) && p < |s.pc| && s.pc[p].Exit? && PcOk(K, |s.pc|, p, s.pc[p]) && Program(K, s, p, ch).Some?
    ensures Left(|s.pc|, Program(K, s, p, ch).value.to) < Left(|s.pc|, s.pc[p])
  {
    hide ExitLeft, Times3, MoveLocks;
    var n, i := |s.pc|, s.pc[p].i;
    if i < n { ExitLeftStep(n, i); }
    ExitLeftLeast(n, i);
    Times3Step(n, 0);
  }

  lemma {:induction false} ExitLeftLeast(n: nat, i: nat)
    ensures ExitLeft(n, i) >= 3 * n + 7
  {
    assert i < n ==> (n - i) * (3 * n + 3) >= 0;
  }

  lemma {:induction false} WakeShrinks(K: Kernel, s: State, p: nat, ch: Choice)
    requires Shape(K, s) && p < |s.pc| && s.pc[p].Wake? && PcOk(K, |s.pc|, p, s.pc[p]) && Program(K, s, p, ch).Some?
    ensures Left(|s.pc|, Program(K, s, p, ch).value.to) < Left(|s.pc|, s.pc[p])
  {
    hide ExitLeft, Times3;
    Times3Step(|s.pc|, s.pc[p].i);
  }

  lemma {:induction false} SleepShrinks(K: Kernel, s: State, p: nat, ch: Choice)
    requires Shape(K, s) && p < |s.pc| && (s.pc[p].Sleep? || s.pc[p].Yield? || s.pc[p].Kill?)
    requires PcOk(K, |s.pc|, p, s.pc[p]) && Program(K, s, p, ch).Some?
    ensures Left(|s.pc|, Program(K, s, p, ch).value.to) < Left(|s.pc|, s.pc[p])
  {
    hide ExitLeft, Times3;
    Times3Step(|s.pc|, 0);
  }

  lemma {:induction false} ForkShrinks(K: Kernel, s: State, p: nat, ch: Choice)
    requires Shape(K, s) && p < |s.pc| && s.pc[p].Fork? && PcOk(K, |s.pc|, p, s.pc[p]) && Program(K, s, p, ch).Some?
    ensures Left(|s.pc|, Program(K, s, p, ch).value.to) < Left(|s.pc|, s.pc[p])
  {
    hide ExitLeft, Times3;
    Times3Step(|s.pc|, s.pc[p].i);
  }

  lemma {:induction false} WaitShrinks(K: Kernel, s: State, p: nat, ch: Choice)
    requires Shape(K, s) && p < |s.pc| && s.pc[p].Wait? && PcOk(K, |s.pc|, p, s.pc[p]) && Program(K, s, p, ch).Some?
    ensures Left(|s.pc|, Program(K, s, p, ch).value.to) < Left(|s.pc|, s.pc[p])
  {
    hide ExitLeft, Times3;
    Times3Step(|s.pc|, s.pc[p].i);
  }

  /** No routine of proc.c goes on for ever: with every step of its own a process has fewer left. */
  lemma {:induction false} RoutinesEnd(K: Kernel, s0: State, s: State, n: nat, c: nat, ch: Choice)
    requires Reachable(K, s0, s, n) && Shape(K, s) && Enabled(K, s, Exec(c, ch)) && s.pc[s.cpus[c].p] != Code
    ensures var p, s' := s.cpus[c].p, Apply(K, s, Exec(c, ch));
            p < |s'.pc| && Left(|s.pc|, s'.pc[p]) < Left(|s.pc|, s.pc[p])
  {
    hide Reachable, Machine, Forks, Parents, Family, Waking, Traced, Balanced, Heard, Program, StOk, PcOk, ThreadOk;
    hide Typed, Left;
    ReachableInv(K, s0, s, n);
    var p := s.cpus[c].p;
    At(K, s, p);
    ExecMachine(K, s, c, ch);
    OwnPc(K, s, c, Program(K, s, p, ch).value);
    match s.pc[p]
    case Wake(_, _, _, _) => WakeShrinks(K, s, p, ch);
    case Fork(_, _) => ForkShrinks(K, s, p, ch);
    case Exit(_, _) => ExitShrinks(K, s, p, ch);
    case Wait(_, _, _) => WaitShrinks(K, s, p, ch);
    case _ => SleepShrinks(K, s, p, ch);
  }

  // ---------------------------------------------------------------- the scheduler finds work

  ghost predicate AllFree(s: State) {
    forall r: nat :: P(r) !in s.locks
  }

  lemma {:induction false} OneStep(K: Kernel, s0: State, s: State, n: nat, step: Step)
    requires Reachable(K, s0, s, n) && Shape(K, s) && Enabled(K, s, step)
    ensures Reachable(K, s0, Apply(K, s, step), n + 1)
  {
  }

  /** One turn of the loop over the table: the process found RUNNABLE runs, any other is passed over. */
  lemma {:induction false} SchedTurn(K: Kernel, s0: State, s: State, n: nat, c: nat) returns (t: State, m: nat)
    requires Reachable(K, s0, s, n) && Shape(K, s) && AllFree(s) && c < |s.cpus| && s.cpus[c].Scan?
    requires s.cpus[c].i < |s.pc|
    ensures Reachable(K, s0, t, n + m) && Shape(K, t)
    ensures var i := s.cpus[c].i;
            if s.st[i] == RUNNABLE then m == 2 && t.cpus == s.cpus[c := Runs(i)] && t.st == s.st[i := RUNNING]
            else m == 3 && t == s.(cpus := s.cpus[c := Scan(if i + 1 < |s.pc| then i + 1 else 0)])
  {
    hide Reachable;
    var i := s.cpus[c].i;
    OneStep(K, s0, s, n, Sched(c));
    var s1 := Apply(K, s, Sched(c));
    OneStep(K, s0, s1, n + 1, Sched(c));
    var s2 := Apply(K, s1, Sched(c));
    t, m := s2, 2;
    if s.st[i] != RUNNABLE {
      OneStep(K, s0, s2, n + 2, Sched(c));
      t, m := Apply(K, s2, Sched(c)), 3;
      assert P(i) !in s.locks;
      assert t.locks == s.locks;
    }
  }

  /** How many slots the scheduler looks at before q. */
  function Away(i: nat, q: nat, n: nat): nat
    requires i < n && q < n
  {
    if i <= q then q - i else n - i + q
  }

  /** If there is a RUNNABLE process and nobody holds a process lock, a scheduler runs one, having looked at every slot
      at most once. */
  lemma {:induction false} SchedulerFinds(K: Kernel, s0: State, s: State, n: nat, c: nat, q: nat)
      returns (t: State, m: nat)
    requires Reachable(K, s0, s, n) && Shape(K, s) && AllFree(s) && c < |s.cpus| && s.cpus[c].Scan?
    requires s.cpus[c].i < |s.pc| && q < |s.pc| && s.st[q] == RUNNABLE
    ensures Reachable(K, s0, t, n + m) && m <= 3 * Away(s.cpus[c].i, q, |s.pc|) + 2
    ensures c < |t.cpus| && t.cpus[c].Runs?
    ensures var r := t.cpus[c].p;
            && r < |s.pc| && s.st[r] == RUNNABLE && t.st == s.st[r := RUNNING]
            && Away(s.cpus[c].i, r, |s.pc|) <= Away(s.cpus[c].i, q, |s.pc|)
    decreases Away(s.cpus[c].i, q, |s.pc|)
  {
    hide Reachable;
    t, m := SchedTurn(K, s0, s, n, c);
    if s.st[s.cpus[c].i] != RUNNABLE {
      var m1 := m;
      t, m := SchedulerFinds(K, s0, t, n + m, c, q);
      m := m1 + m;
    }
  }
}
