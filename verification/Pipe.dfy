/**
 * Pipes: pipewrite, piperead and pipeclose of kernel/pipe.c.
 *
 * pi->lock makes each stretch of code between taking the lock and releasing it, in sleep or for
 * good, one turn; an interleaving is any sequence of turns of any processes.  A call that sleeps
 * takes another turn when it is woken.
 */
module Pipe {

  const PIPESIZE: nat := 512
  const UINT: nat := 0x1_0000_0000

  datatype Outcome =
    | Returned(n: int)       // the call is over
    | Asleep(i: nat)         // in sleep, with i bytes done

  function Min(a: nat, b: nat): nat {
    if a < b then a else b
  }

  function Slot(k: nat): (s: nat)
    ensures s < PIPESIZE
  {
    k % PIPESIZE
  }

  function Wrap(k: nat): (w: nat)
    ensures w < UINT
  {
    k % UINT
  }

  /** 512 divides 2^32: the counters find the slots of the bytes they stand for. */
  lemma {:induction false} SlotOfCounter(k: nat)
    ensures Slot(Wrap(k)) == Slot(k)
  {
    assert k == (k / UINT) * UINT + k % UINT;
    assert UINT == 512 * 0x80_0000;
    SlotPlus((k / UINT) * 0x80_0000, k % UINT);
  }

  lemma {:induction false} SlotPlus(m: nat, r: nat)
    ensures Slot(512 * m + r) == Slot(r)
  {
  }

  /** Counters that wrap still tell empty and full. */
  lemma {:induction false} Counters(r: nat, w: nat)
    requires r <= w <= r + PIPESIZE
    ensures Wrap(r) == Wrap(w) <==> r == w
    ensures Wrap(w) == (Wrap(r) + PIPESIZE) % UINT <==> w == r + PIPESIZE
    ensures (Wrap(w) + UINT - Wrap(r)) % UINT == w - r
  {
    var a := Wrap(r);
    Shifted(r, w - r);
    Shifted(r, PIPESIZE);
    assert (a + (w - r)) % UINT == if a + (w - r) < UINT then a + (w - r) else a + (w - r) - UINT;
    assert (a + PIPESIZE) % UINT == if a + PIPESIZE < UINT then a + PIPESIZE else a + PIPESIZE - UINT;
  }

  lemma {:induction false} Shifted(r: nat, d: nat)
    ensures Wrap(r + d) == (Wrap(r) + d) % UINT
  {
    assert r == (r / UINT) * UINT + r % UINT;
  }

  lemma {:induction false} SlotsApart(j: nat, k: nat)
    requires j < k < j + PIPESIZE
    ensures Slot(j) != Slot(k)
  {
  }

  /** How far a turn of pipewrite gets: to the end, to a full pipe, to the kill or to a bad address, or nowhere if the
      read end is closed. */
  function WriteStop(n: nat, i: nat, space: nat, good: nat, kill: nat, open: bool): nat {
    if !open then i else Min(Min(n, i + space), Min(Max(i, kill), Max(i, good)))
  }

  function WriteOutcome(n: nat, i: nat, space: nat, good: nat, kill: nat, open: bool): Outcome {
    var done := WriteStop(n, i, space, good, kill, open);
    if done == n then Returned(n)
    else if !open || kill <= done then Returned(-1)
    else if done == i + space then Asleep(done)
    else Returned(done)
  }

  /** Where the loop of pipewrite stops, and why. */
  lemma {:induction false} WriteEnds(n: nat, i0: nat, space: nat, good: nat, kill: nat, open: bool, i: nat, r: Outcome)
    requires i0 <= i <= n && i <= i0 + space && (i > i0 ==> open && i <= kill && i <= good)
    requires if i == n then r == Returned(n)
             else if !open || kill <= i then r == Returned(-1)
             else if i == i0 + space then r == Asleep(i)
             else good <= i && r == Returned(i)
    ensures WriteStop(n, i0, space, good, kill, open) == i && WriteOutcome(n, i0, space, good, kill, open) == r
  {
  }

  function Max(a: nat, b: nat): nat {
    if a < b then b else a
  }

  /** The bytes of q from position d on are in the ring. */
  ghost predicate InRing(ring: seq<nat>, d: nat, q: seq<nat>) {
    |ring| == PIPESIZE && forall k :: d <= k < |q| ==> ring[Slot(k)] == q[k]
  }

  lemma {:induction false} OneMore(s: seq<nat>, i: nat, j: nat)
    requires i <= j < |s|
    ensures s[i..j + 1] == s[i..j] + [s[j]]
  {
  }

  /** A pipe as its users know it. */
  datatype Moment = Moment(enqueued: seq<nat>, dequeued: seq<nat>, readopen: bool, writeopen: bool, readers: set<nat>,
      writers: set<nat>) {
    function Full(): int {
      |enqueued| - |dequeued|
    }
  }

  /** What holds at every release of the lock: writers sleep only on a full pipe that may still be read,
      readers only on one that may still be written. */
  ghost predicate Settled(a: Moment) {
    && a.dequeued <= a.enqueued && a.Full() <= PIPESIZE
    && (a.writers != {} ==> a.Full() == PIPESIZE && a.readopen)
    && (a.readers != {} ==> a.writeopen)
  }

  /** What ought not to happen: a reader sleeps on a pipe that holds bytes. */
  ghost predicate Stranded(a: Moment) {
    a.readers != {} && a.dequeued != a.enqueued
  }

  class PipeBuffer {
    const data: array<nat>
    var nread: nat
    var nwrite: nat
    var readopen: bool
    var writeopen: bool
    var readers: set<nat>          // asleep on &pi->nread
    var writers: set<nat>          // asleep on &pi->nwrite
    ghost var enqueued: seq<nat>   // all bytes ever put in
    ghost var dequeued: seq<nat>   // all bytes ever taken out

    /** First in, first out: what was taken out is a prefix of what was put in, and the rest is in the ring. */
    ghost predicate Valid()
      reads this, data
    {
      && data.Length == PIPESIZE && dequeued <= enqueued && |enqueued| - |dequeued| <= PIPESIZE
      && nread == Wrap(|dequeued|) && nwrite == Wrap(|enqueued|)
      && InRing(data[..], |dequeued|, enqueued)
    }

    ghost function Now(): Moment
      reads this
    {
      Moment(enqueued, dequeued, readopen, writeopen, readers, writers)
    }

    ghost predicate Quiet()
      reads this
    {
      Settled(Now()) && !Stranded(Now())
    }

    /** pipealloc */
    constructor ()
      ensures Valid() && Quiet() && fresh(data) && readopen && writeopen && readers == {} && writers == {}
      ensures enqueued == [] && dequeued == []
    {
      data := new nat[PIPESIZE](_ => 0);
      nread, nwrite, readopen, writeopen, readers, writers := 0, 0, true, true, {}, {};
      enqueued, dequeued := [], [];
    }

    method Close(writable: bool)
      requires Valid()
      modifies this`readopen, this`writeopen, this`readers, this`writers
      ensures Valid() && (old(Settled(Now())) ==> Settled(Now()))
      ensures enqueued == old(enqueued) && dequeued == old(dequeued)
      ensures if writable then !writeopen && readopen == old(readopen) && readers == {} && writers == old(writers)
              else !readopen && writeopen == old(writeopen) && writers == {} && readers == old(readers)
    {
      if writable {
        writeopen := false;
        readers := {};
      } else {
        readopen := false;
        writers := {};
      }
    }

    /** pi->data[pi->nwrite++ % PIPESIZE] = ch */
    method PutByte(ch: nat)
      requires Valid() && |enqueued| - |dequeued| < PIPESIZE
      modifies data, this`nwrite, this`enqueued
      ensures Valid() && enqueued == old(enqueued) + [ch]
    {
      ghost var n := |enqueued|;
      SlotOfCounter(n);
      Shifted(n, 1);
      data[nwrite % PIPESIZE] := ch;
      nwrite := (nwrite + 1) % UINT;
      enqueued := enqueued + [ch];
      forall k | |dequeued| <= k < |enqueued|
        ensures data[..][Slot(k)] == enqueued[k]
      {
        if k < n { SlotsApart(k, n); }
      }
    }

    /** A turn of pipewrite(addr, n) by process p, with i0 bytes done in earlier turns.  The bytes at addr are src;
        good of them can be read; killed is set before byte `kill` is written. */
    method WriteTurn(p: nat, src: seq<nat>, i0: nat, good: nat, kill: nat) returns (r: Outcome)
      requires Valid() && i0 <= |src| && p !in readers && p !in writers
      modifies this, data
      ensures Valid() && dequeued == old(dequeued) && readopen == old(readopen) && writeopen == old(writeopen)
      ensures var space := PIPESIZE - (|old(enqueued)| - |dequeued|);
              var done := WriteStop(|src|, i0, space, good, kill, readopen);
              && i0 <= done <= |src| && enqueued == old(enqueued) + src[i0..done]
              && r == WriteOutcome(|src|, i0, space, good, kill, readopen)
              && writers == (if r.Asleep? then old(writers) + {p} else old(writers))
              && readers == (if r == Returned(-1) then old(readers) else {})
      ensures old(Settled(Now())) ==> Settled(Now())
      ensures Stranded(Now()) <==>
                r == Returned(-1) && old(readers) != {} && (old(Stranded(Now())) || enqueued != old(enqueued))
    {
      hide Slot, Wrap, InRing, WriteStop, WriteOutcome;
      var i := i0;
      ghost var space := PIPESIZE - (|enqueued| - |dequeued|);
      assert src[i0..i0] == [];
      while i < |src|
        invariant i0 <= i <= |src| && Valid() && dequeued == old(dequeued)
        invariant readers == old(readers) && writers == old(writers) && readopen == old(readopen)
                  && writeopen == old(writeopen)
        invariant enqueued == old(enqueued) + src[i0..i]
        invariant i > i0 ==> readopen && i <= kill && i <= good
      {
        if !readopen || kill <= i {
          WriteEnds(|src|, i0, space, good, kill, readopen, i, Returned(-1));
          return Returned(-1);
        }
        Counters(|dequeued|, |enqueued|);
        if nwrite == (nread + PIPESIZE) % UINT {
          WriteEnds(|src|, i0, space, good, kill, readopen, i, Asleep(i));
          readers := {};
          writers := writers + {p};
          return Asleep(i);
        } else {
          if good <= i {
            break;
          }
          OneMore(src, i0, i);
          PutByte(src[i]);
          i := i + 1;
        }
      }
      WriteEnds(|src|, i0, space, good, kill, readopen, i, Returned(i));
      readers := {};
      return Returned(i);
    }

    /** A turn of piperead(addr, n) by process p.  room is how many bytes can be copied out; killed says whether p was
        killed. */
    method ReadTurn(p: nat, n: nat, room: nat, killed: bool) returns (r: Outcome, dst: seq<nat>)
      requires Valid() && p !in readers && p !in writers
      modifies this
      ensures Valid() && enqueued == old(enqueued) && readopen == old(readopen) && writeopen == old(writeopen)
      ensures var full := |enqueued| - |old(dequeued)|;
              if full == 0 && writeopen then
                && dequeued == old(dequeued) && dst == [] && writers == old(writers)
                && (if killed then r == Returned(-1) && readers == old(readers)
                    else r == Asleep(0) && readers == old(readers) + {p})
              else
                && dst == enqueued[|old(dequeued)|..|old(dequeued)| + Min(Min(n, full), room)] && r == Returned(|dst|)
                && dequeued == enqueued[..|old(dequeued)| + Min(Min(n, full), room + 1)]
                && writers == {} && readers == old(readers)
      ensures old(Settled(Now())) ==> Settled(Now())
      ensures old(Settled(Now())) ==> (Stranded(Now()) <==> old(readers) != {} && dequeued != enqueued)
    {
      hide Slot, Wrap, InRing;
      dst := [];
      Counters(|dequeued|, |enqueued|);
      if nread == nwrite && writeopen {
        if killed {
          return Returned(-1), dst;
        }
        readers := readers + {p};
        return Asleep(0), dst;
      }
      ghost var d0, full := |dequeued|, |enqueued| - |dequeued|;
      var i := 0;
      while i < n
        invariant i <= n && i <= full && i <= room && Valid() && enqueued == old(enqueued)
        invariant readers == old(readers) && writers == old(writers) && readopen == old(readopen)
                  && writeopen == old(writeopen)
        invariant dequeued == enqueued[..d0 + i] && dst == enqueued[d0..d0 + i]
      {
        Counters(|dequeued|, |enqueued|);
        if nread == nwrite {
          break;
        }
        var ch := TakeByte();
        if i == room {
          break;
        }
        OneMore(enqueued, d0, d0 + i);
        dst := dst + [ch];
        i := i + 1;
      }
      writers := {};
      return Returned(i), dst;
    }

    /** kill: a sleeping process is made to run again. */
    method Wake(p: nat)
      requires Valid()
      modifies this`readers, this`writers
      ensures Valid() && (old(Settled(Now())) ==> Settled(Now()))
      ensures readers == old(readers) - {p} && writers == old(writers) - {p} && enqueued == old(enqueued)
              && dequeued == old(dequeued)
    {
      readers, writers := readers - {p}, writers - {p};
    }

    /** ch = pi->data[pi->nread++ % PIPESIZE] */
    method TakeByte() returns (ch: nat)
      requires Valid() && |dequeued| < |enqueued|
      modifies this`nread, this`dequeued
      ensures Valid() && ch == enqueued[|old(dequeued)|] && dequeued == enqueued[..|old(dequeued)| + 1]
    {
      SlotOfCounter(|dequeued|);
      Shifted(|dequeued|, 1);
      ch := data[nread % PIPESIZE];
      nread := (nread + 1) % UINT;
      dequeued := enqueued[..|dequeued| + 1];
    }
  }

  datatype Turn =
    | Write(p: nat, src: seq<nat>, i: nat, good: nat, kill: nat)
    | Read(p: nat, n: nat, room: nat, killed: bool)
    | Shut(writable: bool)
    | Kill(p: nat)

  predicate Sleeps(a: Moment, p: nat) {
    p in a.readers || p in a.writers
  }

  /** Whether a turn leaves a reader asleep on a pipe that holds bytes, as told by the moment before it: a pipewrite
      that returns -1 wakes nobody, and a piperead that leaves bytes wakes no other reader. */
  ghost predicate Strands(a: Moment, t: Turn) {
    match t
    case Write(p, src, i, good, kill) =>
      if Sleeps(a, p) || i > |src| || a.Full() > PIPESIZE then Stranded(a)
      else
        var space := PIPESIZE - a.Full();
        && a.readers != {} && WriteOutcome(|src|, i, space, good, kill, a.readopen) == Returned(-1)
        && (Stranded(a) || WriteStop(|src|, i, space, good, kill, a.readopen) > i)
    case Read(p, n, room, _) =>
      if Sleeps(a, p) || a.Full() < 0 then Stranded(a) else a.readers != {} && Min(n, room + 1) < a.Full()
    case Shut(writable) => !writable && Stranded(a)
    case Kill(p) => a.readers - {p} != {} && Stranded(a)
  }

  /** One turn of one process; one of a process that is asleep cannot be taken. */
  method Take(pi: PipeBuffer, t: Turn)
    requires pi.Valid() && Settled(pi.Now()) && (t.Write? ==> t.i <= |t.src|)
    modifies pi, pi.data
    ensures pi.Valid() && Settled(pi.Now()) && (Stranded(pi.Now()) <==> Strands(old(pi.Now()), t))
    ensures old(pi.enqueued) <= pi.enqueued && old(pi.dequeued) <= pi.dequeued <= pi.enqueued
  {
    match t
    case Write(p, src, i, good, kill) =>
      if p !in pi.readers && p !in pi.writers {
        var r := pi.WriteTurn(p, src, i, good, kill);
      }
    case Read(p, n, room, killed) =>
      if p !in pi.readers && p !in pi.writers {
        var r, dst := pi.ReadTurn(p, n, room, killed);
      }
    case Shut(writable) => pi.Close(writable);
    case Kill(p) => pi.Wake(p);
  }

  /** Any sequence of turns.  `moments` are the releases of the lock; after each one it is known exactly
      whether a reader is stranded. */
  method Run(pi: PipeBuffer, turns: seq<Turn>) returns (ghost moments: seq<Moment>)
    requires pi.Valid() && Settled(pi.Now()) && forall k :: 0 <= k < |turns| && turns[k].Write? ==>
               turns[k].i <= |turns[k].src|
    modifies pi, pi.data
    ensures pi.Valid() && old(pi.enqueued) <= pi.enqueued && old(pi.dequeued) <= pi.dequeued <= pi.enqueued
    ensures |moments| == |turns| + 1 && moments[0] == old(pi.Now()) && moments[|turns|] == pi.Now()
    ensures IsRun(moments, turns)
  {
    moments := [pi.Now()];
    for k := 0 to |turns|
      invariant pi.Valid() && Settled(pi.Now()) && old(pi.enqueued) <= pi.enqueued && old(pi.dequeued) <= pi.dequeued
      invariant |moments| == k + 1 && moments[0] == old(pi.Now()) && moments[k] == pi.Now()
      invariant IsRun(moments, turns[..k])
    {
      ghost var a := pi.Now();
      Take(pi, turns[k]);
      moments := moments + [pi.Now()];
    }
    assert turns[..|turns|] == turns;
  }

  ghost predicate IsRun(moments: seq<Moment>, turns: seq<Turn>) {
    && |moments| == |turns| + 1 && (forall k :: 0 <= k <= |turns| ==> Settled(moments[k]))
    && forall k :: 0 <= k < |turns| ==> (Stranded(moments[k + 1]) <==> Strands(moments[k], turns[k]))
  }

  /** A stranded reader goes back to a pipewrite that returned -1 after putting bytes in, with that reader or another
      asleep; since then no turn woke the readers or emptied the pipe. */
  lemma {:induction false} WhoStrands(moments: seq<Moment>, turns: seq<Turn>, n: nat) returns (k: nat)
    requires IsRun(moments, turns) && !Stranded(moments[0]) && n <= |turns| && Stranded(moments[n])
    ensures k < n && turns[k].Write? && !Stranded(moments[k]) && moments[k].readers != {} && moments[k].Full() == 0
    ensures var t, a := turns[k], moments[k];
            && WriteStop(|t.src|, t.i, PIPESIZE, t.good, t.kill, a.readopen) > t.i
            && WriteOutcome(|t.src|, t.i, PIPESIZE, t.good, t.kill, a.readopen) == Returned(-1)
    ensures forall j :: k < j <= n ==> Stranded(moments[j])
    decreases n
  {
    hide WriteStop, WriteOutcome;
    if Stranded(moments[n - 1]) {
      k := WhoStrands(moments, turns, n - 1);
    } else {
      k := n - 1;
      assert Strands(moments[k], turns[k]);
    }
  }

  /** A writer killed after its first byte returns without waking the reader: process 1 sleeps on a pipe that holds a
      byte. */
  method StrandedReader() returns (pi: PipeBuffer)
    ensures fresh(pi) && pi.readers == {1} && pi.enqueued == [7] && pi.dequeued == [] && !pi.Quiet()
  {
    pi := new PipeBuffer();
    var r, dst := pi.ReadTurn(1, 1, 1, false);
    r := pi.WriteTurn(2, [7, 8], 0, 2, 1);
  }
}
