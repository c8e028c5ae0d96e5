/**
 The stepper of `src/stepper.c`: queued moves, the three step event variants, the
 direction toggles and the position kept, with a sign trick, in one 32-bit word.

 A Pulse is one step: the instant at which it is due and the level of the
 direction pin. What a stepper will do is a sequence of pulses, its Future; what
 it has done is the ghost log `emitted`.
 */
module Steppers {
  import opened Ticks

  const POSITION_BIAS := 0x4000_0000

  datatype Variant = Edge | Avr | Full

  datatype Pulse = Pulse(due: uint32, dir: bool)

  /** One `struct stepper_move`; `toggle` is its flag MF_DIR. */
  datatype StepMove = StepMove(interval: uint32, add: int, count: nat, toggle: bool)

  ghost predicate MoveOk(m: StepMove) {
    0 < m.count < 0x1_0000 && -0x8000 <= m.add < 0x8000
  }

  // ----- pulses of moves ---------------------------------------------------------------

  /** `n` pulses, the first due at `next`, the gap growing by `add` from `interval`. */
  ghost function Chain(next: uint32, interval: uint32, add: int, n: nat, dir: bool): (ps: seq<Pulse>)
    ensures |ps| == n
    decreases n
  {
    if n == 0 then []
    else [Pulse(next, dir)] + Chain(Wrap(next + interval), Wrap(interval + add), add, n - 1, dir)
  }

  /** The pulses of a move that starts from instant `base`. */
  ghost function MovePulses(base: uint32, m: StepMove, dir: bool): (ps: seq<Pulse>)
    ensures |ps| == m.count
  {
    Chain(Wrap(base + m.interval), Wrap(m.interval + m.add), m.add, m.count, dir)
  }

  /** The instant of the last of the pulses `ps`, or `base` if there is none. */
  ghost function EndOf(base: uint32, ps: seq<Pulse>): uint32 {
    if ps == [] then base else ps[|ps| - 1].due
  }

  ghost function DirAfter(dir: bool, mq: seq<StepMove>): bool
    decreases |mq|
  {
    if mq == [] then dir else DirAfter(dir != mq[0].toggle, mq[1..])
  }

  /** The pulses of queued moves, from instant `base` with direction pin `dir`. */
  ghost function QueuePulses(base: uint32, dir: bool, mq: seq<StepMove>): seq<Pulse>
    decreases |mq|
  {
    if mq == [] then []
    else
      var first := MovePulses(base, mq[0], dir != mq[0].toggle);
      first + QueuePulses(EndOf(base, first), dir != mq[0].toggle, mq[1..])
  }

  /** 0 + 1 + ... + (k - 1). */
  ghost function SumBelow(k: nat): nat {
    if k == 0 then 0 else SumBelow(k - 1) + (k - 1)
  }

  lemma {:induction false} Triangle(k: nat)
    ensures 2 * SumBelow(k) == k * (k - 1)
  {
    if k > 0 {
      Triangle(k - 1);
      assert k * (k - 1) == (k - 1) * (k - 2) + 2 * (k - 1);
    }
  }

  lemma WrapAdd(a: int, b: int)
    ensures Wrap(Wrap(a) + Wrap(b)) == Wrap(a + b)
  {
  }

  lemma {:induction false} ChainTimes(next: int, interval: int, add: int, n: nat, dir: bool, k: nat)
    requires k < n
    ensures Chain(Wrap(next), Wrap(interval), add, n, dir)[k]
            == Pulse(Wrap(next + k * interval + add * SumBelow(k)), dir)
    decreases k
  {
    if k > 0 {
      WrapAdd(next, interval);
      WrapSum(interval, add);
      ChainTimes(next + interval, interval + add, add, n - 1, dir, k - 1);
      ChainShift(next, interval, add, k);
      hide Wrap, SumBelow;
    }
  }

  lemma ChainShift(next: int, interval: int, add: int, k: nat)
    requires k > 0
    ensures (next + interval) + (k - 1) * (interval + add) + add * SumBelow(k - 1)
            == next + k * interval + add * SumBelow(k)
  {
    var t := SumBelow(k - 1);
    assert add * (t + (k - 1)) == add * t + add * (k - 1);
    assert (k - 1) * (interval + add) == (k - 1) * interval + (k - 1) * add;
    assert k * interval == interval + (k - 1) * interval;
  }

  /**
   Step `k` of a move (the first is step 1) is due at the instant the host
   planned, base + k * interval + add * k * (k - 1) / 2, modulo 2^32.
   */
  lemma IdealTimes(base: uint32, m: StepMove, dir: bool, k: nat)
    requires 1 <= k <= m.count
    ensures MovePulses(base, m, dir)[k - 1]
            == Pulse(Wrap(base + k * m.interval + m.add * (k * (k - 1) / 2)), dir)
  {
    hide Wrap, Chain, SumBelow;
    ChainTimes(base + m.interval, m.interval + m.add, m.add, m.count, dir, k - 1);
    ChainShift(base, m.interval, m.add, k);
    HalfOf(k);
  }

  lemma HalfOf(k: nat)
    ensures k * (k - 1) / 2 == SumBelow(k)
  {
    Triangle(k);
  }

  /** Queueing a move puts its pulses behind those already queued. */
  lemma {:induction false} QueueAppends(base: uint32, dir: bool, mq: seq<StepMove>, m: StepMove)
    ensures var ps := QueuePulses(base, dir, mq);
            QueuePulses(base, dir, mq + [m]) ==
            ps + MovePulses(EndOf(base, ps), m, DirAfter(dir, mq) != m.toggle)
    decreases |mq|
  {
    hide MovePulses, EndOf;
    if mq == [] {
      assert mq + [m] == [m];
      assert [m][1..] == [];
      EndOfNone(base);
    } else {
      var d := dir != mq[0].toggle;
      var first := MovePulses(base, mq[0], d);
      var b := EndOf(base, first);
      var rest := QueuePulses(b, d, mq[1..]);
      QueueAppends(b, d, mq[1..], m);
      assert (mq + [m])[1..] == mq[1..] + [m];
      EndOfParts(base, first, rest);
      var last := MovePulses(EndOf(b, rest), m, DirAfter(dir, mq) != m.toggle);
      assert first + (rest + last) == (first + rest) + last;
    }
  }

  lemma EndOfNone(base: uint32)
    ensures EndOf(base, []) == base
  {
  }

  lemma EndOfSame(b: uint32, c: uint32, ps: seq<Pulse>)
    requires ps != []
    ensures EndOf(b, ps) == EndOf(c, ps)
  {
  }

  lemma EndOfParts(base: uint32, a: seq<Pulse>, b: seq<Pulse>)
    ensures EndOf(EndOf(base, a), b) == EndOf(base, a + b)
  {
  }

  lemma {:induction false} DirAppends(dir: bool, mq: seq<StepMove>, m: StepMove)
    ensures DirAfter(dir, mq + [m]) == (DirAfter(dir, mq) != m.toggle)
    decreases |mq|
  {
    if mq == [] {
      assert mq + [m] == [m];
      assert [m][1..] == [];
    } else {
      DirAppends(dir != mq[0].toggle, mq[1..], m);
      assert (mq + [m])[1..] == mq[1..] + [m];
    }
  }

  // ----- position ----------------------------------------------------------------------

  /** Pulses with the direction pin set minus pulses with it clear. */
  ghost function Net(ps: seq<Pulse>): int {
    if ps == [] then 0
    else Net(ps[..|ps| - 1]) + (if ps[|ps| - 1].dir then 1 else -1)
  }

  /** The net travel has never been more than 2^30 from the origin. */
  ghost predicate InRange(ps: seq<Pulse>) {
    forall n :: 0 <= n <= |ps| ==> -POSITION_BIAS <= Net(ps[..n]) <= POSITION_BIAS
  }

  lemma RangeShrinks(ps: seq<Pulse>, p: Pulse)
    ensures InRange(ps + [p]) ==> InRange(ps)
  {
    hide Net;
    assert forall n :: 0 <= n <= |ps| ==> (ps + [p])[..n] == ps[..n];
  }

  lemma RangeNow(ps: seq<Pulse>)
    requires InRange(ps)
    ensures -POSITION_BIAS <= Net(ps) <= POSITION_BIAS
  {
    assert ps[..|ps|] == ps;
  }

  lemma {:induction false} NetBound(ps: seq<Pulse>)
    ensures -|ps| <= Net(ps) <= |ps|
  {
    if ps != [] {
      NetBound(ps[..|ps| - 1]);
    }
  }

  /** A stepper that has made at most 2^30 steps is in range. */
  lemma FewSteps(ps: seq<Pulse>)
    requires |ps| <= POSITION_BIAS
    ensures InRange(ps)
  {
    forall n | 0 <= n <= |ps|
      ensures -POSITION_BIAS <= Net(ps[..n]) <= POSITION_BIAS
    {
      NetBound(ps[..n]);
    }
  }

  /** How a position is kept: its bias-shifted value, negated while the direction pin is clear. */
  ghost function Encoded(dir: bool, pos: int): uint32 {
    if dir then Wrap(POSITION_BIAS + pos) else Wrap(-(POSITION_BIAS + pos))
  }

  /** The decoding at the end of `stepper_get_position`. */
  function Decoded(word: uint32): uint32 {
    if word >= HALF then Wrap(0 - word) else word
  }

  /** The reported position is right, modulo 2^32, exactly while it is at most 2^30 from the origin, modulo 2^32. */
  lemma ReportExact(dir: bool, pos: int)
    ensures Decoded(Encoded(dir, pos)) == Wrap(POSITION_BIAS + pos) <==> Wrap(POSITION_BIAS + pos) <= HALF
  {
    var w: int := Wrap(POSITION_BIAS + pos);
    assert Wrap(-(POSITION_BIAS + pos)) == if w == 0 then 0 else WORD - w;
    assert Wrap(0 - w) == if w == 0 then 0 else WORD - w;
  }

  /** Within 2^30 of the origin the report is the position itself. */
  lemma ReportInRange(dir: bool, pos: int)
    requires -POSITION_BIAS <= pos <= POSITION_BIAS
    ensures Signed(Wrap(Decoded(Encoded(dir, pos)) - POSITION_BIAS)) == pos
    ensures Decoded(Encoded(dir, pos)) == POSITION_BIAS + pos
  {
    ReportExact(dir, pos);
  }

  // ----- the stepper -------------------------------------------------------------------

  datatype EventResult = Finished | Rescheduled | TooFarInPast

  class Stepper {
    const variant: Variant
    const stepPulseTicks: uint32
    const tooFarTicks: int          // timer_from_us(1000)
    var waketime: uint32
    var interval: uint32
    var add: int
    var count: uint32
    var nextStepTime: uint32
    var position: uint32
    var mq: seq<StepMove>
    var lastDir: bool               // SF_LAST_DIR
    var nextDir: bool               // SF_NEXT_DIR
    var needReset: bool             // SF_NEED_RESET
    var haveAdd: bool               // SF_HAVE_ADD
    var dirPin: bool
    ghost var emitted: seq<Pulse>
    ghost var tracked: int          // the position the stepper believes in

    ghost function Remaining(): nat
      reads this`count
    {
      if variant.Full? then count / 2 else count
    }

    /** The double scheduled variant has stepped and still has to end the pulse. */
    ghost predicate Mid()
      reads this`count
    {
      variant.Full? && count % 2 == 1
    }

    /** The instant the next move is timed from, once the current one has no pulses left. */
    ghost function Anchor(): uint32
      reads this`waketime, this`nextStepTime
    {
      if variant.Full? then nextStepTime else waketime
    }

    /** The pulses left of the current move, at direction `dir`. */
    ghost function Left(dir: bool): (ps: seq<Pulse>)
      reads this`waketime, this`nextStepTime, this`interval, this`add, this`count
      ensures |ps| == Remaining()
    {
      if !variant.Full? then Chain(waketime, interval, add, count, dir)
      else if count % 2 == 0 then Chain(nextStepTime, interval, add, count / 2, dir)
      else Chain(Wrap(nextStepTime + interval), Wrap(interval + add), add, count / 2, dir)
    }

    ghost function Current(): (ps: seq<Pulse>)
      reads this
      ensures |ps| == Remaining()
    {
      Left(dirPin)
    }

    /** All pulses the stepper will emit if nothing more is queued. */
    ghost function Future(): seq<Pulse>
      reads this
    {
      Current() + QueuePulses(EndOf(Anchor(), Current()), dirPin, mq)
    }

    /** The instant the next queued move is timed from. */
    ghost function End(): uint32
      reads this
    {
      EndOf(Anchor(), Future())
    }

    /** What does not depend on the current move. */
    ghost predicate Core()
      reads this
    {
      && (forall i :: 0 <= i < |mq| ==> MoveOk(mq[i]))
      && lastDir == DirAfter(dirPin, mq)
      && (InRange(emitted) ==> tracked == Net(emitted))
    }

    ghost predicate Valid()
      reads this
    {
      && Core()
      && Remaining() < 0x1_0000
      && (count == 0 ==> mq == []) && (needReset ==> count == 0)
      && position == Encoded(dirPin, Ahead(dirPin, tracked, Remaining()))
      && (variant.Avr? && count > 0 ==> haveAdd == (add != 0))
      && (variant.Full? && count > 0 && count % 2 == 0 ==> waketime == nextStepTime || IsBefore(nextStepTime, waketime))
    }

    /** No move is loaded, and none will be before `reset_step_clock`. */
    ghost predicate Stopped()
      reads this
    {
      needReset && count == 0
    }

    constructor (variant: Variant, stepPulseTicks: uint32, tooFarTicks: int)
      ensures Valid() && emitted == [] && tracked == 0 && count == 0 && !needReset && !nextDir
      ensures Future() == [] && End() == 0
      ensures this.variant == variant && this.stepPulseTicks == stepPulseTicks && this.tooFarTicks == tooFarTicks
    {
      this.variant, this.stepPulseTicks, this.tooFarTicks := variant, stepPulseTicks, tooFarTicks;
      waketime, interval, add, count, nextStepTime := 0, 0, 0, 0, 0;
      position := Wrap(-POSITION_BIAS);
      mq := [];
      lastDir, nextDir, needReset, haveAdd, dirPin := false, false, false, false, false;
      emitted, tracked := [], 0;
    }

    /** The timing of the next move: its first step is due `m.interval` after the last one. */
    method LoadTiming(m: StepMove)
      requires MoveOk(m)
      modifies this`add, this`interval, this`waketime, this`nextStepTime, this`count, this`haveAdd
      ensures Remaining() == m.count && count > 0
      ensures forall dir :: Left(dir) == MovePulses(old(Anchor()), m, dir)
      ensures variant.Avr? ==> haveAdd == (add != 0)
      ensures variant.Full? ==> count % 2 == 0 && waketime == nextStepTime
    {
      hide Wrap, Chain;
      add := m.add;
      interval := Wrap(m.interval + m.add);
      if !variant.Full? {
        waketime := Wrap(waketime + m.interval);
        if variant.Avr? {
          haveAdd := m.add != 0;
        }
        count := m.count;
      } else {
        nextStepTime := Wrap(nextStepTime + m.interval);
        waketime := nextStepTime;
        count := m.count * 2;
      }
    }

    /** All steps of the next move are added to the position at once. */
    method LoadPosition(m: StepMove)
      requires position == Encoded(dirPin, tracked)
      modifies this`position, this`dirPin
      ensures dirPin == (old(dirPin) != m.toggle)
      ensures position == Encoded(dirPin, Ahead(dirPin, tracked, m.count))
    {
      hide Wrap, Encoded, Ahead;
      if m.toggle {
        EncodedToggles(dirPin, tracked, m.count);
        position := Wrap(m.count - position);
        dirPin := !dirPin;
      } else {
        EncodedKeeps(dirPin, tracked, m.count);
        position := Wrap(position + m.count);
      }
    }

    /** `stepper_load_next`: the next move becomes the current one. */
    method LoadNext() returns (done: bool)
      requires Core() && position == Encoded(dirPin, tracked) && !needReset
      modifies this`add, this`interval, this`waketime, this`nextStepTime, this`count, this`position,
               this`mq, this`haveAdd, this`dirPin
      ensures Valid() && done == (old(mq) == []) && (done <==> count == 0)
      ensures Future() == QueuePulses(old(Anchor()), old(dirPin), old(mq))
      ensures variant.Full? && !done ==> count % 2 == 0 && waketime == nextStepTime
      ensures done ==> Anchor() == old(Anchor())
    {
      hide Wrap, IsBefore, Chain, Net, Encoded, EndOf, Ahead, Left, MovePulses;
      AheadNone(dirPin, tracked);
      EndOfNone(Anchor());
      if mq == [] {
        count := 0;
        return true;
      }
      var m := mq[0];
      mq := mq[1..];
      ghost var base := Anchor();
      LoadTiming(m);
      LoadPosition(m);
      EndOfSame(base, Anchor(), Current());
      done := false;
    }

    /** One step: a pulse on the step pin, at the current direction. */
    ghost method Emit(due: uint32)
      modifies this`emitted, this`tracked
      ensures emitted == old(emitted) + [Pulse(due, dirPin)]
      ensures tracked == Ahead(dirPin, old(tracked), 1)
      ensures old(InRange(emitted) ==> tracked == Net(emitted)) ==> (InRange(emitted) ==> tracked == Net(emitted))
    {
      RangeShrinks(emitted, Pulse(due, dirPin));
      emitted := emitted + [Pulse(due, dirPin)];
      tracked := Ahead(dirPin, tracked, 1);
      assert emitted[..|emitted| - 1] == old(emitted);
    }

    /** What one step does: the first pulse of the future has been emitted. */
    ghost predicate Stepped(future: seq<Pulse>, before: seq<Pulse>)
      reads this
    {
      && future != [] && emitted == before + [future[0]] && Future() == future[1..]
      && End() == EndOf(0, future)
    }

    /** A step inside a move: `left` more follow, and `gap` comes after the next one. */
    method StepOn(left: uint32, gap: uint32)
      requires Valid() && !variant.Full? && count > 1 && left == count - 1 && gap == Wrap(interval + add)
      modifies this`waketime, this`interval, this`count, this`emitted, this`tracked
      ensures Valid() && Stepped(old(Future()), old(emitted)) && count > 0
    {
      hide Wrap, IsBefore, Net, InRange, Encoded, QueuePulses, DirAfter, Ahead;
      ghost var cur := Current();
      SplitFuture(cur, Anchor(), dirPin, mq);
      AheadStep(dirPin, tracked, count);
      Emit(waketime);
      count := left;
      waketime := Wrap(waketime + interval);
      interval := gap;
      TailFuture(cur, old(Anchor()), Anchor(), dirPin, mq);
      EndStep(old(Future()), Anchor());
    }

    /** The last step of a move. */
    method StepLast() returns (done: bool)
      requires Valid() && !variant.Full? && count == 1
      modifies this`waketime, this`interval, this`add, this`count, this`nextStepTime, this`position, this`mq,
               this`haveAdd, this`dirPin, this`emitted, this`tracked
      ensures Valid() && Stepped(old(Future()), old(emitted)) && (done <==> count == 0)
    {
      hide Wrap, IsBefore, Net, InRange, Encoded, QueuePulses, DirAfter, Ahead;
      SplitFuture(Current(), Anchor(), dirPin, mq);
      AheadStep(dirPin, tracked, count);
      Emit(waketime);
      done := LoadNext();
      EndStep(old(Future()), Anchor());
    }

    /** `stepper_event_edge`: every edge of the step pin is a step. */
    method EventEdge() returns (done: bool)
      requires Valid() && variant.Edge? && count > 0
      modifies this`waketime, this`interval, this`add, this`count, this`nextStepTime, this`position, this`mq,
               this`haveAdd, this`dirPin, this`emitted, this`tracked
      ensures Valid() && Stepped(old(Future()), old(emitted)) && (done <==> count == 0)
    {
      hide *;
      var left := count - 1;
      if left > 0 {
        StepOn(left, Wrap(interval + add));
        done := false;
      } else {
        done := StepLast();
      }
    }

    /** `stepper_event_avr`: a whole pulse per event, on a 16-bit counter. */
    method EventAvr() returns (done: bool)
      requires Valid() && variant.Avr? && count > 0
      modifies this`waketime, this`interval, this`add, this`count, this`nextStepTime, this`position, this`mq,
               this`haveAdd, this`dirPin, this`emitted, this`tracked
      ensures Valid() && Stepped(old(Future()), old(emitted)) && (done <==> count == 0)
    {
      hide *;
      AvrFacts();
      var left := (count - 1) % 0x1_0000;
      if left > 0 {
        StepOn(left, if haveAdd then Wrap(interval + add) else interval);
        done := false;
      } else {
        done := StepLast();
      }
    }

    lemma AvrFacts()
      requires Valid() && variant.Avr? && count > 0
      ensures count < 0x1_0000 && (!haveAdd ==> Wrap(interval + add) == interval)
    {
    }

    /** The rising edge of the double scheduled event: the step itself. */
    method FullStep(minNextTime: uint32)
      requires Valid() && variant.Full? && count > 0 && count % 2 == 0
      modifies this`waketime, this`count, this`emitted, this`tracked
      ensures Valid() && Stepped(old(Future()), old(emitted)) && count > 0 && count % 2 == 1
      ensures waketime == minNextTime
    {
      hide Wrap, IsBefore, Net, InRange, Encoded, QueuePulses, DirAfter, Ahead;
      ghost var cur := Current();
      SplitFuture(cur, Anchor(), dirPin, mq);
      AheadStep(dirPin, tracked, count / 2);
      Emit(nextStepTime);
      count := count - 1;
      waketime := minNextTime;
      if |cur| > 1 {
        TailFuture(cur, Anchor(), Anchor(), dirPin, mq);
      } else {
        EndOfNone(Anchor());
      }
      EndStep(old(Future()), Anchor());
    }

    /** The falling edge inside a move: the next step is scheduled, but not before `minNextTime`. */
    method FullNext(minNextTime: uint32)
      requires Valid() && variant.Full? && count % 2 == 1 && count > 1
      modifies this`waketime, this`interval, this`count, this`nextStepTime
      ensures Valid() && Future() == old(Future()) && End() == old(End()) && count % 2 == 0 && count > 0
      ensures waketime == if IsBefore(nextStepTime, minNextTime) then minNextTime else nextStepTime
    {
      hide Wrap, IsBefore, Net, Encoded, QueuePulses, DirAfter, Ahead, Chain;
      count := count - 1;
      nextStepTime := Wrap(nextStepTime + interval);
      interval := Wrap(interval + add);
      EndOfSame(Anchor(), old(Anchor()), Current());
      if IsBefore(nextStepTime, minNextTime) {
        waketime := minNextTime;
      } else {
        waketime := nextStepTime;
      }
    }

    /** The falling edge at the end of a move: the next one is loaded, and pushed back if it is too close. */
    method FullLoad(minNextTime: uint32) returns (result: EventResult)
      requires Valid() && variant.Full? && count == 1
      modifies this`waketime, this`interval, this`add, this`count, this`nextStepTime, this`position, this`mq,
               this`haveAdd, this`dirPin
      ensures Valid() && Future() == old(Future()) && End() == old(End()) && count % 2 == 0
      ensures result.Finished? <==> count == 0
      ensures result.TooFarInPast? <==>
                count > 0 && IsBefore(nextStepTime, minNextTime) && Signed(Wrap(nextStepTime - minNextTime)) < -tooFarTicks
      ensures result.Rescheduled? ==>
                waketime == if IsBefore(nextStepTime, minNextTime) then minNextTime else nextStepTime
    {
      hide Wrap, IsBefore, Net, Encoded, QueuePulses, DirAfter, Ahead, Signed;
      EndOfNone(Anchor());
      AheadNone(dirPin, tracked);
      count := 0;
      var done := LoadNext();
      if done {
        return Finished;
      }
      if !IsBefore(waketime, minNextTime) {
        return Rescheduled;
      }
      if Signed(Wrap(waketime - minNextTime)) < -tooFarTicks {
        return TooFarInPast;
      }
      waketime := minNextTime;
      result := Rescheduled;
    }

    /**
     `stepper_event_full`: two events per step, at clock reading `curtime`. After
     an edge of the pin, the next one waits for `stepPulseTicks` at least; a step
     whose time has passed by more than `tooFarTicks` stops the machine.
     */
    method EventFull(curtime: uint32) returns (result: EventResult)
      requires Valid() && variant.Full? && count > 0
      modifies this`waketime, this`interval, this`add, this`count, this`nextStepTime, this`position, this`mq,
               this`haveAdd, this`dirPin, this`emitted, this`tracked
      ensures Valid() && (result.Finished? <==> count == 0)
      ensures old(count) % 2 == 0 ==> Stepped(old(Future()), old(emitted))
      ensures old(count) % 2 == 1 ==> Future() == old(Future()) && End() == old(End()) && emitted == old(emitted)
      ensures count % 2 != old(count) % 2
      ensures old(count) != 1 ==> result.Rescheduled?
      ensures var m := Wrap(curtime + stepPulseTicks);
              && (old(count) % 2 == 0 ==> waketime == m)
              && (old(count) % 2 == 1 && result.Rescheduled? ==>
                    waketime == if IsBefore(nextStepTime, m) then m else nextStepTime)
              && (result.TooFarInPast? <==>
                    && old(count) == 1 && count > 0
                    && IsBefore(nextStepTime, m) && Signed(Wrap(nextStepTime - m)) < -tooFarTicks)
    {
      hide *;
      var minNextTime := Wrap(curtime + stepPulseTicks);
      if count % 2 == 0 {
        FullStep(minNextTime);
        result := Rescheduled;
      } else if count > 1 {
        FullNext(minNextTime);
        result := Rescheduled;
      } else {
        result := FullLoad(minNextTime);
      }
    }

    // ----- commands ------------------------------------------------------------------------

    /**
     `queue_step`. The move goes behind the queued ones, in the direction set last,
     timed from the end of the pulses planned so far; a stopped stepper drops it.
     */
    method QueueStep(intervalArg: uint32, countArg: uint32, addArg: uint32) returns (ok: bool)
      requires Valid()
      modifies this`waketime, this`interval, this`add, this`count, this`nextStepTime, this`position, this`mq,
               this`haveAdd, this`dirPin, this`lastDir
      ensures Valid() && ok == (countArg % 0x1_0000 != 0)
      ensures !ok ==> Future() == old(Future()) && End() == old(End()) && count == old(count)
      ensures old(Stopped()) ==> Stopped() && Future() == old(Future()) == [] && End() == old(End()) && count == 0
      ensures ok && !old(Stopped()) ==>
                Future() == old(Future()) + MovePulses(old(End()),
                  StepMove(intervalArg, Int16(addArg), countArg % 0x1_0000, false), nextDir)
      ensures ok && !old(Stopped()) ==> count > 0 && Mid() == old(Mid())
    {
      hide *;
      IdleFuture();
      var n := countArg % 0x1_0000;
      if n == 0 {
        return false;
      }
      ok := true;
      var m := StepMove(intervalArg, Int16(addArg), n, lastDir != nextDir);
      SamePulses(m, StepMove(intervalArg, Int16(addArg), n, false), End(), nextDir);
      if count > 0 {
        QueueBehind(m);
      } else if needReset {
        // the move is dropped
      } else {
        QueueFirst(m);
      }
    }

    lemma IdleFuture()
      requires Valid()
      ensures count == 0 ==> Future() == [] && mq == [] && !Mid()
      ensures Stopped() <==> needReset && count == 0
    {
    }

    method QueueBehind(m: StepMove)
      requires Valid() && MoveOk(m) && m.toggle == (lastDir != nextDir) && count > 0
      modifies this`mq, this`lastDir
      ensures Valid() && Future() == old(Future()) + MovePulses(old(End()), m, nextDir)
    {
      hide Wrap, IsBefore, Net, Encoded, Ahead, Left, MovePulses, QueuePulses, EndOf, DirAfter;
      ghost var cur, b := Current(), EndOf(Anchor(), Current());
      QueueAppends(b, dirPin, mq, m);
      EndOfParts(Anchor(), cur, QueuePulses(b, dirPin, mq));
      PushMove(m);
    }

    method QueueFirst(m: StepMove)
      requires Valid() && MoveOk(m) && m.toggle == (lastDir != nextDir) && count == 0 && !needReset
      modifies this`waketime, this`interval, this`add, this`count, this`nextStepTime, this`position, this`mq,
               this`haveAdd, this`dirPin, this`lastDir
      ensures Valid() && Future() == old(Future()) + MovePulses(old(End()), m, nextDir) && count > 0 && !Mid()
    {
      hide Wrap, IsBefore, Net, Encoded, Ahead, MovePulses, DirAfter;
      AheadNone(dirPin, tracked);
      QueueAppends(Anchor(), dirPin, mq, m);
      PushMove(m);
      var done := LoadNext();
    }

    /** The move takes its place in the queue, and its direction becomes the last one queued. */
    method PushMove(m: StepMove)
      requires Core() && MoveOk(m) && m.toggle == (lastDir != nextDir)
      modifies this`mq, this`lastDir
      ensures Core() && lastDir == nextDir && mq == old(mq) + [m]
      ensures DirAfter(dirPin, old(mq)) != m.toggle <==> nextDir
    {
      hide Net, QueuePulses;
      DirAppends(dirPin, mq, m);
      lastDir := nextDir;
      mq := mq + [m];
    }

    method SetNextStepDir(dir: bool)
      requires Valid()
      modifies this`nextDir
      ensures Valid() && nextDir == dir && Future() == old(Future()) && End() == old(End())
    {
      nextDir := dir;
    }

    /** `reset_step_clock`: the next step is timed from `clock`. Refused while moving. */
    method ResetStepClock(clock: uint32) returns (ok: bool)
      requires Valid()
      modifies this`waketime, this`nextStepTime, this`needReset
      ensures Valid() && ok == (count == 0)
      ensures ok ==> !needReset && End() == clock && Future() == []
      ensures !ok ==> Future() == old(Future()) && End() == old(End())
    {
      if count > 0 {
        return false;
      }
      nextStepTime, waketime := clock, clock;
      needReset := false;
      ok := true;
    }

    /** `stepper_get_position`: steps not yet taken do not count. */
    method GetPosition() returns (word: uint32)
      requires Valid()
      ensures word == Decoded(Encoded(dirPin, tracked))
    {
      hide IsBefore, Net, Decoded, Left, QueuePulses, DirAfter;
      var left := if variant.Full? then count / 2 else count;
      EncodedBack(dirPin, tracked, left);
      word := Decoded(Wrap(position - left));
    }

    /** The reported position is the net number of steps emitted, mid-move or after a stop. */
    method ReportPosition() returns (pos: int)
      requires Valid()
      ensures InRange(emitted) ==> pos == Net(emitted)
    {
      hide IsBefore, Net, InRange, Decoded, Encoded, Left, QueuePulses, DirAfter, Wrap, Signed;
      var word := GetPosition();
      pos := Signed(Wrap(word - POSITION_BIAS));
      if InRange(emitted) {
        RangeNow(emitted);
        ReportInRange(dirPin, tracked);
      }
    }

    /** `stepper_stop`: everything planned is dropped; the pulses emitted so far keep counting. */
    method Stop()
      requires Valid()
      modifies this`waketime, this`nextStepTime, this`position, this`count, this`lastDir, this`nextDir,
               this`needReset, this`haveAdd, this`dirPin, this`mq, this`tracked
      ensures Valid() && Stopped() && Future() == [] && End() == 0 && !nextDir && count == 0
    {
      hide *;
      var word := GetPosition();
      StopFacts(word);
      tracked := word - POSITION_BIAS;
      nextStepTime, waketime := 0, 0;
      position := Wrap(0 - word);
      count := 0;
      lastDir, nextDir, haveAdd, needReset := false, false, false, true;
      dirPin := false;
      DropMoves();
      StopValid(word);
    }

    lemma StopFacts(word: uint32)
      requires Valid() && word == Decoded(Encoded(dirPin, tracked))
      ensures InRange(emitted) ==> word - POSITION_BIAS == Net(emitted)
    {
      if InRange(emitted) {
        RangeNow(emitted);
        ReportInRange(dirPin, tracked);
      }
    }

    lemma StopValid(word: uint32)
      requires InRange(emitted) ==> tracked == Net(emitted)
      requires position == Wrap(0 - word) && tracked == word - POSITION_BIAS
      requires count == 0 && !lastDir && !dirPin && needReset && mq == [] && waketime == nextStepTime == 0
      ensures Valid() && Stopped() && Future() == [] && End() == 0
    {
      StoppedPosition(word);
    }

    method DropMoves()
      modifies this`mq
      ensures mq == []
    {
      while mq != []
        modifies this`mq
        decreases |mq|
      {
        mq := mq[1..];
      }
    }
  }

  // ----- whole runs ----------------------------------------------------------------------

  datatype Command =
    | Queue(interval: uint32, count: uint32, add: uint32)
    | SetDir(dir: bool)
    | Event(curtime: uint32)          // the step timer fires, if it is pending
    | Ask                             // stepper_get_position
    | Halt                            // stepper_stop
    | ResetClock(clock: uint32)

  /** The pulses a command adds to the plan, timed from `end`, in direction `dir`. */
  ghost function Planned(end: uint32, dir: bool, c: Command): seq<Pulse> {
    match c
    case Queue(interval, count, add) =>
      if count % 0x1_0000 == 0 then []
      else MovePulses(end, StepMove(interval, Int16(add), count % 0x1_0000, false), dir)
    case _ => []
  }

  /**
   A stepper without timers and registers: pulses made, pulses planned, the instant the next
   move is timed from, the direction set last, whether it waits for a reset, and whether an
   event is still to come that only ends a pulse.
   */
  datatype Motor = Motor(emitted: seq<Pulse>, future: seq<Pulse>, end: uint32, dir: bool, stopped: bool, mid: bool)

  ghost function ViewOf(s: Stepper): Motor
    reads s
  {
    Motor(s.emitted, s.Future(), s.End(), s.nextDir, s.Stopped(), s.Mid())
  }

  /** What a command does. */
  ghost function Next(v: Variant, m: Motor, c: Command): Motor {
    match c
    case Queue(_, _, _) =>
      if m.stopped then m
      else
        var ps := Planned(m.end, m.dir, c);
        m.(future := m.future + ps, end := EndOf(m.end, ps))
    case SetDir(dir) => m.(dir := dir)
    case Event(_) =>
      if m.mid then m.(mid := false)
      else if m.future == [] then m
      else m.(emitted := m.emitted + [m.future[0]], future := m.future[1..], mid := v.Full?)
    case Ask => m
    case Halt => Motor(m.emitted, [], 0, false, true, false)
    case ResetClock(clock) =>
      if m.future != [] || m.mid then m else m.(end := clock, stopped := false)
  }

  ghost function Play(v: Variant, m: Motor, cs: seq<Command>): Motor {
    if cs == [] then m else Next(v, Play(v, m, cs[..|cs| - 1]), cs[|cs| - 1])
  }

  lemma PlayMore(v: Variant, m: Motor, cs: seq<Command>, k: nat)
    requires k < |cs|
    ensures Play(v, m, cs[..k + 1]) == Next(v, Play(v, m, cs[..k]), cs[k])
  {
    assert cs[..k + 1][..k] == cs[..k];
  }

  lemma EndAnywhere(s: Stepper)
    ensures s.Future() != [] ==> s.End() == EndOf(0, s.Future())
  {
  }

  /** A stepper is busy exactly while it has pulses to make or to end. */
  lemma Busy(s: Stepper)
    requires s.Valid()
    ensures s.count > 0 <==> s.Future() != [] || s.Mid()
    ensures s.count > 0 ==> !s.needReset
  {
  }

  /** The step timer fires. */
  method Fire(s: Stepper, curtime: uint32)
    requires s.Valid() && s.count > 0
    modifies s
    ensures s.Valid() && ViewOf(s) == Next(s.variant, old(ViewOf(s)), Event(curtime))
  {
    hide Wrap, IsBefore, Net, InRange, Encoded, Chain, QueuePulses, DirAfter, EndOf, Planned, MovePulses;
    hide s.Valid, s.Future, s.End;
    Busy(s);
    EndAnywhere(s);
    match s.variant {
      case Edge => var _ := s.EventEdge();
      case Avr => var _ := s.EventAvr();
      case Full => var _ := s.EventFull(curtime);
    }
  }

  method QueueCommand(s: Stepper, interval: uint32, count: uint32, add: uint32)
    requires s.Valid()
    modifies s
    ensures s.Valid() && ViewOf(s) == Next(s.variant, old(ViewOf(s)), Queue(interval, count, add))
  {
    hide Wrap, IsBefore, Net, InRange, Encoded, Chain, QueuePulses, DirAfter, EndOf, MovePulses, Int16;
    hide s.Valid, s.Future, s.End;
    Busy(s);
    EndOfNone(s.End());
    ghost var before, c := ViewOf(s), Queue(interval, count, add);
    EndAnywhere(s);
    var ok := s.QueueStep(interval, count, add);
    assert before.future + [] == before.future;
    Busy(s);
    EndAnywhere(s);
    EndPlanned(before, Planned(before.end, before.dir, c));
  }

  /** The end of a longer plan. */
  lemma EndPlanned(m: Motor, ps: seq<Pulse>)
    requires m.future != [] ==> m.end == EndOf(0, m.future)
    ensures m.future + ps != [] && (m.future == [] ==> ps != []) ==> EndOf(0, m.future + ps) == EndOf(m.end, ps)
  {
  }

  method Perform(s: Stepper, c: Command)
    requires s.Valid()
    modifies s
    ensures s.Valid() && ViewOf(s) == Next(s.variant, old(ViewOf(s)), c)
  {
    hide Wrap, IsBefore, Net, InRange, Encoded, Chain, QueuePulses, DirAfter, EndOf, Planned, MovePulses;
    hide s.Valid, s.Future, s.End;
    Busy(s);
    match c {
      case Queue(interval, count, add) => QueueCommand(s, interval, count, add);
      case SetDir(dir) => s.SetNextStepDir(dir);
      case Event(curtime) =>
        if s.count > 0 {
          Fire(s, curtime);
        }
      case Ask => var _ := s.ReportPosition();
      case Halt => s.Stop();
      case ResetClock(clock) => var _ := s.ResetStepClock(clock);
    }
  }

  /**
   Every run of a stepper, of any variant: the pulses made and to come, their times and
   directions, are those of the plain motor given the same commands, whenever the timer
   fires and however often a step is pushed back.
   */
  method Run(s: Stepper, cs: seq<Command>)
    requires s.Valid()
    modifies s
    ensures s.Valid() && ViewOf(s) == Play(s.variant, old(ViewOf(s)), cs)
  {
    hide Next, Play, ViewOf, s.Valid;
    assert cs[..0] == [];
    PlayNone(s.variant, ViewOf(s));
    for k := 0 to |cs|
      invariant s.Valid() && ViewOf(s) == Play(s.variant, old(ViewOf(s)), cs[..k])
    {
      PlayMore(s.variant, old(ViewOf(s)), cs, k);
      Perform(s, cs[k]);
    }
    assert cs[..|cs|] == cs;
  }

  lemma PlayNone(v: Variant, m: Motor)
    ensures Play(v, m, []) == m
  {
  }

  /**
   Position accounting over whole runs: after any commands, mid-move or after a stop, the
   reported position is the net number of pulses the plain motor has made, as long as that never was
   more than 2^30 from the origin.
   */
  method RunAndReport(s: Stepper, cs: seq<Command>) returns (pos: int)
    requires s.Valid()
    modifies s
    ensures s.Valid() && ViewOf(s) == Play(s.variant, old(ViewOf(s)), cs)
    ensures InRange(Play(s.variant, old(ViewOf(s)), cs).emitted) ==>
              pos == Net(Play(s.variant, old(ViewOf(s)), cs).emitted)
  {
    hide Play, InRange, Net, s.Valid;
    Run(s, cs);
    pos := s.ReportPosition();
  }

  // ----- what the plain motor does -------------------------------------------------------

  ghost function DirSet(dir: bool, c: Command): bool {
    if c.SetDir? then c.dir else dir
  }

  /** The pulses a list of commands adds to the plan. */
  ghost function Script(end: uint32, dir: bool, cs: seq<Command>): seq<Pulse>
    decreases |cs|
  {
    if cs == [] then []
    else
      var ps := Planned(end, dir, cs[0]);
      ps + Script(EndOf(end, ps), DirSet(dir, cs[0]), cs[1..])
  }

  /** Cs consists of commands that neither stop the stepper nor reset its clock. */
  ghost predicate Steady(cs: seq<Command>) {
    forall i :: 0 <= i < |cs| ==> !cs[i].Halt? && !cs[i].ResetClock?
  }

  ghost predicate NoReset(cs: seq<Command>) {
    forall i :: 0 <= i < |cs| ==> !cs[i].ResetClock?
  }

  /** A stopped motor emits nothing, whatever is queued, until its clock is reset. */
  lemma {:induction false} StaysStopped(v: Variant, m: Motor, cs: seq<Command>)
    requires m.stopped && m.future == [] && NoReset(cs)
    ensures var r := Play(v, m, cs); r.stopped && r.future == [] && r.emitted == m.emitted
  {
    if cs != [] {
      StaysStopped(v, m, cs[..|cs| - 1]);
    }
  }

  /** `reset_step_clock` after a stop times the next move from the clock given. */
  lemma RestartsAt(v: Variant, m: Motor, clock: uint32, interval: uint32, count: uint32, add: uint32)
    requires count % 0x1_0000 != 0
    ensures var r := Play(v, m, [Halt, ResetClock(clock), Queue(interval, count, add)]);
            && !r.stopped && r.emitted == m.emitted
            && r.future == MovePulses(clock, StepMove(interval, Int16(add), count % 0x1_0000, false), false)
  {
    var cs := [Halt, ResetClock(clock), Queue(interval, count, add)];
    assert cs[..2] == [Halt, ResetClock(clock)] && cs[..2][..1] == [Halt] && cs[..2][..1][..0] == [];
    var halted := Next(v, m, Halt);
    var reset := Next(v, halted, ResetClock(clock));
    PlayNone(v, m);
    PlayMore(v, m, cs, 0);
    PlayMore(v, m, cs, 1);
    PlayMore(v, m, cs, 2);
    assert cs[..3] == cs && cs[..0] == [];
    assert [] + Planned(clock, false, cs[2]) == Planned(clock, false, cs[2]);
  }

  /** Emitted and planned pulses together are what the commands planned, and nothing is reordered. */
  lemma {:induction false} WholePlan(v: Variant, m: Motor, cs: seq<Command>)
    requires !m.stopped && Steady(cs)
    ensures var r := Play(v, m, cs);
            && !r.stopped && m.emitted <= r.emitted
            && r.emitted + r.future == m.emitted + m.future + Script(m.end, m.dir, cs)
            && (r.end, r.dir) == ScriptEnd(m.end, m.dir, cs)
  {
    hide Next, Planned, EndOf, DirSet;
    if cs == [] {
      assert m.future + [] == m.future && m.emitted + m.future + [] == m.emitted + m.future;
    } else {
      var front, c := cs[..|cs| - 1], cs[|cs| - 1];
      assert cs == front + [c];
      WholePlan(v, m, front);
      ScriptAppends(m.end, m.dir, front, c);
      var r := Play(v, m, front);
      NextPlan(v, r, c);
      Joins(m.emitted + m.future, Script(m.end, m.dir, front), Planned(r.end, r.dir, c));
    }
  }

  lemma Joins(a: seq<Pulse>, b: seq<Pulse>, c: seq<Pulse>)
    ensures a + b + c == a + (b + c)
  {
  }

  lemma NextPlan(v: Variant, m: Motor, c: Command)
    requires !m.stopped && !c.Halt? && !c.ResetClock?
    ensures var n, ps := Next(v, m, c), Planned(m.end, m.dir, c);
            && n.emitted + n.future == m.emitted + m.future + ps && n.end == EndOf(m.end, ps)
            && n.dir == DirSet(m.dir, c) && !n.stopped && m.emitted <= n.emitted
  {
    hide MovePulses;
    var ps := Planned(m.end, m.dir, c);
    assert m.emitted + (m.future + ps) == m.emitted + m.future + ps;
    if c.Event? && !m.mid && m.future != [] {
      assert m.emitted + [m.future[0]] + m.future[1..] == m.emitted + m.future;
    }
  }

  ghost function ScriptEnd(end: uint32, dir: bool, cs: seq<Command>): (uint32, bool)
    decreases |cs|
  {
    if cs == [] then (end, dir)
    else ScriptEnd(EndOf(end, Planned(end, dir, cs[0])), DirSet(dir, cs[0]), cs[1..])
  }

  lemma {:induction false} ScriptAppends(end: uint32, dir: bool, cs: seq<Command>, c: Command)
    ensures var (e, d) := ScriptEnd(end, dir, cs);
            && Script(end, dir, cs + [c]) == Script(end, dir, cs) + Planned(e, d, c)
            && ScriptEnd(end, dir, cs + [c]) == (EndOf(e, Planned(e, d, c)), DirSet(d, c))
    decreases |cs|
  {
    hide Planned, EndOf, DirSet;
    if cs == [] {
      assert [c][1..] == [] && Planned(end, dir, c) + [] == Planned(end, dir, c);
    } else {
      assert (cs + [c])[1..] == cs[1..] + [c];
      var ps := Planned(end, dir, cs[0]);
      ScriptAppends(EndOf(end, ps), DirSet(dir, cs[0]), cs[1..], c);
    }
  }

  lemma StoppedPosition(word: uint32)
    ensures Wrap(0 - word) == Encoded(false, Ahead(false, word - POSITION_BIAS, 0))
  {
  }

  lemma EncodedBack(dir: bool, pos: int, n: nat)
    ensures Wrap(Encoded(dir, Ahead(dir, pos, n)) - n) == Encoded(dir, pos)
  {
    hide Wrap;
    WrapSum(POSITION_BIAS + pos + n, 0 - n);
    WrapSum(-(POSITION_BIAS + pos - n), 0 - n);
  }

  /** Emitting the first pulse leaves the last one in place. */
  lemma EndStep(future: seq<Pulse>, anchor: uint32)
    requires future != [] && (|future| == 1 ==> anchor == future[0].due)
    ensures EndOf(anchor, future[1..]) == EndOf(0, future)
  {
  }

  lemma AheadStep(dir: bool, pos: int, n: nat)
    requires n > 0
    ensures Ahead(dir, Ahead(dir, pos, 1), n - 1) == Ahead(dir, pos, n)
    ensures n == 1 ==> Ahead(dir, pos, n) == Ahead(dir, pos, 1)
  {
  }

  lemma SplitFuture(cur: seq<Pulse>, anchor: uint32, dir: bool, mq: seq<StepMove>)
    requires cur != []
    ensures (cur + QueuePulses(EndOf(anchor, cur), dir, mq))[0] == cur[0]
    ensures |cur| == 1 ==>
              (cur + QueuePulses(EndOf(anchor, cur), dir, mq))[1..] == QueuePulses(cur[0].due, dir, mq)
  {
  }

  lemma TailFuture(cur: seq<Pulse>, anchor: uint32, anchor': uint32, dir: bool, mq: seq<StepMove>)
    requires |cur| > 1
    ensures (cur + QueuePulses(EndOf(anchor, cur), dir, mq))[1..]
            == cur[1..] + QueuePulses(EndOf(anchor', cur[1..]), dir, mq)
  {
  }

  lemma SamePulses(m: StepMove, m': StepMove, base: uint32, dir: bool)
    requires m' == m.(toggle := m'.toggle) && 0 < m.count < 0x1_0000
    ensures MovePulses(base, m', dir) == MovePulses(base, m, dir)
    ensures -0x8000 <= m.add < 0x8000 ==> MoveOk(m)
  {
  }

  /** The low half of a 32-bit word as a signed number. */
  function Int16(word: uint32): (r: int)
    ensures -0x8000 <= r < 0x8000 && (r - word) % 0x1_0000 == 0
  {
    var low := word % 0x1_0000;
    if low < 0x8000 then low else low - 0x1_0000
  }

  /** Where the direction pin points after `n` more pulses. */
  ghost function Ahead(dir: bool, pos: int, n: nat): int {
    if dir then pos + n else pos - n
  }

  lemma AheadNone(dir: bool, pos: int)
    ensures Ahead(dir, pos, 0) == pos
  {
  }

  lemma EncodedKeeps(dir: bool, pos: int, n: nat)
    ensures Wrap(Encoded(dir, pos) + n) == Encoded(dir, Ahead(dir, pos, n))
  {
    hide Wrap;
    WrapSum(POSITION_BIAS + pos, n);
    WrapSum(-(POSITION_BIAS + pos), n);
  }

  lemma EncodedToggles(dir: bool, pos: int, n: nat)
    ensures Wrap(n - Encoded(dir, pos)) == Encoded(!dir, Ahead(!dir, pos, n))
  {
    hide Wrap;
    WrapLess(POSITION_BIAS + pos, n);
    WrapLess(-(POSITION_BIAS + pos), n);
  }
}
