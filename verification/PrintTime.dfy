/**
 Print time tracking of `ToolHead` in `klippy/toolhead.py`: the times handed to
 the step generators, to the trapezoid queues and to the micro-controllers.
 Those callees are recorded by their time arguments, one Round per pass of the
 batching loop. The clock of the micro-controller enters as a parameter.
 */
module PrintTime {
  import opened Reals

  const MIN_KIN_TIME := 0.100
  const MOVE_BATCH_TIME := 0.500
  const SDS_CHECK_TIME := 0.001
  const DRIP_SEGMENT_TIME := 0.050

  datatype QueuingState = Flushed | Priming | Printing | Drip

  /** What one round of the batching loop tells the step generators, the trapezoid queues and the micro-controllers. */
  datatype Round = Round(step: real, free: real, mcu: real)

  function MaxOf(s: seq<real>): (r: real)
    ensures SDS_CHECK_TIME <= r
    ensures forall i :: 0 <= i < |s| ==> s[i] <= r
    ensures r == SDS_CHECK_TIME || r in s
  {
    if s == [] then SDS_CHECK_TIME else Max(MaxOf(s[..|s| - 1]), s[|s| - 1])
  }

  /** The end of a list of moves that starts at `t`. */
  function EndTime(t: real, durations: seq<real>): (r: real)
    requires forall i :: 0 <= i < |durations| ==> 0.0 <= durations[i]
    ensures t <= r
  {
    if durations == [] then t
    else EndTime(t, durations[..|durations| - 1]) + durations[|durations| - 1]
  }

  /** The length of a list of moves. */
  function Total(durations: seq<real>): (r: real)
    requires forall i :: 0 <= i < |durations| ==> 0.0 <= durations[i]
    ensures 0.0 <= r
  {
    EndTime(0.0, durations)
  }

  lemma {:induction false} EndTimeIs(t: real, durations: seq<real>)
    requires forall i :: 0 <= i < |durations| ==> 0.0 <= durations[i]
    ensures EndTime(t, durations) == t + Total(durations)
    decreases |durations|
  {
    if durations != [] {
      EndTimeIs(t, durations[..|durations| - 1]);
    }
  }

  ghost predicate Ordered(a: Round, b: Round) {
    a.step <= b.step && a.free <= b.free && a.mcu <= b.mcu
  }

  /** Time never runs backward, and nobody is told to go beyond the generated steps. */
  ghost predicate Chronological(log: seq<Round>) {
    && (forall i, j :: 0 <= i < j < |log| ==> Ordered(log[i], log[j]))
    && (forall i :: 0 <= i < |log| ==> log[i].free <= log[i].step && log[i].mcu <= log[i].step)
  }

  lemma ExtendLog(log: seq<Round>, r: Round)
    requires Chronological(log) && (log == [] || Ordered(log[|log| - 1], r))
    requires r.free <= r.step && r.mcu <= r.step
    ensures Chronological(log + [r])
  {
    forall i | 0 <= i < |log|
      ensures Ordered(log[i], r)
    {
      if i < |log| - 1 {
        assert Ordered(log[i], log[|log| - 1]);
      }
    }
  }

  datatype Snapshot = Snapshot(printTime: real, forceFlushTime: real, lastKinMoveTime: real,
                               state: QueuingState, windows: seq<real>, log: seq<Round>)
  {
    /** The earliest print time that is far enough ahead of the micro-controller's. */
    function Earliest(estPrintTime: real, bufferTimeStart: real): real {
      Max(estPrintTime + bufferTimeStart, Max(estPrintTime + MIN_KIN_TIME, forceFlushTime) + MaxOf(windows))
    }

    /** No earlier print time leaves that much room for the buffer, the kinematics and what was forced out. */
    lemma EarliestIs(estPrintTime: real, bufferTimeStart: real, t: real)
      ensures Earliest(estPrintTime, bufferTimeStart) <= t <==>
                && estPrintTime + bufferTimeStart <= t
                && estPrintTime + 0.1 + MaxOf(windows) <= t
                && forceFlushTime + MaxOf(windows) <= t
    {
    }

    /** The print time at which the next moves start. */
    function StartTime(estPrintTime: real, bufferTimeStart: real): real {
      if state == Printing then printTime else Max(printTime, Earliest(estPrintTime, bufferTimeStart))
    }

    /** The print time at which moves of the given durations end. */
    function EndOf(durations: seq<real>, estPrintTime: real, bufferTimeStart: real): real
      requires forall i :: 0 <= i < |durations| ==> 0.0 <= durations[i]
    {
      if durations == [] then printTime else StartTime(estPrintTime, bufferTimeStart) + Total(durations)
    }

    /** The last kinematic activity once those moves are sent. */
    function BusyUntil(durations: seq<real>, estPrintTime: real, bufferTimeStart: real): real
      requires forall i :: 0 <= i < |durations| ==> 0.0 <= durations[i]
    {
      if durations == [] then lastKinMoveTime
      else Max(lastKinMoveTime, EndOf(durations, estPrintTime, bufferTimeStart))
    }

    /** The time up to which everything is forced out behind those moves. */
    function ForcedUntil(durations: seq<real>, estPrintTime: real, bufferTimeStart: real): real
      requires forall i :: 0 <= i < |durations| ==> 0.0 <= durations[i]
    {
      Max(forceFlushTime, Max(EndOf(durations, estPrintTime, bufferTimeStart) - MaxOf(windows),
                              BusyUntil(durations, estPrintTime, bufferTimeStart) + MaxOf(windows)))
    }

    /** The trigger ends a homing move of the given durations after `segments` segments. */
    predicate CutShort(durations: seq<real>, segments: nat)
      requires forall i :: 0 <= i < |durations| ==> 0.0 <= durations[i]
    {
      state == Drip && segments as real * 0.05 < Total(durations)
    }

    /** `b` is where the trigger leaves a homing move. */
    ghost predicate Triggered(segments: nat, estPrintTime: real, bufferTimeStart: real, b: Snapshot) {
      && b.printTime == StartTime(estPrintTime, bufferTimeStart) + segments as real * 0.05
      && b == this.(printTime := b.printTime, log := b.log)
    }

    /** Steps are generated up to the print time less the scan window, and freed one window before that. */
    predicate Generated() {
      && log != []
      && log[|log| - 1].step == Max(forceFlushTime, printTime - MaxOf(windows))
      && log[|log| - 1].free == Max(forceFlushTime, log[|log| - 1].step - MaxOf(windows))
    }

    /** Everything is generated, freed and sent up to the forced flush time, which covers the scan windows. */
    predicate Quiet() {
      && lastKinMoveTime + MaxOf(windows) <= forceFlushTime <= printTime
      && log != [] && log[|log| - 1] == Round(forceFlushTime, forceFlushTime, forceFlushTime)
    }
  }

  ghost predicate NotBefore(a: Snapshot, b: Snapshot) {
    && a.printTime <= b.printTime
    && a.forceFlushTime <= b.forceFlushTime
    && a.lastKinMoveTime <= b.lastKinMoveTime
    && a.log <= b.log
  }

  class Clock {
    const bufferTimeStart: real
    const moveFlushTime: real
    var printTime: real
    var forceFlushTime: real
    var lastKinMoveTime: real
    var kinFlushDelay: real
    var kinFlushTimes: seq<real>
    var state: QueuingState
    var log: seq<Round>

    ghost function Now(): Snapshot
      reads this
    {
      Snapshot(printTime, forceFlushTime, lastKinMoveTime, state, kinFlushTimes, log)
    }

    /** What the callees are told at the current print time. */
    ghost function Current(): Round
      reads this
    {
      var sgFlushTime := Max(forceFlushTime, printTime - kinFlushDelay);
      Round(sgFlushTime,
            Max(forceFlushTime, sgFlushTime - kinFlushDelay),
            Max(forceFlushTime, sgFlushTime - moveFlushTime))
    }

    ghost predicate Valid()
      reads this
    {
      && 0.0 < moveFlushTime
      && kinFlushDelay == MaxOf(kinFlushTimes)
      && Chronological(log)
      && (log == [] || Ordered(log[|log| - 1], Current()))
    }

    /** All steps up to the forced flush time, which covers all scan windows, are out. */
    ghost predicate Drained()
      reads this
    {
      && lastKinMoveTime + kinFlushDelay <= forceFlushTime
      && printTime - kinFlushDelay <= forceFlushTime <= printTime
      && log != [] && log[|log| - 1] == Round(forceFlushTime, forceFlushTime, forceFlushTime)
    }

    constructor (bufferTimeStart: real, moveFlushTime: real)
      requires 0.0 < moveFlushTime
      ensures Valid() && Now() == Snapshot(0.0, 0.0, 0.0, Flushed, [], [])
      ensures this.bufferTimeStart == bufferTimeStart && this.moveFlushTime == moveFlushTime
    {
      this.bufferTimeStart := bufferTimeStart;
      this.moveFlushTime := moveFlushTime;
      printTime, forceFlushTime, lastKinMoveTime := 0.0, 0.0, 0.0;
      kinFlushDelay, kinFlushTimes := SDS_CHECK_TIME, [];
      state := Flushed;
      log := [];
    }

    /** One round of the batching loop. */
    method Batch(nextPrintTime: real)
      requires Valid() && printTime <= nextPrintTime
      modifies this`printTime, this`log
      ensures Valid() && NotBefore(old(Now()), Now())
      ensures printTime == Min(old(printTime) + 0.5, nextPrintTime)
      ensures |log| == |old(log)| + 1 && log == old(log) + [Current()]
      ensures log != []
      ensures log[|log| - 1].step == Max(forceFlushTime, printTime - kinFlushDelay)
      ensures log[|log| - 1].free == Max(forceFlushTime, log[|log| - 1].step - kinFlushDelay)
      ensures log[|log| - 1].mcu == Max(forceFlushTime, log[|log| - 1].step - moveFlushTime)
    {
      hide Chronological;
      printTime := Min(printTime + MOVE_BATCH_TIME, nextPrintTime);
      var sgFlushTime := Max(forceFlushTime, printTime - kinFlushDelay);
      var freeTime := Max(forceFlushTime, sgFlushTime - kinFlushDelay);
      var mcuFlushTime := Max(forceFlushTime, sgFlushTime - moveFlushTime);
      ExtendLog(log, Current());
      log := log + [Round(sgFlushTime, freeTime, mcuFlushTime)];
    }

    /**
     Advances the print time in batches. Every batch moves the step generators
     by at most MOVE_BATCH_TIME, and the last one takes them to the new time.
     */
    method UpdateMoveTime(nextPrintTime: real)
      requires Valid() && printTime <= nextPrintTime
      modifies this`printTime, this`log
      ensures Valid() && NotBefore(old(Now()), Now())
      ensures printTime == nextPrintTime
      ensures |log| > |old(log)| && log[|log| - 1] == Current()
      ensures log[|log| - 1].step == Max(forceFlushTime, printTime - kinFlushDelay)
      ensures log[|log| - 1].free == Max(forceFlushTime, log[|log| - 1].step - kinFlushDelay)
      ensures log[|log| - 1].mcu == Max(forceFlushTime, log[|log| - 1].step - moveFlushTime)
      ensures forall i :: |old(log)| < i < |log| ==> log[i].step - log[i - 1].step <= 0.5
    {
      hide Chronological;
      Batch(nextPrintTime);
      while printTime < nextPrintTime
        invariant Valid() && NotBefore(old(Now()), Now()) && printTime <= nextPrintTime
        invariant |log| > |old(log)| && log[|log| - 1] == Current()
        invariant forall i :: |old(log)| < i < |log| ==> log[i].step - log[i - 1].step <= MOVE_BATCH_TIME
        decreases if printTime < nextPrintTime then ((nextPrintTime - printTime) * 2.0).Floor + 1 else 0
      {
        Batch(nextPrintTime);
      }
    }

    /** Moves the print time ahead of the micro-controller's, if it fell behind. */
    method CalcPrintTime(estPrintTime: real)
      requires Valid()
      modifies this`printTime
      ensures Valid() && NotBefore(old(Now()), Now())
      ensures printTime == Max(old(printTime), old(Now()).Earliest(estPrintTime, bufferTimeStart))
      ensures old(printTime) <= printTime && estPrintTime + bufferTimeStart <= printTime
      ensures estPrintTime + 0.1 + kinFlushDelay <= printTime && forceFlushTime + kinFlushDelay <= printTime
      ensures printTime in {old(printTime), estPrintTime + bufferTimeStart,
                            estPrintTime + 0.1 + kinFlushDelay, forceFlushTime + kinFlushDelay}
    {
      var kinTime := Max(estPrintTime + MIN_KIN_TIME, forceFlushTime);
      kinTime := kinTime + kinFlushDelay;
      var minPrintTime := Max(estPrintTime + bufferTimeStart, kinTime);
      if minPrintTime > printTime {
        printTime := minPrintTime;
      }
    }

    /** Sends a homing move in small segments; `segments` are sent before the trigger ends it. */
    method UpdateDripMoveTime(nextPrintTime: real, segments: nat) returns (ended: bool)
      requires Valid() && printTime <= nextPrintTime
      modifies this`printTime, this`log
      ensures Valid() && NotBefore(old(Now()), Now())
      ensures ended <==> old(printTime) + segments as real * DRIP_SEGMENT_TIME < nextPrintTime
      ensures printTime == if ended then old(printTime) + segments as real * DRIP_SEGMENT_TIME else nextPrintTime
    {
      hide Chronological, Valid, Current;
      var left := segments;
      while printTime < nextPrintTime
        invariant Valid() && NotBefore(old(Now()), Now()) && 0 <= left <= segments
        invariant printTime == Min(old(printTime) + (segments - left) as real * DRIP_SEGMENT_TIME, nextPrintTime)
        decreases left
      {
        if left == 0 {
          return true;
        }
        left := left - 1;
        UpdateMoveTime(Min(printTime + DRIP_SEGMENT_TIME, nextPrintTime));
      }
      ended := false;
    }

    /** Sends the moves of a flush, whose planned durations are given, in print time order. */
    method ProcessMoves(durations: seq<real>, estPrintTime: real, segments: nat) returns (ended: bool)
      requires Valid() && forall i :: 0 <= i < |durations| ==> 0.0 <= durations[i]
      modifies this`printTime, this`log, this`state, this`lastKinMoveTime
      ensures Valid() && NotBefore(old(Now()), Now())
      ensures state == if old(state) == Drip then Drip else Printing
      ensures ended <==> old(Now()).CutShort(durations, segments)
      ensures ended ==> old(Now()).Triggered(segments, estPrintTime, bufferTimeStart, Now())
      ensures var next := old(Now()).StartTime(estPrintTime, bufferTimeStart) + Total(durations);
              !ended ==> printTime == next && lastKinMoveTime == Max(old(lastKinMoveTime), next)
      ensures !ended ==> Now().Generated()
    {
      hide Chronological, EndTime, Total, Valid, Current, MaxOf;
      if state != Printing {
        if state != Drip {
          SetState(Printing);
        }
        CalcPrintTime(estPrintTime);
      }
      EndTimeIs(printTime, durations);
      var nextMoveTime := LayOut(printTime, durations);
      if state == Drip {
        ended := UpdateDripMoveTime(nextMoveTime, segments);
        if ended {
          return;
        }
      }
      UpdateMoveTime(nextMoveTime);
      NoteKinematicActivity(nextMoveTime);
      DelayIs();
      ended := false;
    }

    /** Flushes the look-ahead queue, whose moves have the given durations. */
    method FlushQueue(durations: seq<real>, estPrintTime: real, segments: nat) returns (ended: bool)
      requires Valid() && forall i :: 0 <= i < |durations| ==> 0.0 <= durations[i]
      modifies this`printTime, this`log, this`state, this`lastKinMoveTime
      ensures Valid() && NotBefore(old(Now()), Now())
      ensures ended <==> old(Now()).CutShort(durations, segments)
      ensures ended ==> old(Now()).Triggered(segments, estPrintTime, bufferTimeStart, Now())
      ensures !ended ==> printTime >= old(printTime) + Total(durations)
      ensures !ended ==> printTime == old(Now()).EndOf(durations, estPrintTime, bufferTimeStart)
      ensures !ended ==> lastKinMoveTime == old(Now()).BusyUntil(durations, estPrintTime, bufferTimeStart)
      ensures !ended && old(state) == Printing ==> printTime == old(printTime) + Total(durations)
      ensures state == if durations == [] then old(state) else if old(state) == Drip then Drip else Printing
    {
      ended := false;
      if durations != [] {
        ended := ProcessMoves(durations, estPrintTime, segments);
      }
    }

    method RaiseForceFlushTime(flushTime: real)
      requires Valid()
      modifies this`forceFlushTime
      ensures Valid() && forceFlushTime == Max(old(forceFlushTime), flushTime)
    {
      hide Chronological;
      forceFlushTime := Max(forceFlushTime, flushTime);
    }

    lemma Drains()
      requires Valid() && log != [] && log[|log| - 1] == Current()
      requires lastKinMoveTime + kinFlushDelay <= forceFlushTime
      requires printTime - kinFlushDelay <= forceFlushTime <= printTime
      ensures Drained()
    {
    }

    /** With the moves sent, generates and sends the steps of the scan windows. */
    method ForceOut()
      requires Valid()
      modifies this`printTime, this`log, this`state, this`forceFlushTime
      ensures Valid() && NotBefore(old(Now()), Now()) && state == Flushed && Drained()
      ensures var flushTime := Max(old(printTime) - MaxOf(kinFlushTimes), lastKinMoveTime + MaxOf(kinFlushTimes));
              && forceFlushTime == Max(old(forceFlushTime), flushTime)
              && printTime == Max(old(printTime), forceFlushTime)
    {
      hide Chronological, Valid, Drained, Current, MaxOf;
      SetState(Flushed);
      DelayIs();
      var lastf := printTime - kinFlushDelay;
      var flushTime := Max(lastf, lastKinMoveTime + kinFlushDelay);
      if flushTime > printTime {
        UpdateMoveTime(flushTime);
      }
      RaiseForceFlushTime(flushTime);
      UpdateMoveTime(Max(printTime, forceFlushTime));
      Drains();
    }

    /** Generates and sends all remaining steps, including those of the scan windows. */
    method FlushStepGeneration(durations: seq<real>, estPrintTime: real, segments: nat) returns (ended: bool)
      requires Valid() && forall i :: 0 <= i < |durations| ==> 0.0 <= durations[i]
      modifies this`printTime, this`log, this`state, this`lastKinMoveTime, this`forceFlushTime
      ensures Valid() && NotBefore(old(Now()), Now())
      ensures !ended ==> state == Flushed && Drained() && printTime >= old(printTime) + Total(durations)
      ensures !ended ==>
                && forceFlushTime == old(Now()).ForcedUntil(durations, estPrintTime, bufferTimeStart)
                && printTime == Max(old(Now()).EndOf(durations, estPrintTime, bufferTimeStart), forceFlushTime)
                && lastKinMoveTime == old(Now()).BusyUntil(durations, estPrintTime, bufferTimeStart)
      ensures ended <==> old(Now()).CutShort(durations, segments)
      ensures ended ==> old(Now()).Triggered(segments, estPrintTime, bufferTimeStart, Now())
    {
      hide Chronological, Valid, Drained, Current, Total, MaxOf;
      ended := FlushQueue(durations, estPrintTime, segments);
      if ended {
        return;
      }
      ForceOut();
    }

    method SetState(next: QueuingState)
      requires Valid()
      modifies this`state
      ensures Valid() && state == next
    {
      state := next;
    }

    lemma DelayIs()
      requires Valid()
      ensures 0.0 < kinFlushDelay == MaxOf(kinFlushTimes)
    {
    }

    /** The end of all queued moves, as a print time. */
    method GetLastMoveTime(durations: seq<real>, estPrintTime: real, segments: nat) returns (ended: bool, time: real)
      requires Valid() && forall i :: 0 <= i < |durations| ==> 0.0 <= durations[i]
      modifies this`printTime, this`log, this`state, this`lastKinMoveTime, this`forceFlushTime
      ensures Valid() && NotBefore(old(Now()), Now()) && time == printTime
      ensures ended <==> old(Now()).CutShort(durations, segments)
      ensures ended ==> old(Now()).Triggered(segments, estPrintTime, bufferTimeStart, Now())
      ensures !ended ==> time >= old(printTime) + Total(durations)
      ensures !ended && old(state) == Printing ==> time == old(printTime) + Total(durations) && state == Printing
      ensures !ended && old(state) != Printing ==>
                && state == Flushed && estPrintTime + bufferTimeStart <= time
                && estPrintTime + 0.1 + kinFlushDelay <= time
                && forceFlushTime == old(Now()).ForcedUntil(durations, estPrintTime, bufferTimeStart)
                && time in {old(Now()).EndOf(durations, estPrintTime, bufferTimeStart), estPrintTime + bufferTimeStart,
                            estPrintTime + 0.1 + kinFlushDelay, forceFlushTime + kinFlushDelay}
    {
      hide Chronological, Valid, Drained, Current, Total;
      if state != Printing {
        ended := FlushStepGeneration(durations, estPrintTime, segments);
      } else {
        ended := FlushQueue(durations, estPrintTime, segments);
      }
      if !ended && state != Printing {
        CalcPrintTime(estPrintTime);
      }
      time := printTime;
    }

    /** Waits for `delay` behind all queued moves; a negative delay counts as none. */
    method Dwell(delay: real, durations: seq<real>, estPrintTime: real, segments: nat) returns (ended: bool)
      requires Valid() && forall i :: 0 <= i < |durations| ==> 0.0 <= durations[i]
      modifies this`printTime, this`log, this`state, this`lastKinMoveTime, this`forceFlushTime
      ensures Valid() && NotBefore(old(Now()), Now())
      ensures ended <==> old(Now()).CutShort(durations, segments)
      ensures ended ==> old(Now()).Triggered(segments, estPrintTime, bufferTimeStart, Now())
      ensures !ended ==> printTime >= old(printTime) + Total(durations) + Max(0.0, delay)
      ensures !ended && old(state) == Printing ==> printTime == old(printTime) + Total(durations) + Max(0.0, delay)
      ensures !ended && old(state) != Printing ==>
                && forceFlushTime == old(Now()).ForcedUntil(durations, estPrintTime, bufferTimeStart)
                && printTime - Max(0.0, delay) in
                   {old(Now()).EndOf(durations, estPrintTime, bufferTimeStart), estPrintTime + bufferTimeStart,
                    estPrintTime + 0.1 + kinFlushDelay, forceFlushTime + kinFlushDelay}
      ensures !ended ==> Now().Generated()
    {
      hide Chronological, Valid, Drained, Current, Total;
      var time;
      ended, time := GetLastMoveTime(durations, estPrintTime, segments);
      if !ended {
        UpdateMoveTime(time + Max(0.0, delay));
        DelayIs();
      }
    }

    method NoteKinematicActivity(kinTime: real)
      requires Valid()
      modifies this`lastKinMoveTime
      ensures Valid() && NotBefore(old(Now()), Now())
      ensures lastKinMoveTime == Max(old(lastKinMoveTime), kinTime)
    {
      hide Chronological;
      lastKinMoveTime := Max(lastKinMoveTime, kinTime);
    }

    /**
     Replaces the scan window `oldDelay` by `delay`, zero standing for none. The
     step generators are drained first, so that a changed window cannot send
     them back in time. Fails if `oldDelay` is not registered.
     */
    method NoteScanTime(delay: real, oldDelay: real, durations: seq<real>, estPrintTime: real, segments: nat)
      returns (ok: bool)
      requires Valid() && forall i :: 0 <= i < |durations| ==> 0.0 <= durations[i]
      modifies this
      ensures Valid() && NotBefore(old(Now()), Now())
      ensures ok ==> multiset(kinFlushTimes) + (if oldDelay != 0.0 then multiset{oldDelay} else multiset{})
                     == multiset(old(kinFlushTimes)) + (if delay != 0.0 then multiset{delay} else multiset{})
      ensures ok ==> state == Flushed && log != [] && log[|log| - 1].step == forceFlushTime
      ensures !ok ==> kinFlushTimes == old(kinFlushTimes)
      ensures ok <==> !old(Now()).CutShort(durations, segments) &&
                      (oldDelay == 0.0 || oldDelay in old(kinFlushTimes))
    {
      hide Valid, Drained, Chronological, Current, Total, MaxOf;
      var ended := FlushStepGeneration(durations, estPrintTime, segments);
      if ended {
        return false;
      }
      var times := kinFlushTimes;
      if oldDelay != 0.0 {
        if oldDelay !in times {
          return false;
        }
        times := RemoveFirst(times, oldDelay);
      }
      if delay != 0.0 {
        times := times + [delay];
      }
      DrainedLog();
      SetScanTimes(times);
      ok := true;
    }

    lemma DrainedLog()
      requires Drained()
      ensures log != [] && log[|log| - 1].step == forceFlushTime
    {
    }

    /** With everything drained, the scan windows can be changed freely. */
    method SetScanTimes(times: seq<real>)
      requires Valid() && Drained()
      modifies this`kinFlushTimes, this`kinFlushDelay
      ensures Valid() && kinFlushTimes == times
    {
      hide Chronological;
      kinFlushTimes := times;
      kinFlushDelay := MaxOf(kinFlushTimes);
    }
  }

  /** Moves one after the other: the loop over the moves of a flush. */
  method LayOut(start: real, durations: seq<real>) returns (nextMoveTime: real)
    requires forall i :: 0 <= i < |durations| ==> 0.0 <= durations[i]
    ensures nextMoveTime == EndTime(start, durations)
  {
    nextMoveTime := start;
    for k := 0 to |durations|
      invariant nextMoveTime == EndTime(start, durations[..k])
    {
      nextMoveTime := nextMoveTime + durations[k];
      assert durations[..k + 1][..k] == durations[..k];
    }
    assert durations[..|durations|] == durations;
  }

  method RemoveFirst(s: seq<real>, x: real) returns (r: seq<real>)
    requires x in s
    ensures multiset(r) + multiset{x} == multiset(s)
  {
    var k := 0;
    while s[k] != x
      invariant 0 <= k < |s| && x !in s[..k]
      decreases |s| - k
    {
      k := k + 1;
    }
    assert s == s[..k] + [x] + s[k + 1..];
    r := s[..k] + s[k + 1..];
  }

  // ----- any sequence of operations -----------------------------------------------

  datatype Op =
    | Process(durations: seq<real>)
    | Flush(durations: seq<real>)
    | Wait(delay: real, durations: seq<real>)
    | ScanTime(delay: real, oldDelay: real, durations: seq<real>)
    | Activity(kinTime: real)
    | EnterDrip

  ghost predicate OpOk(op: Op) {
    op.Activity? || op.EnterDrip? || forall i :: 0 <= i < |op.durations| ==> 0.0 <= op.durations[i]
  }

  /** What an operation does; homing ends it early after `segments` segments. `buffer` is the clock's `bufferTimeStart`. */
  ghost predicate Did(op: Op, est: real, segments: nat, buffer: real, a: Snapshot, b: Snapshot)
    requires OpOk(op)
  {
    NotBefore(a, b) &&
    match op
    case Process(durations) =>
      if a.CutShort(durations, segments) then a.Triggered(segments, est, buffer, b)
      else
      (&& b.state == (if a.state == Drip then Drip else Printing) && b.printTime == a.StartTime(est, buffer) + Total(durations)
       && b.lastKinMoveTime == Max(a.lastKinMoveTime, b.printTime)
       && b.Generated())
    case Flush(durations) =>
      if a.CutShort(durations, segments) then a.Triggered(segments, est, buffer, b)
      else
      (&& b.state == Flushed && b.Quiet() && b.printTime >= a.printTime + Total(durations)
       && b.forceFlushTime == a.ForcedUntil(durations, est, buffer)
       && b.printTime == Max(a.EndOf(durations, est, buffer), b.forceFlushTime))
    case Wait(delay, durations) =>
      if a.CutShort(durations, segments) then a.Triggered(segments, est, buffer, b)
      else
      (&& b.printTime >= a.printTime + Total(durations) + Max(0.0, delay)
       && (a.state == Printing ==> b.printTime == a.printTime + Total(durations) + Max(0.0, delay))
       && (a.state != Printing ==>
             && b.forceFlushTime == a.ForcedUntil(durations, est, buffer)
             && b.printTime - Max(0.0, delay) in
                {a.EndOf(durations, est, buffer), est + buffer,
                 est + 0.1 + MaxOf(b.windows), b.forceFlushTime + MaxOf(b.windows)})
       && b.Generated())
    case ScanTime(delay, oldDelay, durations) =>
      if a.CutShort(durations, segments) then b.windows == a.windows
      else if oldDelay != 0.0 && oldDelay !in a.windows then b.windows == a.windows
      else Replaces(a.windows, oldDelay, delay, b.windows) && b.state == Flushed
    case Activity(kinTime) => b == a.(lastKinMoveTime := Max(a.lastKinMoveTime, kinTime))
    case EnterDrip => b == a.(state := Drip)
  }

  /** One scan window is replaced by another; zero stands for none. */
  ghost predicate Replaces(before: seq<real>, oldDelay: real, delay: real, after: seq<real>) {
    multiset(after) + (if oldDelay != 0.0 then multiset{oldDelay} else multiset{})
    == multiset(before) + (if delay != 0.0 then multiset{delay} else multiset{})
  }

  method Perform(clock: Clock, op: Op, est: real, segments: nat)
    requires clock.Valid() && OpOk(op)
    modifies clock
    ensures clock.Valid() && Did(op, est, segments, clock.bufferTimeStart, old(clock.Now()), clock.Now())
  {
    hide Chronological, Total, MaxOf, clock.Current;
    match op {
      case Process(durations) =>
        var _ := clock.ProcessMoves(durations, est, segments);
      case Flush(durations) =>
        var _ := clock.FlushStepGeneration(durations, est, segments);
      case Wait(delay, durations) =>
        var _ := clock.Dwell(delay, durations, est, segments);
      case ScanTime(delay, oldDelay, durations) =>
        var _ := clock.NoteScanTime(delay, oldDelay, durations, est, segments);
      case Activity(kinTime) =>
        clock.NoteKinematicActivity(kinTime);
      case EnterDrip =>
        clock.SetState(Drip);
    }
  }

  /**
   Over every sequence of operations, whatever the micro-controller's clock reads (`ests`)
   and whenever homing ends (`segments`), each does what it should, and time never runs
   backward. `shots` are the states between them.
   */
  method Run(clock: Clock, ops: seq<Op>, ests: seq<real>, segments: seq<nat>) returns (ghost shots: seq<Snapshot>)
    requires clock.Valid() && |ests| == |segments| == |ops|
    requires forall i :: 0 <= i < |ops| ==> OpOk(ops[i])
    modifies clock
    ensures clock.Valid() && Chronological(clock.log) && NotBefore(old(clock.Now()), clock.Now())
    ensures |shots| == |ops| + 1 && shots[0] == old(clock.Now()) && shots[|ops|] == clock.Now()
    ensures forall k :: 0 <= k < |ops| ==> Did(ops[k], ests[k], segments[k], clock.bufferTimeStart, shots[k], shots[k + 1])
  {
    hide Did;
    shots := [clock.Now()];
    for k := 0 to |ops|
      invariant clock.Valid() && NotBefore(old(clock.Now()), clock.Now())
      invariant |shots| == k + 1 && shots[0] == old(clock.Now()) && shots[k] == clock.Now()
      invariant forall j :: 0 <= j < k ==> Did(ops[j], ests[j], segments[j], clock.bufferTimeStart, shots[j], shots[j + 1])
    {
      Perform(clock, ops[k], ests[k], segments[k]);
      Later(ops[k], ests[k], segments[k], clock.bufferTimeStart, old(clock.Now()), shots[k], clock.Now());
      shots := shots + [clock.Now()];
    }
  }

  lemma Later(op: Op, est: real, segments: nat, buffer: real, a: Snapshot, b: Snapshot, c: Snapshot)
    requires OpOk(op) && NotBefore(a, b) && Did(op, est, segments, buffer, b, c)
    ensures NotBefore(a, c)
  {
    hide Total;
  }
}
