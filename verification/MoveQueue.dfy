/**
 `Move` and `MoveQueue` of `klippy/toolhead.py`: the look-ahead queue as it runs,
 with its fields updated in place, proved against the plan of module LookAhead.
 */
module MoveQueues {
  import opened LookAhead
  import opened Reals

  const LOOKAHEAD_FLUSH_TIME := 0.25
  const EXTRUDE_ONLY_ACCEL := 99999999.9

  function Times(a: real, b: real): (r: real)
    ensures 0.0 < a && 0.0 < b ==> 0.0 < r
  {
    a * b
  }

  function Square(x: real): real {
    Times(x, x)
  }

  /** A planned move: the squares of start_v, cruise_v and end_v, and the distances of its parts. */
  datatype Trapezoid = Trapezoid(junction: Junction, accelD: real, cruiseD: real, decelD: real)

  /** The parts are not negative, make up the move, and lead from speed to speed at acceleration `accel`. */
  ghost predicate Splits(t: Trapezoid, moveD: real, accel: real) {
    && 0.0 <= t.accelD && 0.0 <= t.cruiseD && 0.0 <= t.decelD
    && t.accelD + t.cruiseD + t.decelD == moveD
    && t.junction.start + 2.0 * accel * t.accelD == t.junction.cruise
    && t.junction.end + 2.0 * accel * t.decelD == t.junction.cruise
  }

  ghost predicate IsLeast(x: real, bounds: seq<real>) {
    x in bounds && forall y :: y in bounds ==> x <= y
  }

  /**
   The limits `now` of a move that came with limits `came` and follows one with
   limits `prev`. `rolling` says that the moves may join at speed: both are
   kinematic and the second is no reversal of the first.
   */
  ghost predicate Cornered(prev: Limits, came: Limits, now: Limits, rolling: bool, corner: real) {
    && now.maxCruise == came.maxCruise && now.delta == came.delta && now.smoothDelta == came.smoothDelta
    && (rolling ==>
          && IsLeast(now.maxStart, [corner, came.maxCruise, prev.maxCruise, prev.maxStart + prev.delta])
          && IsLeast(now.maxSmoothed, [now.maxStart, prev.maxSmoothed + prev.smoothDelta]))
    && (!rolling ==> now.maxStart == 0.0 && now.maxSmoothed == 0.0)
  }

  class Move {
    const moveD: real          // distance of the move
    const kinematic: bool
    var minMoveT: real         // lower bound of its duration
    var accel: real
    var limits: Limits         // max_start_v2 .. smooth_delta_v2
    var plan: Trapezoid        // set by SetJunction
    ghost var timesSet: nat    // calls of SetJunction so far

    /** Its junction has been set once, to `j`, and the move split accordingly. */
    ghost predicate Planned(j: Junction)
      reads this`plan, this`timesSet, this`accel
    {
      timesSet == 1 && plan.junction == j && Splits(plan, moveD, accel)
    }

    ghost predicate Unplanned()
      reads this`timesSet
    {
      timesSet == 0
    }

    /** `delta_v2` is what the move can change the squared speed by. */
    ghost predicate Consistent()
      reads this`accel, this`limits
    {
      0.0 < accel && 0.0 < moveD && limits.delta == 2.0 * moveD * accel
    }

    /**
     `maxVelocity`, `maxAccel` and `decelAccel` are the toolhead's limits. An
     extrude-only move ignores the first two.
     */
    constructor (moveD: real, speed: real, maxVelocity: real, maxAccel: real, decelAccel: real, kinematic: bool)
      requires 0.0 < moveD && 0.0 < speed && 0.0 < maxVelocity
      requires 0.0 < decelAccel <= (if kinematic then maxAccel else EXTRUDE_ONLY_ACCEL)
      ensures Unplanned() && Consistent() && LimitsOk(limits)
      ensures limits.maxStart == 0.0 && limits.maxSmoothed == 0.0
      ensures this.moveD == moveD && this.kinematic == kinematic
      ensures minMoveT == moveD / if kinematic then Min(speed, maxVelocity) else speed
      ensures limits.maxCruise == if kinematic && maxVelocity < speed then Square(maxVelocity) else Square(speed)
      ensures accel == if kinematic then maxAccel else 99999999.9
      ensures limits.smoothDelta == 2.0 * moveD * decelAccel
    {
      var a := if kinematic then maxAccel else EXTRUDE_ONLY_ACCEL;
      var v := if kinematic then Min(speed, maxVelocity) else speed;
      this.moveD := moveD;
      this.minMoveT := moveD / v;
      this.kinematic := kinematic;
      this.accel := a;
      this.limits := Limits(0.0, Square(v), 2.0 * moveD * a, 0.0, 2.0 * moveD * decelAccel);
      timesSet := 0;
      new;
      ScaledPositive(moveD, decelAccel);
      ScaledMonotone(moveD, decelAccel, a);
    }

    /** Called by the kinematics before the move is queued. */
    method LimitSpeed(speed: real, accelLimit: real)
      requires 0.0 < speed && 0.0 < accelLimit
      requires Consistent() && LimitsOk(limits) && limits.maxStart == 0.0
      modifies this`accel, this`limits, this`minMoveT
      ensures Consistent() && LimitsOk(limits)
      ensures minMoveT == if Square(speed) < old(limits).maxCruise then moveD / speed else old(minMoveT)
      ensures accel == Min(old(accel), accelLimit)
      ensures limits == old(limits).(maxCruise := Min(old(limits).maxCruise, Square(speed)),
                                     delta := 2.0 * moveD * accel,
                                     smoothDelta := Min(old(limits).smoothDelta, 2.0 * moveD * accel))
    {
      var speed2 := Square(speed);
      if speed2 < limits.maxCruise {
        limits := limits.(maxCruise := speed2);
        minMoveT := moveD / speed;
      }
      accel := Min(accel, accelLimit);
      limits := limits.(delta := 2.0 * moveD * accel);
      limits := limits.(smoothDelta := Min(limits.smoothDelta, limits.delta));
      ScaledPositive(moveD, accel);
    }

    /**
     The junction with the move before. `corner` is the least of the limits
     computed from the angle, the centripetal accelerations and the extruder;
     `reversal` says that the moves nearly fold back on each other.
     */
    method CalcJunction(prev: Move, reversal: bool, corner: real)
      requires 0.0 <= corner && prev != this
      requires LimitsOk(limits) && LimitsOk(prev.limits)
      requires limits.maxStart == 0.0 && limits.maxSmoothed == 0.0
      modifies this`limits
      ensures LimitsOk(limits) && Joined(prev.limits, limits)
      ensures Cornered(prev.limits, old(limits), limits, kinematic && prev.kinematic && !reversal, corner)
    {
      if !kinematic || !prev.kinematic || reversal {
        return;
      }
      var start := Min(Min(corner, limits.maxCruise),
                       Min(prev.limits.maxCruise, prev.limits.maxStart + prev.limits.delta));
      limits := limits.(maxStart := start,
                        maxSmoothed := Min(start, prev.limits.maxSmoothed + prev.limits.smoothDelta));
    }

    /** Splits the move into its accelerating, cruising and decelerating parts. */
    method SetJunction(startV2: real, cruiseV2: real, endV2: real)
      requires Consistent() && ValidTrapezoid(limits, Junction(startV2, cruiseV2, endV2))
      modifies this`plan, this`timesSet
      ensures plan.junction == Junction(startV2, cruiseV2, endV2)
      ensures timesSet == old(timesSet) + 1
      ensures Splits(plan, moveD, accel)
    {
      var halfInvAccel := 0.5 / accel;
      var accelD := (cruiseV2 - startV2) * halfInvAccel;
      var decelD := (cruiseV2 - endV2) * halfInvAccel;
      var cruiseD := moveD - accelD - decelD;
      plan := Trapezoid(Junction(startV2, cruiseV2, endV2), accelD, cruiseD, decelD);
      timesSet := timesSet + 1;
      PartDistance(cruiseV2 - startV2, accel);
      PartDistance(cruiseV2 - endV2, accel);
      PartsFit(moveD, accel, accelD, decelD);
    }
  }

  lemma ScaledPositive(d: real, a: real)
    requires 0.0 < d && 0.0 < a
    ensures 0.0 < 2.0 * d * a
  {
  }

  lemma ScaledMonotone(d: real, a: real, b: real)
    requires 0.0 < d && a <= b
    ensures 2.0 * d * a <= 2.0 * d * b
  {
  }

  lemma PartDistance(dv2: real, accel: real)
    requires 0.0 < accel && 0.0 <= dv2
    ensures 0.0 <= dv2 * (0.5 / accel)
    ensures 2.0 * accel * (dv2 * (0.5 / accel)) == dv2
  {
    var h := 0.5 / accel;
    assert accel * h == 0.5;
    assert 0.0 < h;
    assert 2.0 * accel * (dv2 * h) == 2.0 * dv2 * (accel * h);
  }

  lemma PartsFit(moveD: real, accel: real, x: real, y: real)
    requires 0.0 < accel && 2.0 * accel * x + 2.0 * accel * y <= 2.0 * moveD * accel
    ensures x + y <= moveD
  {
    assert 2.0 * accel * (moveD - (x + y)) >= 0.0;
  }

  lemma Cancel(p: real, q: real, s: real)
    requires 0.0 < s && p * s == q * s
    ensures p == q
  {
    assert (p - q) * s == 0.0;
  }

  /**
   The part of a move that changes its speed between the roots `v` and `w` of
   two squared speeds, at rate `accel` over distance `d`: its duration, the
   distance divided by the mean speed, is that of constant acceleration.
   */
  lemma PartTime(v: real, w: real, accel: real, d: real)
    requires 0.0 <= v <= w && 0.0 < w && 0.0 < accel
    requires Times(v, v) + 2.0 * accel * d == Times(w, w)
    ensures 0.0 < (v + w) * 0.5
    ensures var t := d / ((v + w) * 0.5);
            0.0 <= t && accel * t == w - v
  {
    var s := v + w;
    var t := d / (s * 0.5);
    assert t * (s * 0.5) == d;
    assert (w - v) * s == Times(w, w) - Times(v, v) by {
      assert (w - v) * (v + w) == w * w - v * v;
    }
    assert 2.0 * accel * d == (accel * t) * s by {
      assert 2.0 * accel * (t * (s * 0.5)) == (accel * t) * s;
    }
    Cancel(accel * t, w - v, s);
  }

  /** The variables of the backward pass over the queue. */
  datatype Pass = Pass(updateFlushCount: bool, flushCount: nat, delayed: seq<(Move, real, real)>,
                       nextEndV2: real, nextSmoothedV2: real, peakCruiseV2: real)

  // ----- the queue ---------------------------------------------------------------

  class MoveQueue {
    var queue: seq<Move>
    var junctionFlush: real
    ghost var path: seq<Limits>           // all moves added since the queue was last empty
    ghost var committed: seq<Junction>    // junctions of the moves already processed

    ghost function Moves(): set<Move>
      reads this`queue
    {
      set m | m in queue
    }

    ghost function Done(): nat
      reads this`committed
    {
      |committed|
    }

    /** The move at index `p` of the path, if it is still queued. */
    ghost function At(p: int): Move
      requires Done() <= p < Done() + |queue|
      reads this`queue, this`path, this`committed
    {
      queue[p - Done()]
    }

    ghost predicate QueueOk()
      reads this`queue, this`path, this`committed, Moves()
    {
      && (forall i, j :: 0 <= i < j < |queue| ==> queue[i] != queue[j])
      && Done() + |queue| == |path|
      && (forall p :: Done() <= p < |path| ==> At(p).limits == path[p] && At(p).Consistent())
    }

    /**
     The queue holds the end of the path, nothing in it is planned yet, and what
     was processed before it was planned as the whole path would have been.
     */
    ghost predicate Valid()
      reads this`queue, this`path, this`committed, Moves()
    {
      && QueueOk()
      && UnplannedIn(Done(), |path|)
      && Path(path)
      && CommitPoint(path, Done())
      && (forall i :: 0 <= i < Done() ==> committed[i] == PlanAt(path, i))
      && (queue == [] ==> path == [])
    }

    constructor ()
      ensures Valid() && queue == [] && path == [] && committed == [] && junctionFlush == 0.25
    {
      queue := [];
      junctionFlush := LOOKAHEAD_FLUSH_TIME;
      path, committed := [], [];
    }

    // The run of delayed moves at the front of path[p..], latest first.
    ghost predicate DelayedRun(p: int, delayed: seq<(Move, real, real)>)
      requires Done() + |queue| == |path| && Done() <= p
      reads this`queue, this`path, this`committed
    {
      var top := p + |delayed|;
      && top <= |path|
      && !Delayed(path, top)
      && (forall j :: p <= j < top ==> Delayed(path, j))
      && (forall t :: 0 <= t < |delayed| ==>
            delayed[t] == (At(top - 1 - t), StartV2(path, top - 1 - t), StartV2(path, top - t)))
    }

    ghost predicate PlannedIn(lo: int, hi: int)
      requires QueueOk() && Done() <= lo && hi <= |path|
      reads this`queue, this`path, this`committed, Moves()
    {
      forall p :: lo <= p < hi ==> At(p).Planned(PlanAt(path, p))
    }

    ghost predicate UnplannedIn(lo: int, hi: int)
      requires Done() <= lo && hi <= Done() + |queue|
      reads this`queue, this`path, this`committed, Moves()
    {
      forall p :: lo <= p < hi ==> At(p).Unplanned()
    }

    /**
     Where the flush will stop: `c` is the path's last cut, once the backward
     pass, now at `p`, has met it; `searching` until then.
     */
    ghost predicate Boundary(lazy: bool, searching: bool, c: int, p: int, top: int)
      requires 0 <= p && 0 <= c
      reads this`queue, this`path, this`committed
    {
      && (!lazy ==> !searching && c == |path|)
      && (searching ==> c == |path| && forall f :: p <= f < |path| ==> !Cuts(path, f))
      && (lazy && !searching ==>
            top <= c < |path| && Cuts(path, c) && forall f :: c < f < |path| ==> !Cuts(path, f))
    }

    /** What is planned when the moves from `top` on have been handled. */
    ghost predicate Progress(searching: bool, c: int, top: int)
      requires QueueOk() && Done() <= top <= |path| && Done() <= c <= |path|
      reads this`queue, this`path, this`committed, Moves()
    {
      if searching then UnplannedIn(Done(), |path|)
      else UnplannedIn(Done(), top) && PlannedIn(top, c) && UnplannedIn(c, |path|)
    }

    lemma CommittedPlan()
      requires Valid()
      ensures Path(path) && Done() + |queue| == |path|
      ensures forall i :: 0 <= i < Done() ==> committed[i] == PlanAt(path, i)
    {
    }

    lemma QueueSize()
      requires QueueOk()
      ensures Done() + |queue| == |path|
    {
    }

    lemma QueuedMove(i: nat)
      requires QueueOk() && i < |queue|
      ensures Done() + |queue| == |path|
      ensures queue[i] == At(Done() + i) && queue[i].limits == path[Done() + i]
      ensures queue[i] in Moves()
    {
    }

    lemma RunGrows(p: int, delayed: seq<(Move, real, real)>)
      requires QueueOk() && Done() <= p < |path| && DelayedRun(p + 1, delayed) && Delayed(path, p)
      ensures DelayedRun(p, delayed + [(At(p), StartV2(path, p), StartV2(path, p + 1))])
    {
    }

    lemma RunShape(p: int, delayed: seq<(Move, real, real)>)
      requires QueueOk() && Done() <= p <= |path|
      ensures DelayedRun(p, delayed) ==> p + |delayed| <= |path| && (delayed != [] <==> Delayed(path, p))
      ensures !Delayed(path, p) ==> DelayedRun(p, [])
    {
    }

    /** The backward pass reaches the cut at `p`, or passes `p`. */
    lemma BoundaryStep(lazy: bool, searching: bool, c: int, p: int, top: int)
      requires QueueOk() && Done() <= p < |path| && p < top <= |path| && Done() <= c <= |path|
      requires Boundary(lazy, searching, c, p + 1, top) && Progress(searching, c, top)
      ensures searching && Cuts(path, p) ==> Boundary(lazy, false, p, p, p) && Progress(false, p, p)
      ensures searching && !Cuts(path, p) ==> Boundary(lazy, true, c, p, p) && Boundary(lazy, true, c, p, top)
      ensures !searching ==> Boundary(lazy, false, c, p, top) && Boundary(lazy, false, c, p, p)
      ensures searching ==> Progress(true, c, p)
      ensures !searching ==> top <= c
    {
    }

    /** Plans one queued move, and no other. */
    method SetOne(ghost p: int, m: Move, startV2: real, cruiseV2: real, endV2: real)
      requires QueueOk() && Path(path) && Done() <= p < |path| && m == At(p) && m.Unplanned()
      requires PlanAt(path, p) == Junction(startV2, cruiseV2, endV2)
      modifies m`plan, m`timesSet
      ensures QueueOk() && m.Planned(PlanAt(path, p))
      ensures forall i :: Done() <= i < |path| && i != p ==>
                At(i).plan == old(At(i).plan) && At(i).timesSet == old(At(i).timesSet)
    {
      TrapezoidsValid(path, p);
      hide PlanAt, Path;
      m.SetJunction(startV2, cruiseV2, endV2);
      forall i | Done() <= i < |path| && i != p
        ensures At(i) != m
      {
        assert queue[i - Done()] != queue[p - Done()];
      }
    }

    /** Plans move `p`, behind which everything up to `c` is planned. */
    method SetAt(ghost p: int, ghost c: int, m: Move, startV2: real, cruiseV2: real, endV2: real)
      requires QueueOk() && Path(path) && Done() <= p < c <= |path| && m == At(p)
      requires Progress(false, c, p + 1)
      requires PlanAt(path, p) == Junction(startV2, cruiseV2, endV2)
      modifies m`plan, m`timesSet
      ensures QueueOk() && Progress(false, c, p)
    {
      hide PlanAt, Path;
      SetOne(p, m, startV2, cruiseV2, endV2);
    }

    /**
     The peak of move `g` is being carried forward: of the delayed moves up to
     `top`, those before `p` are planned, and `mcV2` is what reaches them.
     */
    ghost predicate Carrying(g: int, p: int, top: int, c: int, mcV2: real)
      reads this`queue, this`path, this`committed, Moves()
    {
      && QueueOk() && Path(path)
      && Done() <= g < p <= top <= c <= |path|
      && mcV2 == CapV2(path, p - 1)
      && UnplannedIn(Done(), g + 1) && PlannedIn(g + 1, p)
      && UnplannedIn(p, top) && PlannedIn(top, c) && UnplannedIn(c, |path|)
    }

    /** Plans one delayed move and lowers what is carried on to the next. */
    method CarryOne(ghost g: int, ghost p: int, ghost top: int, ghost c: int,
                    m: Move, msV2: real, meV2: real, mcV2: real) returns (mcV2': real)
      requires Carrying(g, p, top, c, mcV2) && p < top && Delayed(path, p)
      requires m == At(p) && msV2 == StartV2(path, p) && meV2 == StartV2(path, p + 1)
      modifies m`plan, m`timesSet
      ensures Carrying(g, p + 1, top, c, mcV2')
    {
      DelayedStep(path, p);
      hide StartV2, PlanAt, CapV2, Smoothed, Delayed, Path;
      mcV2' := Min(mcV2, msV2);
      assert m.Unplanned();
      SetOne(p, m, Min(msV2, mcV2'), mcV2', Min(meV2, mcV2'));
      hide QueueOk;
      assert PlannedIn(g + 1, p + 1) by {
        assert forall i :: g + 1 <= i < p + 1 ==> At(i).Planned(PlanAt(path, i));
      }
    }

    /** Carries the peak of move `g` forward into the delayed moves behind it. */
    method SetDelayed(ghost g: int, ghost c: int, peakCruiseV2: real, delayed: seq<(Move, real, real)>)
      requires QueueOk() && Path(path) && Done() <= g < |path|
      requires DelayedRun(g + 1, delayed) && !Delayed(path, g)
      requires peakCruiseV2 == CapV2(path, g)
      requires g + 1 + |delayed| <= c <= |path| && Progress(false, c, g + 1 + |delayed|)
      modifies Moves()`plan, Moves()`timesSet
      ensures QueueOk() && Progress(false, c, g + 1)
    {
      hide *;
      QueueSize();
      CarryStarts(g, c, peakCruiseV2, delayed);
      var mcV2 := peakCruiseV2;
      var t := |delayed|;
      ghost var top := g + 1 + |delayed|;
      while t > 0
        modifies Moves()`plan, Moves()`timesSet
        invariant 0 <= t <= |delayed|
        invariant Carrying(g, top - t, top, c, mcV2)
      {
        t := t - 1;
        var (m, msV2, meV2) := delayed[t];
        RunEntry(g + 1, delayed, t);
        mcV2 := CarryOne(g, top - 1 - t, top, c, m, msV2, meV2, mcV2);
      }
      CarryEnds(g, top, c, mcV2);
    }

    lemma RunEntry(p: int, delayed: seq<(Move, real, real)>, t: nat)
      requires Done() + |queue| == |path| && Done() <= p && DelayedRun(p, delayed) && t < |delayed|
      ensures p + |delayed| <= |path|
      ensures var j := p + |delayed| - 1 - t;
              Delayed(path, j) && delayed[t] == (At(j), StartV2(path, j), StartV2(path, j + 1)) && At(j) in Moves()
    {
    }

    lemma CarryStarts(g: int, c: int, peakCruiseV2: real, delayed: seq<(Move, real, real)>)
      requires QueueOk() && Path(path) && Done() <= g < |path|
      requires peakCruiseV2 == CapV2(path, g)
      requires g + 1 + |delayed| <= c <= |path| && Progress(false, c, g + 1 + |delayed|)
      ensures Carrying(g, g + 1, g + 1 + |delayed|, c, peakCruiseV2)
    {
    }

    lemma CarryEnds(g: int, top: int, c: int, mcV2: real)
      requires Carrying(g, top, top, c, mcV2)
      ensures QueueOk() && Progress(false, c, g + 1)
    {
    }

    /** Removes the first `count` moves, which are planned, from the queue. */
    method Commit(count: nat) returns (moves: seq<Move>)
      requires QueueOk() && Path(path) && 0 < count <= |queue|
      requires PlannedIn(Done(), Done() + count)
      requires forall i :: 0 <= i < Done() ==> committed[i] == PlanAt(path, i)
      requires UnplannedIn(Done() + count, |path|)
      requires count < |queue| ==> Cuts(path, Done() + count)
      modifies this`queue, this`path, this`committed
      ensures Valid()
      ensures moves == old(queue)[..count] && queue == old(queue)[count..]
      ensures forall i :: 0 <= i < |moves| ==> moves[i].limits == old(path)[old(Done()) + i]
      ensures forall i :: 0 <= i < |moves| ==> moves[i].Planned(PlanAt(old(path), old(Done()) + i))
      ensures queue != [] ==> path == old(path) && old(committed) <= committed && Done() == old(Done()) + count
    {
      hide PlanAt, Path, Cuts;
      moves := queue[..count];
      assert forall i :: 0 <= i < |moves| ==> moves[i] == At(Done() + i);
      queue := queue[count..];
      ghost var d, q := Done(), path;
      committed := committed + seq(count, i requires 0 <= i < count => PlanAt(q, d + i));
      if queue == [] {
        path, committed := [], [];
        EmptyPath();
      }
      assert forall p :: Done() <= p < |path| ==> At(p) == old(At(p));
    }

    /**
     A move that can accelerate, at index `i` of the queue: opens a cruise peak if
     it tops the profile, and plans itself and the delayed moves behind it.
     */
    method Resolve(lazy: bool, i: nat, pass: Pass, startV2: real, smoothedV2: real)
      returns (updateFlushCount: bool, flushCount: nat, peakCruiseV2: real)
      requires i < |queue| && PassAt(lazy, i + 1, pass)
      requires !Delayed(path, Done() + i)
      requires startV2 == StartV2(path, Done() + i) && smoothedV2 == Smoothed(path, Done() + i)
      modifies Moves()`plan, Moves()`timesSet
      ensures QueueOk() && flushCount <= |queue|
      ensures peakCruiseV2 == PeakV2(path, Done() + i)
      ensures Boundary(lazy, updateFlushCount, Done() + flushCount, Done() + i, Done() + i)
      ensures Progress(updateFlushCount, Done() + flushCount, Done() + i)
    {
      hide StartV2, Smoothed, Delayed, Peaks, PeakV2, CapV2, PlanAt, Path, Cuts, Min;
      hide QueueOk, DelayedRun, Boundary, Progress, PlannedIn, UnplannedIn;
      updateFlushCount, flushCount, peakCruiseV2 := pass.updateFlushCount, pass.flushCount, pass.peakCruiseV2;
      var move := queue[i];
      ghost var p := Done() + i;
      QueuedMove(i);
      BackStep(path, p);
      CutTest(path, p);
      RunShape(p + 1, pass.delayed);
      BoundaryStep(lazy, updateFlushCount, Done() + flushCount, p, p + 1 + |pass.delayed|);
      var reachableStartV2 := pass.nextEndV2 + move.limits.delta;
      var reachableSmoothedV2 := pass.nextSmoothedV2 + move.limits.smoothDelta;
      if smoothedV2 + move.limits.smoothDelta > pass.nextSmoothedV2 || pass.delayed != [] {
        // This move can decelerate, or it accelerates behind delayed moves.
        if updateFlushCount && peakCruiseV2 != 0.0 {
          flushCount := i;
          updateFlushCount := false;
        }
        peakCruiseV2 := Min(move.limits.maxCruise, (smoothedV2 + reachableSmoothedV2) * 0.5);
        if pass.delayed != [] && !updateFlushCount && i < flushCount {
          SetDelayed(p, Done() + flushCount, peakCruiseV2, pass.delayed);
        }
      }
      if !updateFlushCount && i < flushCount {
        var cruiseV2 := Min(Min((startV2 + reachableStartV2) * 0.5, move.limits.maxCruise), peakCruiseV2);
        SetAt(p, Done() + flushCount, move, Min(startV2, cruiseV2), cruiseV2, Min(pass.nextEndV2, cruiseV2));
      }
    }

    /** The state of the backward pass when the moves from index `i` of the queue on have been visited. */
    ghost predicate PassAt(lazy: bool, i: nat, pass: Pass)
      reads this`queue, this`path, this`committed, Moves()
    {
      && QueueOk() && Path(path)
      && i <= |queue| && pass.flushCount <= |queue|
      && pass.nextEndV2 == StartV2(path, Done() + i)
      && pass.nextSmoothedV2 == Smoothed(path, Done() + i)
      && pass.peakCruiseV2 == PeakV2(path, Done() + i)
      && Done() + i + |pass.delayed| <= |path|
      && DelayedRun(Done() + i, pass.delayed)
      && Boundary(lazy, pass.updateFlushCount, Done() + pass.flushCount, Done() + i, Done() + i + |pass.delayed|)
      && Progress(pass.updateFlushCount, Done() + pass.flushCount, Done() + i + |pass.delayed|)
    }

    lemma PassStarts(lazy: bool, pass: Pass)
      requires Valid() && pass == Pass(lazy, |queue|, [], 0.0, 0.0, 0.0)
      ensures PassAt(lazy, |queue|, pass)
    {
      EndOfPath(path);
    }

    /** What the flush may commit once the whole queue has been visited. */
    lemma PassEnds(lazy: bool, pass: Pass)
      requires PassAt(lazy, 0, pass) && CommitPoint(path, Done())
      ensures QueueOk() && pass.flushCount <= |queue|
      ensures pass.updateFlushCount ==> lazy && UnplannedIn(Done(), |path|)
      ensures !pass.updateFlushCount ==>
                PlannedIn(Done(), Done() + pass.flushCount) && UnplannedIn(Done() + pass.flushCount, |path|)
      ensures !lazy ==> !pass.updateFlushCount && pass.flushCount == |queue|
      ensures lazy && !pass.updateFlushCount ==> pass.flushCount < |queue| && Cuts(path, Done() + pass.flushCount)
      ensures lazy ==>
                forall f :: Done() + (if pass.updateFlushCount then 0 else pass.flushCount) < f < |path| ==> !Cuts(path, f)
    {
      hide StartV2, Smoothed, Delayed, PeakV2, PlanAt, Path, Cuts, DelayedRun, QueueOk, UnplannedIn, PlannedIn;
      QueueSize();
      if queue == [] {
        EndOfPath(path);
      } else {
        CommitNotDelayed(path, Done());
      }
      RunShape(Done(), pass.delayed);
    }

    /** The body of the backward loop. */
    method Visit(lazy: bool, i: nat, pass: Pass) returns (pass': Pass)
      requires i < |queue| && PassAt(lazy, i + 1, pass)
      modifies Moves()`plan, Moves()`timesSet
      ensures PassAt(lazy, i, pass')
    {
      hide StartV2, Smoothed, Delayed, Peaks, PeakV2, CapV2, PlanAt, Path, Cuts, Min;
      hide QueueOk, DelayedRun, Boundary, Progress, PlannedIn, UnplannedIn;
      ghost var p := Done() + i;
      var move := queue[i];
      QueuedMove(i);
      BackStep(path, p);
      var startV2 := Min(move.limits.maxStart, pass.nextEndV2 + move.limits.delta);
      var reachableSmoothedV2 := pass.nextSmoothedV2 + move.limits.smoothDelta;
      var smoothedV2 := Min(move.limits.maxSmoothed, reachableSmoothedV2);
      if smoothedV2 < reachableSmoothedV2 {
        RunShape(p, []);
        var updateFlushCount, flushCount, peakCruiseV2 := Resolve(lazy, i, pass, startV2, smoothedV2);
        pass' := Pass(updateFlushCount, flushCount, [], startV2, smoothedV2, peakCruiseV2);
      } else {
        CutTest(path, p);
        BoundaryStep(lazy, pass.updateFlushCount, Done() + pass.flushCount, p, p + 1 + |pass.delayed|);
        RunGrows(p, pass.delayed);
        pass' := pass.(delayed := pass.delayed + [(move, startV2, pass.nextEndV2)],
                       nextEndV2 := startV2, nextSmoothedV2 := smoothedV2);
      }
    }

    /**
     Plans the queue from its end. `flushCount` moves are ready for the toolhead,
     unless the pass is `lazy` and `searching` still.
     */
    method BackwardPass(lazy: bool) returns (searching: bool, flushCount: nat)
      requires Valid()
      modifies Moves()`plan, Moves()`timesSet
      ensures QueueOk() && flushCount <= |queue|
      ensures searching ==> lazy && UnplannedIn(Done(), |path|)
      ensures !searching ==> PlannedIn(Done(), Done() + flushCount) && UnplannedIn(Done() + flushCount, |path|)
      ensures !lazy ==> !searching && flushCount == |queue|
      ensures lazy && !searching ==> flushCount < |queue| && Cuts(path, Done() + flushCount)
      ensures lazy ==> forall f :: Done() + (if searching then 0 else flushCount) < f < |path| ==> !Cuts(path, f)
    {
      hide StartV2, Smoothed, Delayed, Peaks, PeakV2, CapV2, PlanAt, Path, Cuts;
      hide QueueOk, DelayedRun, Boundary, Progress, PlannedIn, UnplannedIn, PassAt;
      var pass := Pass(lazy, |queue|, [], 0.0, 0.0, 0.0);
      PassStarts(lazy, pass);
      var i := |queue|;
      while i > 0
        modifies Moves()`plan, Moves()`timesSet
        invariant 0 <= i <= |queue| && PassAt(lazy, i, pass)
      {
        i := i - 1;
        pass := Visit(lazy, i, pass);
      }
      PassEnds(lazy, pass);
      searching, flushCount := pass.updateFlushCount, pass.flushCount;
    }

    /**
     Plans the queue and hands the finished moves to the toolhead: all of them,
     or, if lazy, those no later move can influence.
     */
    method Flush(lazy: bool) returns (moves: seq<Move>)
      requires Valid()
      modifies this, Moves()`plan, Moves()`timesSet
      ensures Valid()
      ensures moves + queue == old(queue)
      ensures forall i :: 0 <= i < |moves| ==> moves[i].limits == old(path)[old(Done()) + i]
      ensures forall i :: 0 <= i < |moves| ==> moves[i].Planned(PlanAt(old(path), old(Done()) + i))
      ensures !lazy ==> moves == old(queue) && queue == []
      ensures lazy ==> path == old(path) && old(committed) <= committed && Done() == old(Done()) + |moves|
      ensures lazy ==> forall i :: 0 <= i < |moves| ==> moves[i].Planned(committed[old(Done()) + i])
      ensures lazy ==> forall f :: Done() < f < |path| ==> !Cuts(path, f)
      ensures junctionFlush == 0.25
    {
      hide PlanAt, Path, Cuts, QueueOk, UnplannedIn, PlannedIn;
      junctionFlush := LOOKAHEAD_FLUSH_TIME;
      var updateFlushCount, flushCount := BackwardPass(lazy);
      if updateFlushCount || flushCount == 0 {
        return [];
      }
      moves := Commit(flushCount);
    }

    /** Appends a move to the path; its junction with the last move is limited by `corner`. */
    method Append(move: Move, reversal: bool, corner: real)
      requires Valid() && move !in queue && 0.0 <= corner
      requires move.Unplanned() && move.Consistent() && LimitsOk(move.limits)
      requires move.limits.maxStart == 0.0 && move.limits.maxSmoothed == 0.0
      modifies this`queue, this`path, move`limits
      ensures Valid()
      ensures queue == old(queue) + [move] && path == old(path) + [move.limits]
      ensures old(path) == [] <==> old(queue) == []
      ensures old(queue) == [] ==> move.limits == old(move.limits)
      ensures old(queue) != [] ==>
                Cornered(old(path)[|old(path)| - 1], old(move.limits), move.limits,
                         move.kinematic && old(queue)[|old(queue)| - 1].kinematic && !reversal, corner)
    {
      hide StartV2, Smoothed, Delayed, Peaks, PeakV2, CapV2, PlanAt, Cuts, Cornered;
      ghost var before := path;
      if queue != [] {
        QueuedMove(|queue| - 1);
        move.CalcJunction(queue[|queue| - 1], reversal, corner);
      }
      queue := queue + [move];
      path := path + [move.limits];
      PathExtends(before, move.limits);
      CommittedIsFinal(before, path, Done());
      assert QueueOk() && UnplannedIn(Done(), |path|) by {
        assert forall p :: Done() <= p < |before| ==> At(p) == old(At(p)) && At(p) != move;
        assert At(|before|) == move;
      }
      hide QueueOk, UnplannedIn, Path;
    }

    /** Counts queued time; once enough is queued, flushes what is final. */
    method CountTime(moveTime: real) returns (moves: seq<Move>)
      requires Valid()
      modifies this, Moves()`plan, Moves()`timesSet
      ensures Valid()
      ensures moves + queue == old(queue) && path == old(path)
      ensures old(committed) <= committed && Done() == old(Done()) + |moves|
      ensures forall i :: 0 <= i < |moves| ==> moves[i].limits == path[old(Done()) + i]
      ensures forall i :: 0 <= i < |moves| ==> moves[i].Planned(committed[old(Done()) + i])
      ensures old(junctionFlush) - moveTime > 0.0 ==> moves == [] && junctionFlush == old(junctionFlush) - moveTime
      ensures old(junctionFlush) - moveTime <= 0.0 ==>
                junctionFlush == 0.25 && forall f :: Done() < f < |path| ==> !Cuts(path, f)
    {
      hide Valid, Cuts;
      moves := [];
      junctionFlush := junctionFlush - moveTime;
      if junctionFlush <= 0.0 {
        moves := Flush(true);
      }
    }

    /**
     Queues a move behind the others. Its start is limited by the corner with the
     last of them, and its least duration is counted; when the counted time runs
     out, no cut stays behind in the queue.
     */
    method AddMove(move: Move, reversal: bool, corner: real) returns (moves: seq<Move>)
      requires Valid() && move !in queue && 0.0 <= corner
      requires move.Unplanned() && move.Consistent() && LimitsOk(move.limits)
      requires move.limits.maxStart == 0.0 && move.limits.maxSmoothed == 0.0
      modifies this, move`limits, (Moves() + {move})`plan, (Moves() + {move})`timesSet
      ensures Valid()
      ensures moves + queue == old(queue) + [move]
      ensures path == old(path) + [move.limits]
      ensures old(path) == [] <==> old(queue) == []
      ensures old(queue) == [] ==>
                moves == [] && move.limits == old(move.limits) && junctionFlush == old(junctionFlush)
      ensures old(queue) != [] ==>
                Cornered(old(path)[|old(path)| - 1], old(move.limits), move.limits,
                         move.kinematic && old(queue)[|old(queue)| - 1].kinematic && !reversal, corner)
      ensures old(queue) != [] && old(junctionFlush) - move.minMoveT > 0.0 ==>
                moves == [] && junctionFlush == old(junctionFlush) - move.minMoveT
      ensures old(queue) != [] && old(junctionFlush) - move.minMoveT <= 0.0 ==>
                junctionFlush == 0.25 && forall f :: Done() < f < |path| ==> !Cuts(path, f)
      ensures old(committed) <= committed && Done() == old(Done()) + |moves|
      ensures forall i :: 0 <= i < |moves| ==> moves[i].limits == path[old(Done()) + i]
      ensures forall i :: 0 <= i < |moves| ==> moves[i].Planned(committed[old(Done()) + i])
    {
      hide Valid, Cornered, Cuts;
      Append(move, reversal, corner);
      moves := [];
      if |queue| == 1 {
        return;
      }
      moves := CountTime(move.minMoveT);
    }

    method SetFlushTime(flushTime: real)
      requires Valid()
      modifies this`junctionFlush
      ensures Valid() && junctionFlush == flushTime
    {
      junctionFlush := flushTime;
    }

    method Reset()
      modifies this
      ensures Valid() && queue == [] && path == [] && committed == []
      ensures junctionFlush == 0.25
    {
      queue := [];
      junctionFlush := LOOKAHEAD_FLUSH_TIME;
      path, committed := [], [];
    }
  }

  // ----- whole runs ----------------------------------------------------------------

  ghost function LimitsOf(moves: seq<Move>): (q: seq<Limits>)
    reads set m | m in moves
    ensures |q| == |moves|
  {
    seq(|moves|, i requires 0 <= i < |moves| reads set m | m in moves => moves[i].limits)
  }

  /** A move as it comes from its constructor and LimitSpeed. */
  ghost predicate Pristine(m: Move)
    reads m
  {
    && m.Unplanned() && m.Consistent() && LimitsOk(m.limits)
    && m.limits.maxStart == 0.0 && m.limits.maxSmoothed == 0.0
  }

  ghost predicate Distinct(moves: seq<Move>) {
    forall i, j :: 0 <= i < j < |moves| ==> moves[i] != moves[j]
  }

  /** A path under way: the moves in `done` are flushed, those in `rest` not yet added. */
  ghost predicate Running(q: MoveQueue, done: seq<Move>, rest: seq<Move>)
    reads q, q.Moves(), done, rest
  {
    && q.Valid() && |done| == q.Done()
    && Distinct(done + q.queue + rest)
    && (forall i :: 0 <= i < |done| ==> done[i].limits == q.path[i] && done[i].Planned(q.committed[i]))
    && (forall i :: 0 <= i < |rest| ==> Pristine(rest[i]))
  }

  /** The three parts of a running path share no move. */
  lemma Apart(done: seq<Move>, queue: seq<Move>, rest: seq<Move>)
    requires Distinct(done + queue + rest)
    ensures forall i :: 0 <= i < |done| ==> done[i] !in queue && done[i] !in rest
    ensures forall i :: 0 <= i < |rest| ==> rest[i] !in queue
    ensures forall i :: 0 < i < |rest| ==> rest[i] != rest[0]
  {
    var all := done + queue + rest;
    forall i, j | 0 <= i < |done| && 0 <= j < |queue|
      ensures done[i] != queue[j]
    {
      assert all[i] == done[i] && all[|done| + j] == queue[j];
    }
    forall i, j | 0 <= i < |done| && 0 <= j < |rest|
      ensures done[i] != rest[j]
    {
      assert all[i] == done[i] && all[|done| + |queue| + j] == rest[j];
    }
    forall i, j | 0 <= i < |rest| && 0 <= j < |queue|
      ensures rest[i] != queue[j]
    {
      assert all[|done| + |queue| + i] == rest[i] && all[|done| + j] == queue[j];
    }
    forall i | 0 < i < |rest|
      ensures rest[i] != rest[0]
    {
      assert all[|done| + |queue| + i] == rest[i] && all[|done| + |queue|] == rest[0];
    }
  }

  lemma PartsOf(all: seq<Move>, done: seq<Move>, queue: seq<Move>, rest: seq<Move>)
    requires done + queue + rest == all
    ensures forall m :: m in queue ==> m in all
    ensures forall m :: m in rest ==> m in all
  {
    forall m | m in queue
      ensures m in all
    {
      var j :| 0 <= j < |queue| && queue[j] == m;
      assert all[|done| + j] == m;
    }
    forall m | m in rest
      ensures m in all
    {
      var j :| 0 <= j < |rest| && rest[j] == m;
      assert all[|done| + |queue| + j] == m;
    }
  }

  /** The next move is added; the moves flushed before and those to come are not touched. */
  method AddApart(q: MoveQueue, done: seq<Move>, rest: seq<Move>, reversal: bool, corner: real)
    returns (flushed: seq<Move>)
    requires Running(q, done, rest) && rest != [] && 0.0 <= corner
    modifies q, {rest[0]}`limits, (q.Moves() + {rest[0]})`plan, (q.Moves() + {rest[0]})`timesSet
    ensures q.Valid() && flushed + q.queue == old(q.queue) + [rest[0]]
    ensures |q.committed| == |done| + |flushed| <= |q.path| && q.path == old(q.path) + [rest[0].limits]
    ensures forall i :: 0 <= i < |done| ==> done[i].limits == q.path[i] && done[i].Planned(q.committed[i])
    ensures forall i :: 0 <= i < |flushed| ==>
              flushed[i].limits == q.path[|done| + i] && flushed[i].Planned(q.committed[|done| + i])
    ensures forall i :: 0 < i < |rest| ==> Pristine(rest[i]) && rest[i].limits == old(rest[i].limits)
    ensures old(q.path) == [] <==> old(q.queue) == []
    ensures old(q.queue) == [] ==> rest[0].limits == old(rest[0].limits)
    ensures old(q.queue) != [] ==>
              Cornered(old(q.path)[|old(q.path)| - 1], old(rest[0].limits), rest[0].limits,
                       rest[0].kinematic && old(q.queue)[|old(q.queue)| - 1].kinematic && !reversal, corner)
  {
    hide q.Valid, PlanAt, Path, Cornered, Cuts, Distinct;
    Apart(done, q.queue, rest);
    q.CommittedPlan();
    flushed := q.AddMove(rest[0], reversal, corner);
    q.CommittedPlan();
  }

  method AddNext(q: MoveQueue, done: seq<Move>, rest: seq<Move>, reversal: bool, corner: real)
    returns (done': seq<Move>)
    requires Running(q, done, rest) && rest != [] && 0.0 <= corner
    modifies q, {rest[0]}`limits, (q.Moves() + {rest[0]})`plan, (q.Moves() + {rest[0]})`timesSet
    ensures done' + q.queue + rest[1..] == done + old(q.queue) + rest
    ensures Running(q, done', rest[1..])
    ensures q.path == old(q.path) + [rest[0].limits]
    ensures old(q.path) == [] <==> old(q.queue) == []
    ensures old(q.queue) == [] ==> rest[0].limits == old(rest[0].limits)
    ensures old(q.queue) != [] ==>
              Cornered(old(q.path)[|old(q.path)| - 1], old(rest[0].limits), rest[0].limits,
                       rest[0].kinematic && old(q.queue)[|old(q.queue)| - 1].kinematic && !reversal, corner)
    ensures forall i :: 0 < i < |rest| ==> rest[i].limits == old(rest[i].limits)
  {
    hide q.Valid, Cornered, Distinct, Pristine;
    var flushed := AddApart(q, done, rest, reversal, corner);
    done' := done + flushed;
    assert done' + q.queue + rest[1..] == done + (flushed + q.queue) + rest[1..];
    assert done + old(q.queue) + rest == done + (old(q.queue) + [rest[0]]) + rest[1..];
    assert forall i :: |done| <= i < |done'| ==> done'[i] == flushed[i - |done|];
    assert forall i :: 0 <= i < |rest| - 1 ==> rest[1..][i] == rest[i + 1];
  }

  method FlushEarly(q: MoveQueue, done: seq<Move>, ghost rest: seq<Move>) returns (done': seq<Move>)
    requires Running(q, done, rest)
    modifies q, q.Moves()`plan, q.Moves()`timesSet
    ensures done' + q.queue + rest == done + old(q.queue) + rest
    ensures Running(q, done', rest) && q.path == old(q.path)
  {
    hide q.Valid, PlanAt, Path, Cuts, Distinct;
    Apart(done, q.queue, rest);
    q.CommittedPlan();
    var flushed := q.Flush(true);
    done' := done + flushed;
    assert done' + q.queue + rest == done + (flushed + q.queue) + rest;
    forall i | 0 <= i < |done'|
      ensures done'[i].limits == q.path[i] && done'[i].Planned(q.committed[i])
    {
      if i < |done| {
        assert done'[i] == done[i] && done[i] !in old(q.Moves());
      } else {
        assert done'[i] == flushed[i - |done|];
      }
    }
  }

  method FlushAll(q: MoveQueue, done: seq<Move>) returns (done': seq<Move>)
    requires Running(q, done, [])
    modifies q, q.Moves()`plan, q.Moves()`timesSet
    ensures done' == done + old(q.queue)
    ensures q.Valid() && q.queue == []
    ensures LimitsOf(done') == old(q.path) && Path(LimitsOf(done'))
    ensures forall i :: 0 <= i < |done'| ==> done'[i].Planned(PlanAt(LimitsOf(done'), i))
  {
    hide q.Valid, PlanAt, Path, Cuts, Distinct;
    Apart(done, q.queue, []);
    q.CommittedPlan();
    ghost var path := q.path;
    var flushed := q.Flush(false);
    done' := done + flushed;
    forall i | 0 <= i < |done'|
      ensures done'[i].limits == path[i] && done'[i].Planned(PlanAt(path, i))
    {
      if i < |done| {
        assert done'[i] == done[i] && done[i] !in old(q.Moves());
      } else {
        assert done'[i] == flushed[i - |done|];
      }
    }
    assert LimitsOf(done') == path;
  }

  ghost predicate Rolling(moves: seq<Move>, reversals: seq<bool>, i: int)
    requires 0 < i < |moves| <= |reversals|
  {
    moves[i].kinematic && moves[i - 1].kinematic && !reversals[i]
  }

  /** The moves of `path` came with the limits `came` and met at the given corners. */
  ghost predicate Cornering(moves: seq<Move>, came: seq<Limits>, path: seq<Limits>,
                            reversals: seq<bool>, corners: seq<real>)
    requires |path| <= |moves| == |came| == |reversals| == |corners|
  {
    && (path != [] ==> path[0] == came[0])
    && forall i :: 0 < i < |path| ==>
         Cornered(path[i - 1], came[i], path[i], Rolling(moves, reversals, i), corners[i])
  }

  lemma CorneringMore(moves: seq<Move>, came: seq<Limits>, path: seq<Limits>, next: Limits,
                      reversals: seq<bool>, corners: seq<real>)
    requires |path| < |moves| == |came| == |reversals| == |corners|
    requires Cornering(moves, came, path, reversals, corners)
    requires path == [] ==> next == came[0]
    requires path != [] ==> var k := |path|;
               Cornered(path[k - 1], came[k], next, Rolling(moves, reversals, k), corners[k])
    ensures Cornering(moves, came, path + [next], reversals, corners)
  {
    hide Cornered;
  }

  /** The last queued move is the one before the next move of the path. */
  lemma LastQueued(moves: seq<Move>, done: seq<Move>, queue: seq<Move>, k: int)
    requires 0 <= k < |moves| && done + queue + moves[k..] == moves && queue != []
    ensures 0 < k && queue[|queue| - 1] == moves[k - 1]
  {
    assert |done + queue| == k;
    assert (done + queue + moves[k..])[k - 1] == queue[|queue| - 1];
  }

  /** A planned start keeps to the corner, and is zero where the moves may not join at speed. */
  lemma StartKeepsToCorner(moves: seq<Move>, came: seq<Limits>, path: seq<Limits>,
                           reversals: seq<bool>, corners: seq<real>, i: int)
    requires |path| == |moves| == |came| == |reversals| == |corners| && Path(path)
    requires Cornering(moves, came, path, reversals, corners) && 0 < i < |path| && 0.0 <= corners[i]
    ensures 0.0 <= PlanAt(path, i).start <= corners[i]
    ensures !Rolling(moves, reversals, i) ==> PlanAt(path, i).start == 0.0
  {
    TrapezoidsValid(path, i);
    hide PlanAt, Path;
    if Rolling(moves, reversals, i) {
      var bounds := [corners[i], came[i].maxCruise, path[i - 1].maxCruise, path[i - 1].maxStart + path[i - 1].delta];
      assert bounds[0] in bounds && IsLeast(path[i].maxStart, bounds);
    }
  }

  /** The first `k` moves have been added, and the others are as they came. */
  ghost predicate Driving(q: MoveQueue, done: seq<Move>, moves: seq<Move>, k: nat, came: seq<Limits>,
                          reversals: seq<bool>, corners: seq<real>)
    requires k <= |moves| == |came| == |reversals| == |corners|
    reads q, q.Moves(), done, moves
  {
    && Running(q, done, moves[k..])
    && done + q.queue + moves[k..] == moves
    && |q.path| == k && Cornering(moves, came, q.path, reversals, corners)
    && forall i :: k <= i < |moves| ==> moves[i].limits == came[i]
  }

  lemma StartRun(q: MoveQueue, moves: seq<Move>, reversals: seq<bool>, corners: seq<real>)
    requires |moves| == |reversals| == |corners|
    requires q.Valid() && q.queue == [] && Distinct(moves)
    requires forall i :: 0 <= i < |moves| ==> Pristine(moves[i])
    ensures Driving(q, [], moves, 0, LimitsOf(moves), reversals, corners)
  {
    assert [] + q.queue + moves[0..] == moves;
  }

  method DriveNext(q: MoveQueue, done: seq<Move>, moves: seq<Move>, k: nat, ghost came: seq<Limits>,
                   reversals: seq<bool>, corners: seq<real>) returns (done': seq<Move>)
    requires k < |moves| == |came| == |reversals| == |corners| && 0.0 <= corners[k]
    requires Driving(q, done, moves, k, came, reversals, corners)
    modifies q, (set m | m in moves)`limits, (set m | m in moves)`plan, (set m | m in moves)`timesSet
    ensures Driving(q, done', moves, k + 1, came, reversals, corners)
  {
    hide Running, q.Valid, Path, PlanAt, Distinct, Pristine, Cornered, Cornering, LimitsOf;
    ghost var path := q.path;
    var rest := moves[k..];
    PartsOf(moves, done, q.queue, rest);
    if q.queue != [] {
      LastQueued(moves, done, q.queue, k);
    }
    assert rest[1..] == moves[k + 1..] && forall i :: k <= i < |moves| ==> moves[i] == rest[i - k];
    done' := AddNext(q, done, rest, reversals[k], corners[k]);
    CorneringMore(moves, came, path, moves[k].limits, reversals, corners);
  }

  method DriveEarly(q: MoveQueue, done: seq<Move>, moves: seq<Move>, k: nat, ghost came: seq<Limits>,
                    reversals: seq<bool>, corners: seq<real>) returns (done': seq<Move>)
    requires k <= |moves| == |came| == |reversals| == |corners|
    requires Driving(q, done, moves, k, came, reversals, corners)
    modifies q, (set m | m in moves)`plan, (set m | m in moves)`timesSet
    ensures Driving(q, done', moves, k, came, reversals, corners)
  {
    hide Running, q.Valid, Path, PlanAt, Distinct, Pristine, Cornered, LimitsOf;
    PartsOf(moves, done, q.queue, moves[k..]);
    done' := FlushEarly(q, done, moves[k..]);
  }

  method DriveOut(q: MoveQueue, done: seq<Move>, moves: seq<Move>, ghost came: seq<Limits>,
                  reversals: seq<bool>, corners: seq<real>)
    requires |moves| == |came| == |reversals| == |corners|
    requires Driving(q, done, moves, |moves|, came, reversals, corners)
    modifies q, (set m | m in moves)`plan, (set m | m in moves)`timesSet
    ensures q.Valid() && q.queue == []
    ensures Path(LimitsOf(moves)) && Cornering(moves, came, LimitsOf(moves), reversals, corners)
    ensures forall i :: 0 <= i < |moves| ==> moves[i].Planned(PlanAt(LimitsOf(moves), i))
  {
    hide Running, q.Valid, Path, PlanAt, Distinct, Pristine, Cornered, Cornering, LimitsOf;
    PartsOf(moves, done, q.queue, []);
    assert moves[|moves|..] == [] && done + q.queue == moves;
    var all := FlushAll(q, done);
  }

  /**
   Batch independence: however a path is flushed while its moves are added, by
   the queued time (`flushTime`) or at arbitrary other moments (`early`), every
   move is planned exactly once, as if the whole path had been planned at once,
   and no move starts faster than its corner allows.
   */
  method DrivePath(q: MoveQueue, moves: seq<Move>, flushTime: real,
                   reversals: seq<bool>, corners: seq<real>, early: seq<bool>)
    requires q.Valid() && q.queue == []
    requires Distinct(moves) && forall i :: 0 <= i < |moves| ==> Pristine(moves[i])
    requires |reversals| == |corners| == |early| == |moves|
    requires forall k :: 0 <= k < |corners| ==> 0.0 <= corners[k]
    modifies q, (set m | m in moves)`limits, (set m | m in moves)`plan, (set m | m in moves)`timesSet
    ensures q.Valid() && q.queue == []
    ensures Path(LimitsOf(moves))
    ensures forall i :: 0 <= i < |moves| ==> moves[i].Planned(PlanAt(LimitsOf(moves), i))
    ensures Cornering(moves, old(LimitsOf(moves)), LimitsOf(moves), reversals, corners)
    ensures forall i :: 0 < i < |moves| ==> 0.0 <= moves[i].plan.junction.start <= corners[i]
    ensures forall i :: 0 < i < |moves| && (reversals[i] || !moves[i].kinematic || !moves[i - 1].kinematic) ==>
              moves[i].plan.junction.start == 0.0
  {
    q.SetFlushTime(flushTime);
    ghost var came := LimitsOf(moves);
    StartRun(q, moves, reversals, corners);
    hide Running, Driving, q.Valid, Path, PlanAt, Distinct, Pristine, Cornering, LimitsOf;
    var done, k := [], 0;
    while k < |moves|
      invariant 0 <= k <= |moves| && Driving(q, done, moves, k, came, reversals, corners)
    {
      done := DriveNext(q, done, moves, k, came, reversals, corners);
      k := k + 1;
      if early[k - 1] {
        done := DriveEarly(q, done, moves, k, came, reversals, corners);
      }
    }
    DriveOut(q, done, moves, came, reversals, corners);
    forall i | 0 < i < |moves|
      ensures 0.0 <= moves[i].plan.junction.start <= corners[i]
      ensures !Rolling(moves, reversals, i) ==> moves[i].plan.junction.start == 0.0
    {
      StartKeepsToCorner(moves, came, LimitsOf(moves), reversals, corners, i);
    }
  }
}
