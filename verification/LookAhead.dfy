/**
 The look-ahead plan of `klippy/toolhead.py`, as a function of the moves of one
 path, and the theorems about it. Speeds are squared (the source's `_v2`
 suffix) and exact: `real` instead of floating point.

 All functions take the whole path `q` and an index `i <= |q|`; index `|q|`
 stands for the stop after the last move.
 */
module LookAhead {
  import opened Reals

  /** The speed limits of one queued move (the fields `Move` computes). */
  datatype Limits = Limits(maxStart: real, maxCruise: real, delta: real,
                           maxSmoothed: real, smoothDelta: real)

  /** The arguments of `Move.set_junction`. */
  datatype Junction = Junction(start: real, cruise: real, end: real)

  // ----- what the source establishes about a path ---------------------------

  ghost predicate LimitsOk(m: Limits) {
    && 0.0 <= m.maxSmoothed <= m.maxStart <= m.maxCruise
    && 0.0 < m.maxCruise
    && 0.0 < m.smoothDelta <= m.delta
  }

  /** What `calc_junction` establishes between a move and the one before it. */
  ghost predicate Joined(prev: Limits, m: Limits) {
    && m.maxStart <= prev.maxCruise
    && m.maxStart <= prev.maxStart + prev.delta
    && m.maxSmoothed == Min(m.maxStart, prev.maxSmoothed + prev.smoothDelta)
  }

  /** A path: the moves queued since the look-ahead queue was last empty. */
  ghost predicate Path(q: seq<Limits>) {
    && (forall i :: 0 <= i < |q| ==> LimitsOk(q[i]))
    && (q != [] ==> q[0].maxStart == 0.0)
    && (forall i :: 0 < i < |q| ==> Joined(q[i - 1], q[i]))
  }

  lemma EmptyPath()
    ensures Path([])
  {
  }

  lemma PathExtends(q: seq<Limits>, m: Limits)
    requires Path(q) && LimitsOk(m)
    requires if q == [] then m.maxStart == 0.0 else Joined(q[|q| - 1], m)
    ensures Path(q + [m])
  {
  }

  // ----- the backward pass ---------------------------------------------------

  /** `start_v2`: the junction speed before move `i`, stopping after the last. */
  ghost function StartV2(q: seq<Limits>, i: nat): real
    requires i <= |q|
    decreases |q| - i
  {
    if i == |q| then 0.0 else Min(q[i].maxStart, StartV2(q, i + 1) + q[i].delta)
  }

  /** `smoothed_v2`: the same at the reduced "acceleration to deceleration" rate. */
  ghost function Smoothed(q: seq<Limits>, i: nat): real
    requires i <= |q|
    decreases |q| - i
  {
    if i == |q| then 0.0 else Min(q[i].maxSmoothed, Smoothed(q, i + 1) + q[i].smoothDelta)
  }

  /** `reachable_smoothed_v2` of move `i`. */
  ghost function Reach(q: seq<Limits>, i: nat): real
    requires i < |q|
  {
    Smoothed(q, i + 1) + q[i].smoothDelta
  }

  /** Move `i` can only decelerate, so it waits for its cruise peak. */
  ghost predicate Delayed(q: seq<Limits>, i: nat)
    requires i <= |q|
  {
    i < |q| && !(Smoothed(q, i) < Reach(q, i))
  }

  /** Move `i` opens a new cruise peak. */
  ghost predicate Peaks(q: seq<Limits>, i: nat)
    requires i < |q|
  {
    && !Delayed(q, i)
    && (Smoothed(q, i) + q[i].smoothDelta > Smoothed(q, i + 1) || Delayed(q, i + 1))
  }

  /** `peak_cruise_v2` once move `i` has been handled. */
  ghost function PeakV2(q: seq<Limits>, i: nat): real
    requires i <= |q|
    decreases |q| - i
  {
    if i == |q| then 0.0
    else if Peaks(q, i) then Min(q[i].maxCruise, (Smoothed(q, i) + Reach(q, i)) * 0.5)
    else PeakV2(q, i + 1)
  }

  /** `mc_v2`: the peak as it is propagated forward through delayed moves. */
  ghost function CapV2(q: seq<Limits>, i: nat): real
    requires i < |q|
  {
    if Delayed(q, i) && i > 0 then Min(CapV2(q, i - 1), StartV2(q, i)) else PeakV2(q, i)
  }

  ghost function CruiseV2(q: seq<Limits>, i: nat): real
    requires i < |q|
  {
    if Delayed(q, i) then CapV2(q, i)
    else Min(Min((StartV2(q, i) + (StartV2(q, i + 1) + q[i].delta)) * 0.5, q[i].maxCruise), PeakV2(q, i))
  }

  /** The junction planned for move `i` when all of `q` is planned at once. */
  ghost function PlanAt(q: seq<Limits>, i: nat): Junction
    requires i < |q|
  {
    var c := CruiseV2(q, i);
    Junction(Min(StartV2(q, i), c), c, Min(StartV2(q, i + 1), c))
  }

  /** The whole path planned at once. */
  ghost function Plan(q: seq<Limits>): (js: seq<Junction>)
    ensures |js| == |q|
  {
    seq(|q|, i requires 0 <= i < |q| => PlanAt(q, i))
  }

  // ----- bounds of the two profiles -------------------------------------------

  lemma {:induction false} ProfileBounds(q: seq<Limits>, i: nat)
    requires Path(q) && i <= |q|
    ensures 0.0 <= Smoothed(q, i) <= StartV2(q, i)
    ensures i < |q| ==> Smoothed(q, i) <= q[i].maxSmoothed && StartV2(q, i) <= q[i].maxStart
    decreases |q| - i
  {
    if i < |q| {
      assert LimitsOk(q[i]);
      ProfileBounds(q, i + 1);
    }
  }

  /** Neighbouring junctions differ by at most what the move between can change. */
  lemma {:induction false} ProfileSteps(q: seq<Limits>, i: nat)
    requires Path(q) && i < |q|
    ensures StartV2(q, i) <= StartV2(q, i + 1) + q[i].delta
    ensures StartV2(q, i + 1) <= StartV2(q, i) + q[i].delta
    ensures Smoothed(q, i + 1) <= q[i].maxSmoothed + q[i].smoothDelta
    ensures StartV2(q, i + 1) <= q[i].maxCruise
  {
    ProfileBounds(q, i);
    ProfileBounds(q, i + 1);
    assert LimitsOk(q[i]);
    if i + 1 < |q| {
      assert Joined(q[i], q[i + 1]);
    }
  }

  // ----- greatest profile ------------------------------------------------------

  /** A speed profile the machine can follow: `v[i]` is the speed before move `i`. */
  ghost predicate Feasible(q: seq<Limits>, v: seq<real>) {
    && |v| == |q| + 1
    && v[|q|] == 0.0
    && (forall i :: 0 <= i < |q| ==> v[i] <= q[i].maxStart)
    && (forall i :: 0 <= i < |q| ==> v[i] - v[i + 1] <= q[i].delta && v[i + 1] - v[i] <= q[i].delta)
  }

  ghost function Profile(q: seq<Limits>): (v: seq<real>)
    ensures |v| == |q| + 1
  {
    seq(|q| + 1, i requires 0 <= i <= |q| => StartV2(q, i))
  }

  lemma {:induction false} Dominates(q: seq<Limits>, v: seq<real>, i: nat)
    requires Feasible(q, v) && i <= |q|
    ensures v[i] <= StartV2(q, i)
    decreases |q| - i
  {
    if i < |q| {
      Dominates(q, v, i + 1);
    }
  }

  /** The junction speeds are the pointwise greatest feasible profile. */
  lemma GreatestProfile(q: seq<Limits>)
    requires Path(q)
    ensures Feasible(q, Profile(q))
    ensures forall v, i :: Feasible(q, v) && 0 <= i <= |q| ==> v[i] <= Profile(q)[i]
  {
    forall i | 0 <= i < |q|
      ensures Profile(q)[i] <= q[i].maxStart
      ensures Profile(q)[i] - Profile(q)[i + 1] <= q[i].delta && Profile(q)[i + 1] - Profile(q)[i] <= q[i].delta
    {
      ProfileBounds(q, i);
      ProfileSteps(q, i);
    }
    forall v, i | Feasible(q, v) && 0 <= i <= |q|
      ensures v[i] <= Profile(q)[i]
    {
      Dominates(q, v, i);
    }
  }

  // ----- peaks -----------------------------------------------------------------

  lemma FirstNotDelayed(q: seq<Limits>)
    requires Path(q) && q != []
    ensures !Delayed(q, 0)
  {
    assert LimitsOk(q[0]);
    ProfileBounds(q, 1);
  }

  /** A delayed move is at full smoothed deceleration. */
  lemma Decelerates(q: seq<Limits>, i: nat)
    requires Path(q) && i < |q| && Delayed(q, i)
    ensures Smoothed(q, i) == Reach(q, i) > Smoothed(q, i + 1)
    ensures StartV2(q, i) > 0.0
  {
    assert LimitsOk(q[i]);
    ProfileBounds(q, i);
    ProfileBounds(q, i + 1);
  }

  /**
   Where the smoothed profile turns, the junction is at its own limit in both
   profiles: nothing that follows can change it any more.
   */
  lemma Pinned(q: seq<Limits>, i: nat)
    requires Path(q) && 0 < i < |q| && !Delayed(q, i)
    requires Delayed(q, i - 1) || Peaks(q, i - 1)
    ensures Smoothed(q, i) == StartV2(q, i) == q[i].maxStart
  {
    assert LimitsOk(q[i - 1]);
    assert Joined(q[i - 1], q[i]);
    ProfileBounds(q, i - 1);
    ProfileBounds(q, i);
  }

  /** Behind every move that is not delayed lies a positive peak at or above its speed. */
  lemma {:induction false} PeakAbove(q: seq<Limits>, i: nat)
    requires Path(q) && i < |q| && !Delayed(q, i)
    ensures PeakV2(q, i) > 0.0
    ensures PeakV2(q, i) >= Smoothed(q, i)
    decreases |q| - i
  {
    assert LimitsOk(q[i]);
    ProfileBounds(q, i);
    ProfileBounds(q, i + 1);
    if !Peaks(q, i) {
      if i + 1 == |q| {
        assert false;
      }
      PeakAbove(q, i + 1);
    }
  }

  /** A peak is at least as high as the smoothed speed that leaves it. */
  lemma PeakCoversExit(q: seq<Limits>, i: nat)
    requires Path(q) && i < |q| && Peaks(q, i)
    ensures PeakV2(q, i) >= Smoothed(q, i + 1)
  {
    ProfileSteps(q, i);
    ProfileBounds(q, i + 1);
    if i + 1 < |q| {
      assert Joined(q[i], q[i + 1]);
    }
  }

  /** The propagated peak stays positive and above the smoothed speed at the move's end. */
  lemma {:induction false} CapAbove(q: seq<Limits>, i: nat)
    requires Path(q) && i < |q| && Delayed(q, i)
    ensures i > 0
    ensures CapV2(q, i) <= StartV2(q, i)
    ensures CapV2(q, i) > 0.0
    ensures CapV2(q, i) >= Smoothed(q, i + 1)
  {
    if i == 0 {
      FirstNotDelayed(q);
      assert false;
    }
    Decelerates(q, i);
    ProfileBounds(q, i);
    if Delayed(q, i - 1) {
      CapAbove(q, i - 1);
    } else {
      PeakAbove(q, i - 1);
      PeakCoversExit(q, i - 1);
    }
  }

  // ----- valid trapezoids -------------------------------------------------------

  /**
   The junction of every move is a real trapezoid: it can be driven within the
   move's length at its acceleration, and it respects the move's limits.
   */
  ghost predicate ValidTrapezoid(m: Limits, j: Junction) {
    && 0.0 <= j.start <= j.cruise
    && 0.0 <= j.end <= j.cruise
    && 0.0 < j.cruise <= m.maxCruise
    && j.start <= m.maxStart
    && (j.cruise - j.start) + (j.cruise - j.end) <= m.delta
  }

  lemma TrapezoidsValid(q: seq<Limits>, i: nat)
    requires Path(q) && i < |q|
    ensures ValidTrapezoid(q[i], PlanAt(q, i))
  {
    assert LimitsOk(q[i]);
    ProfileBounds(q, i);
    ProfileBounds(q, i + 1);
    ProfileSteps(q, i);
    if Delayed(q, i) {
      CapAbove(q, i);
    } else {
      PeakAbove(q, i);
    }
  }

  // ----- continuity --------------------------------------------------------------

  /** The speed at which the plan leaves move `i`. */
  lemma ExitSpeed(q: seq<Limits>, i: nat)
    requires Path(q) && i < |q| && !Delayed(q, i)
    ensures PlanAt(q, i).end == Min(StartV2(q, i + 1), PeakV2(q, i))
    ensures PlanAt(q, i).start == Min(StartV2(q, i), PeakV2(q, i))
  {
    assert LimitsOk(q[i]);
    ProfileBounds(q, i);
    ProfileSteps(q, i);
  }

  /** The speed at which the plan enters and leaves a delayed move. */
  lemma DelayedSpeeds(q: seq<Limits>, i: nat)
    requires Path(q) && i < |q| && Delayed(q, i)
    ensures PlanAt(q, i) == Junction(CapV2(q, i), CapV2(q, i), Min(StartV2(q, i + 1), CapV2(q, i)))
  {
    CapAbove(q, i);
  }

  /** How a delayed move is planned from the move before it. */
  lemma DelayedStep(q: seq<Limits>, i: nat)
    requires Path(q) && i < |q| && Delayed(q, i)
    ensures i > 0
    ensures CapV2(q, i) == Min(CapV2(q, i - 1), StartV2(q, i))
    ensures PlanAt(q, i) ==
            Junction(Min(StartV2(q, i), CapV2(q, i)), CapV2(q, i), Min(StartV2(q, i + 1), CapV2(q, i)))
    ensures ValidTrapezoid(q[i], PlanAt(q, i))
  {
    CapAbove(q, i);
    TrapezoidsValid(q, i);
  }

  lemma ContinuousIntoDelayed(q: seq<Limits>, i: nat)
    requires Path(q) && i + 1 < |q| && Delayed(q, i + 1)
    ensures PlanAt(q, i).end == PlanAt(q, i + 1).start
  {
    DelayedSpeeds(q, i + 1);
    if Delayed(q, i) {
      DelayedSpeeds(q, i);
    } else {
      ExitSpeed(q, i);
    }
  }

  lemma ContinuousOutOfDelayed(q: seq<Limits>, i: nat)
    requires Path(q) && i + 1 < |q| && Delayed(q, i) && !Delayed(q, i + 1)
    ensures PlanAt(q, i).end == PlanAt(q, i + 1).start
  {
    DelayedSpeeds(q, i);
    CapAbove(q, i);
    ExitSpeed(q, i + 1);
    PeakAbove(q, i + 1);
    Pinned(q, i + 1);
  }

  lemma ContinuousUndelayed(q: seq<Limits>, i: nat)
    requires Path(q) && i + 1 < |q| && !Delayed(q, i) && !Delayed(q, i + 1)
    ensures PlanAt(q, i).end == PlanAt(q, i + 1).start
  {
    ExitSpeed(q, i);
    ExitSpeed(q, i + 1);
    if Peaks(q, i) {
      Pinned(q, i + 1);
      PeakCoversExit(q, i);
      PeakAbove(q, i + 1);
    }
  }

  /** Each move ends at the speed at which the next one starts. */
  lemma Continuous(q: seq<Limits>, i: nat)
    requires Path(q) && i + 1 < |q|
    ensures PlanAt(q, i).end == PlanAt(q, i + 1).start
  {
    if Delayed(q, i + 1) {
      ContinuousIntoDelayed(q, i);
    } else if Delayed(q, i) {
      ContinuousOutOfDelayed(q, i);
    } else {
      ContinuousUndelayed(q, i);
    }
  }

  /** A path starts and ends at rest. */
  lemma RestToRest(q: seq<Limits>)
    requires Path(q) && q != []
    ensures PlanAt(q, 0).start == 0.0
    ensures PlanAt(q, |q| - 1).end == 0.0
  {
    FirstNotDelayed(q);
    ExitSpeed(q, 0);
    PeakAbove(q, 0);
    ProfileBounds(q, 0);
    TrapezoidsValid(q, |q| - 1);
  }

  // ----- greatest plan ----------------------------------------------------------

  /**
   A way to drive the whole path: valid trapezoids that join up, end at rest,
   stay below the cruise peaks, and do not accelerate in a delayed move.
   */
  ghost predicate Drivable(q: seq<Limits>, js: seq<Junction>) {
    && |js| == |q|
    && (forall i :: 0 <= i < |q| ==> ValidTrapezoid(q[i], js[i]))
    && (forall i :: 0 < i < |q| ==> js[i - 1].end == js[i].start)
    && (q != [] ==> js[|q| - 1].end == 0.0)
    && (forall i :: 0 <= i < |q| && !Delayed(q, i) ==> js[i].cruise <= PeakV2(q, i))
    && (forall i :: 0 <= i < |q| && Delayed(q, i) ==> js[i].start == js[i].cruise)
  }

  ghost function StartsOf(js: seq<Junction>): (v: seq<real>)
    ensures |v| == |js| + 1
  {
    seq(|js|, i requires 0 <= i < |js| => js[i].start) + [0.0]
  }

  lemma StartsFeasible(q: seq<Limits>, js: seq<Junction>)
    requires Drivable(q, js)
    ensures Feasible(q, StartsOf(js))
  {
    var v := StartsOf(js);
    forall i | 0 <= i < |q|
      ensures v[i] <= q[i].maxStart
      ensures v[i] - v[i + 1] <= q[i].delta && v[i + 1] - v[i] <= q[i].delta
    {
      assert ValidTrapezoid(q[i], js[i]);
      assert v[i + 1] == js[i].end by {
        if i + 1 < |q| {
          assert js[i + 1 - 1].end == js[i + 1].start;
        }
      }
    }
  }

  /** No drivable choice is faster than the plan anywhere in move `i`. */
  lemma {:induction false} PlanDominates(q: seq<Limits>, js: seq<Junction>, i: nat)
    requires Path(q) && Drivable(q, js) && i < |q|
    ensures js[i].start <= PlanAt(q, i).start
    ensures js[i].cruise <= PlanAt(q, i).cruise
    ensures js[i].end <= PlanAt(q, i).end
  {
    StartsFeasible(q, js);
    Dominates(q, StartsOf(js), i);
    Dominates(q, StartsOf(js), i + 1);
    assert ValidTrapezoid(q[i], js[i]);
    assert js[i].end == StartsOf(js)[i + 1];
    if Delayed(q, i) {
      CapAbove(q, i);
      PlanDominates(q, js, i - 1);
    }
  }

  lemma PlanDrivable(q: seq<Limits>)
    requires Path(q)
    ensures Drivable(q, Plan(q))
  {
    forall i | 0 <= i < |q|
      ensures ValidTrapezoid(q[i], Plan(q)[i])
      ensures !Delayed(q, i) ==> Plan(q)[i].cruise <= PeakV2(q, i)
      ensures Delayed(q, i) ==> Plan(q)[i].start == Plan(q)[i].cruise
    {
      TrapezoidsValid(q, i);
      if Delayed(q, i) {
        CapAbove(q, i);
      }
    }
    forall i | 0 < i < |q|
      ensures Plan(q)[i - 1].end == Plan(q)[i].start
    {
      Continuous(q, i - 1);
    }
    if q != [] {
      RestToRest(q);
    }
  }

  /** The plan is the pointwise fastest drivable choice of junctions. */
  lemma GreatestPlan(q: seq<Limits>)
    requires Path(q)
    ensures Drivable(q, Plan(q))
    ensures forall js: seq<Junction>, i :: Drivable(q, js) && 0 <= i < |q| ==>
              && js[i].start <= Plan(q)[i].start
              && js[i].cruise <= Plan(q)[i].cruise
              && js[i].end <= Plan(q)[i].end
  {
    PlanDrivable(q);
    forall js: seq<Junction>, i | Drivable(q, js) && 0 <= i < |q|
      ensures js[i].start <= Plan(q)[i].start && js[i].cruise <= Plan(q)[i].cruise && js[i].end <= Plan(q)[i].end
    {
      PlanDominates(q, js, i);
    }
  }

  // ----- smoothing ---------------------------------------------------------------

  /** The highest squared speed move `i` reaches at the reduced acceleration rate. */
  ghost function Apex(q: seq<Limits>, i: nat): real
    requires i < |q|
  {
    (Smoothed(q, i) + Smoothed(q, i + 1) + q[i].smoothDelta) * 0.5
  }

  ghost predicate Falls(q: seq<Limits>, i: nat)
    requires i < |q|
  {
    Smoothed(q, i) > Smoothed(q, i + 1)
  }

  ghost predicate Rises(q: seq<Limits>, i: nat)
    requires i < |q|
  {
    Smoothed(q, i) < Smoothed(q, i + 1)
  }

  /**
   Zigzags are smoothed: no move cruises above the apex, at the reduced rate, of
   the move `k` that tops its rise. From `k` to move `i` (or from move `i` to
   `k`) the smoothed profile only falls (or only rises).
   */
  lemma SmoothedTop(q: seq<Limits>, i: nat) returns (k: nat)
    requires Path(q) && i < |q|
    ensures k < |q| && Peaks(q, k)
    ensures PlanAt(q, i).cruise <= Apex(q, k)
    ensures forall j :: k < j <= i ==> Falls(q, j)
    ensures forall j :: i <= j < k ==> Rises(q, j)
  {
    if Delayed(q, i) {
      k := TopBehind(q, i);
    } else {
      k := TopAhead(q, i);
    }
  }

  lemma {:induction false} TopBehind(q: seq<Limits>, i: nat) returns (k: nat)
    requires Path(q) && i < |q| && Delayed(q, i)
    ensures k < i && Peaks(q, k) && CapV2(q, i) <= Apex(q, k)
    ensures forall j :: k < j <= i ==> Falls(q, j)
  {
    hide Smoothed, StartV2, CapV2, PeakV2, Apex, Peaks, Delayed, Path;
    assert Falls(q, i) by {
      Decelerates(q, i);
    }
    CapFalls(q, i);
    if Delayed(q, i - 1) {
      k := TopBehind(q, i - 1);
    } else {
      k := i - 1;
      PeakAtApex(q, k);
    }
  }

  lemma CapFalls(q: seq<Limits>, i: nat)
    requires Path(q) && i < |q| && Delayed(q, i)
    ensures i > 0 && CapV2(q, i) <= CapV2(q, i - 1)
  {
    DelayedStep(q, i);
  }

  lemma PeakAtApex(q: seq<Limits>, k: nat)
    requires k + 1 < |q| && !Delayed(q, k) && Delayed(q, k + 1)
    ensures Peaks(q, k) && CapV2(q, k) <= Apex(q, k)
  {
  }

  lemma {:induction false} TopAhead(q: seq<Limits>, i: nat) returns (k: nat)
    requires Path(q) && i < |q| && !Delayed(q, i)
    ensures i <= k < |q| && Peaks(q, k) && PeakV2(q, i) <= Apex(q, k)
    ensures forall j :: i <= j < k ==> Rises(q, j)
    decreases |q| - i
  {
    assert LimitsOk(q[i]);
    ProfileBounds(q, i);
    if Peaks(q, i) {
      k := i;
    } else {
      if i + 1 == |q| {
        assert false;
      }
      k := TopAhead(q, i + 1);
    }
  }

  // ----- what a lazy flush commits is final ---------------------------------------

  /** Move `f` opens a peak and a later move is not delayed: a lazy flush may stop here. */
  ghost predicate Cuts(q: seq<Limits>, f: nat) {
    f < |q| && Peaks(q, f) && exists k :: f < k < |q| && !Delayed(q, k)
  }

  /** Everything before `f` may be flushed. */
  ghost predicate CommitPoint(q: seq<Limits>, f: nat) {
    f == 0 || Cuts(q, f)
  }

  /** The test of a lazy flush, `peak_cruise_v2` not zero, finds exactly the cuts. */
  lemma {:induction false} CutTest(q: seq<Limits>, f: nat)
    requires Path(q) && f < |q|
    ensures Cuts(q, f) <==> Peaks(q, f) && PeakV2(q, f + 1) != 0.0
  {
    if f + 1 < |q| {
      PeakBehind(q, f + 1);
    }
  }

  lemma {:induction false} PeakBehind(q: seq<Limits>, i: nat)
    requires Path(q) && i <= |q|
    ensures PeakV2(q, i) != 0.0 <==> exists k :: i <= k < |q| && !Delayed(q, k)
    decreases |q| - i
  {
    if i < |q| {
      if !Delayed(q, i) {
        PeakAbove(q, i);
      } else {
        PeakBehind(q, i + 1);
      }
    }
  }

  /** The backward pass starts from a stop behind the last move. */
  lemma EndOfPath(q: seq<Limits>)
    ensures StartV2(q, |q|) == Smoothed(q, |q|) == PeakV2(q, |q|) == 0.0
    ensures !Delayed(q, |q|)
  {
  }

  /** The first move behind a commit point is never left delayed. */
  lemma CommitNotDelayed(q: seq<Limits>, f: nat)
    requires Path(q) && f < |q| && CommitPoint(q, f)
    ensures !Delayed(q, f)
  {
    if f == 0 {
      FirstNotDelayed(q);
    }
  }

  /** One step of the backward pass. */
  lemma BackStep(q: seq<Limits>, i: nat)
    requires Path(q) && i < |q|
    ensures StartV2(q, i) == Min(q[i].maxStart, StartV2(q, i + 1) + q[i].delta)
    ensures Smoothed(q, i) == Min(q[i].maxSmoothed, Smoothed(q, i + 1) + q[i].smoothDelta)
    ensures Delayed(q, i) <==> !(Smoothed(q, i) < Smoothed(q, i + 1) + q[i].smoothDelta)
    ensures Peaks(q, i) <==> !Delayed(q, i)
                             && (Smoothed(q, i) + q[i].smoothDelta > Smoothed(q, i + 1) || Delayed(q, i + 1))
    ensures PeakV2(q, i) == if Peaks(q, i)
                            then Min(q[i].maxCruise, (Smoothed(q, i) + (Smoothed(q, i + 1) + q[i].smoothDelta)) * 0.5)
                            else PeakV2(q, i + 1)
    ensures !Delayed(q, i) ==> CapV2(q, i) == PeakV2(q, i)
    ensures !Delayed(q, i) ==>
              var c := Min(Min((StartV2(q, i) + (StartV2(q, i + 1) + q[i].delta)) * 0.5, q[i].maxCruise), PeakV2(q, i));
              PlanAt(q, i) == Junction(Min(StartV2(q, i), c), c, Min(StartV2(q, i + 1), c))
  {
  }

  /** Appending moves can only raise the profiles. */
  lemma {:induction false} ProfilesRise(q: seq<Limits>, q': seq<Limits>, i: nat)
    requires Path(q) && Path(q') && q <= q' && i <= |q|
    ensures Smoothed(q, i) <= Smoothed(q', i)
    ensures StartV2(q, i) <= StartV2(q', i)
    decreases |q| - i
  {
    if i == |q| {
      ProfileBounds(q', i);
    } else {
      assert q'[i] == q[i];
      ProfilesRise(q, q', i + 1);
    }
  }

  /** Up to a move that is not delayed, the smoothed profile is final. */
  lemma {:induction false} SmoothedFinal(q: seq<Limits>, q': seq<Limits>, k: nat, i: nat)
    requires Path(q) && Path(q') && q <= q' && i <= k < |q| && !Delayed(q, k)
    ensures Smoothed(q', i) == Smoothed(q, i)
    ensures !Delayed(q', k)
    ensures i < k ==> Delayed(q', i) == Delayed(q, i)
    decreases k - i
  {
    assert q'[k] == q[k] && q'[i] == q[i];
    ProfilesRise(q, q', k + 1);
    if i < k {
      SmoothedFinal(q, q', k, i + 1);
    }
  }

  /** Up to a pinned junction, the real profile is final. */
  lemma {:induction false} StartFinal(q: seq<Limits>, q': seq<Limits>, p: nat, i: nat)
    requires Path(q) && Path(q') && q <= q' && i <= p < |q|
    requires StartV2(q, p) == q[p].maxStart
    ensures StartV2(q', i) == StartV2(q, i)
    decreases p - i
  {
    assert q'[p] == q[p] && q'[i] == q[i];
    ProfilesRise(q, q', p);
    ProfileBounds(q', p);
    if i < p {
      StartFinal(q, q', p, i + 1);
    }
  }

  /** Behind a commit point there is a junction that is pinned in both profiles. */
  lemma {:induction false} PinnedBeyond(q: seq<Limits>, i: nat, k: nat) returns (p: nat)
    requires Path(q) && i < k < |q| && !Delayed(q, k)
    requires Delayed(q, i) || Peaks(q, i)
    ensures i < p <= k && !Delayed(q, p)
    ensures StartV2(q, p) == q[p].maxStart
    decreases k - i
  {
    if Delayed(q, i + 1) {
      p := PinnedBeyond(q, i + 1, k);
    } else {
      Pinned(q, i + 1);
      p := i + 1;
    }
  }

  /** Everything the plan needs up to a commit point is final. */
  lemma CommitFacts(q: seq<Limits>, q': seq<Limits>, f: nat)
    requires Path(q) && Path(q') && q <= q' && 0 < f && CommitPoint(q, f)
    ensures forall i :: 0 <= i <= f + 1 ==> Smoothed(q', i) == Smoothed(q, i)
    ensures forall i :: 0 <= i <= f ==> StartV2(q', i) == StartV2(q, i)
    ensures forall i :: 0 <= i <= f + 1 ==> Delayed(q', i) == Delayed(q, i)
    ensures CommitPoint(q', f)
  {
    var k :| f < k < |q| && !Delayed(q, k);
    forall i | 0 <= i <= f + 1
      ensures Smoothed(q', i) == Smoothed(q, i) && Delayed(q', i) == Delayed(q, i)
    {
      SmoothedFinal(q, q', k, i);
    }
    var p := PinnedBeyond(q, f, k);
    forall i | 0 <= i <= f
      ensures StartV2(q', i) == StartV2(q, i)
    {
      StartFinal(q, q', p, i);
    }
    SmoothedFinal(q, q', k, k);
    assert q'[f] == q[f];
  }

  lemma {:induction false} PeakFinal(q: seq<Limits>, q': seq<Limits>, f: nat, i: nat)
    requires Path(q) && Path(q') && q <= q' && 0 < f && CommitPoint(q, f) && i <= f
    ensures PeakV2(q', i) == PeakV2(q, i)
    decreases f - i
  {
    CommitFacts(q, q', f);
    assert q'[i] == q[i];
    assert Peaks(q', i) == Peaks(q, i);
    if i < f {
      PeakFinal(q, q', f, i + 1);
    }
  }

  lemma {:induction false} CapFinal(q: seq<Limits>, q': seq<Limits>, f: nat, i: nat)
    requires Path(q) && Path(q') && q <= q' && 0 < f && CommitPoint(q, f) && i <= f
    ensures CapV2(q', i) == CapV2(q, i)
  {
    CommitFacts(q, q', f);
    PeakFinal(q, q', f, i);
    if i > 0 {
      CapFinal(q, q', f, i - 1);
    }
  }

  /**
   Moves committed at `f` have the junctions that planning any longer path at
   once would give them, and `f` stays a commit point of the longer path.
   */
  lemma CommittedIsFinal(q: seq<Limits>, q': seq<Limits>, f: nat)
    requires Path(q) && Path(q') && q <= q' && CommitPoint(q, f)
    ensures CommitPoint(q', f)
    ensures forall i :: 0 <= i < f ==> PlanAt(q', i) == PlanAt(q, i)
  {
    if f > 0 {
      CommitFacts(q, q', f);
      forall i | 0 <= i < f
        ensures PlanAt(q', i) == PlanAt(q, i)
      {
        PeakFinal(q, q', f, i);
        CapFinal(q, q', f, i);
        assert q'[i] == q[i];
      }
    }
  }
}
