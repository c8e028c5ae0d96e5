/**
 Whole runs of the timer scheduler: against any sequence of additions, deletions,
 dispatches and resets, the linked list behaves as a plain map from timers to due times.
 */
module SchedRuns {
  import opened Ticks
  import opened Sched

  type Due = map<Timer, int>

  /** The queue lists the entries of the map, each once, by time. */
  ghost predicate Lists(q: Queue, due: Due) {
    && |q.nodes| == |q.times| && Distinct(q.nodes) && Sorted(q.times)
    && (forall i :: 0 <= i < |q.nodes| ==> q.nodes[i] in due && q.times[i] == due[q.nodes[i]])
    && (forall x :: x in due ==> x in q.nodes)
  }

  /** All times are from `now` on and less than half the clock range away. */
  ghost predicate Within(due: Due, now: int) {
    forall x :: x in due ==> now <= due[x] < now + HALF
  }

  lemma ListsInsert(q: Queue, due: Due, node: Timer, t: int)
    requires Lists(q, due) && node !in due
    ensures Lists(Insert(q, node, t), due[node := t])
  {
    var k := Rank(q.times, t);
    assert node !in q.nodes;
    InsertSorted(q.times, t);
    InsertDistinct(q.nodes, k, node);
    InsertMembers(q, due, node, t, k);
  }

  lemma InsertMembers(q: Queue, due: Due, node: Timer, t: int, k: nat)
    requires Lists(q, due) && node !in due && k <= |q.nodes|
    ensures var nodes, times := InsertAt(q.nodes, k, node), InsertAt(q.times, k, t); var more := due[node := t];
            && |nodes| == |times|
            && (forall i :: 0 <= i < |nodes| ==> nodes[i] in more && times[i] == more[nodes[i]])
            && (forall x :: x in more ==> x in nodes)
  {
    hide Distinct, Sorted;
    var nodes, times, more := InsertAt(q.nodes, k, node), InsertAt(q.times, k, t), due[node := t];
    forall i | 0 <= i < |nodes|
      ensures nodes[i] in more && times[i] == more[nodes[i]]
    {
      if i < k {
        assert nodes[i] == q.nodes[i] && times[i] == q.times[i];
      } else if i > k {
        assert nodes[i] == q.nodes[i - 1] && times[i] == q.times[i - 1];
      }
    }
    forall x | x in more
      ensures x in nodes
    {
      if x == node {
        assert nodes[k] == node;
      } else {
        var i :| 0 <= i < |q.nodes| && q.nodes[i] == x;
        assert nodes[if i < k then i else i + 1] == x;
      }
    }
  }

  lemma ListsRemoveAt(q: Queue, due: Due, k: nat)
    requires Lists(q, due) && k < |q.nodes|
    ensures Lists(Queue(RemoveAt(q.nodes, k), RemoveAt(q.times, k)), due - {q.nodes[k]})
  {
    hide Sorted;
    var nodes, times, less := RemoveAt(q.nodes, k), RemoveAt(q.times, k), due - {q.nodes[k]};
    SortedRemove(q.times, k);
    DistinctRemove(q.nodes, k);
    forall i | 0 <= i < |nodes|
      ensures nodes[i] in less && times[i] == less[nodes[i]]
    {
      var j := if i < k then i else i + 1;
      assert nodes[i] == q.nodes[j] && times[i] == q.times[j];
    }
    forall x | x in less
      ensures x in nodes
    {
      var i :| 0 <= i < |q.nodes| && q.nodes[i] == x;
      assert nodes[if i < k then i else i - 1] == x;
    }
  }

  lemma ListsRemove(q: Queue, due: Due, x: Timer)
    requires Lists(q, due)
    ensures Lists(Remove(q, x), due - {x})
  {
    hide Lists, Remove;
    var k := IndexOf(q.nodes, x);
    ListsSize(q, due);
    RemoveIs(q, x, k);
    if k < |q.nodes| {
      ListsRemoveAt(q, due, k);
    } else {
      NotListed(q, due, x);
      assert due - {x} == due;
    }
  }

  lemma ListsSize(q: Queue, due: Due)
    requires Lists(q, due)
    ensures |q.nodes| == |q.times|
  {
  }

  lemma NotListed(q: Queue, due: Due, x: Timer)
    requires Lists(q, due) && IndexOf(q.nodes, x) == |q.nodes|
    ensures x !in due
  {
  }

  /** The first entry is due before all others. */
  lemma ListsTail(q: Queue, due: Due)
    requires Lists(q, due) && q.nodes != []
    ensures Lists(Tail(q), due - {q.nodes[0]}) && q.nodes[0] in due && q.times[0] == due[q.nodes[0]]
    ensures forall x :: x in due ==> due[q.nodes[0]] <= due[x]
  {
    ListsRemoveAt(q, due, 0);
    assert RemoveAt(q.nodes, 0) == q.nodes[1..] && RemoveAt(q.times, 0) == q.times[1..];
    forall x | x in due
      ensures due[q.nodes[0]] <= due[x]
    {
      var i :| 0 <= i < |q.nodes| && q.nodes[i] == x;
    }
  }

  // ----- runs ------------------------------------------------------------------------------------

  /** What a callback does with its own timer. */
  datatype After = Stop | Again(delay: nat)

  /**
   What happens next: a timer is added or deleted, the head is dispatched (a callback may
   delete other timers), time passes, or all user timers are dropped.
   */
  datatype Op =
    | Add(timer: Timer, delay: nat)
    | Del(timer: Timer)
    | Tick(after: After, deletes: seq<Timer>)
    | Wait(ticks: nat)
    | Clear

  datatype Fired = Fired(timer: Timer, at: int)

  /** The user timers and the periodic one. */
  ghost function All(periodic: Timer, p: int, due: Due): Due {
    due[periodic := p]
  }

  predicate User(s: Scheduler, x: Timer) {
    x != s.periodic && x != s.sentinel && x != s.deleted
  }

  /** The scheduler at time `now` is the map `due`. */
  ghost predicate Implements(s: Scheduler, now: int, due: Due)
    reads s, s.q.nodes
  {
    && s.Valid() && 0 < s.periodTicks < HALF
    && (forall x :: x in due ==> User(s, x))
    && Lists(s.Live(), All(s.periodic, s.p, due)) && Within(All(s.periodic, s.p, due), now)
    && s.q.times[0] >= now
  }

  lemma StripMembers(q: Queue, deleted: Timer, x: Timer)
    requires |q.nodes| == |q.times| >= 2 && x in q.nodes
    ensures x in Strip(q, deleted).nodes || x == q.nodes[|q.nodes| - 1] || x == deleted
  {
    var i :| 0 <= i < |q.nodes| && q.nodes[i] == x;
    var lo := if q.nodes[0] == deleted then 1 else 0;
    if lo <= i < |q.nodes| - 1 {
      assert Strip(q, deleted).nodes[i - lo] == x;
    }
  }

  lemma StripEnds(q: Queue, deleted: Timer)
    requires |q.nodes| == |q.times| >= 2 && Sorted(q.times)
    ensures var live := Strip(q, deleted);
            && |live.nodes| == |live.times|
            && (live.times != [] ==>
                  q.times[0] <= live.times[0] && q.times[|q.times| - 2] == live.times[|live.times| - 1])
  {
  }

  lemma ListedBounds(q: Queue, due: Due, now: int)
    requires Lists(q, due) && Within(due, now)
    ensures |q.nodes| == |q.times| && forall i :: 0 <= i < |q.times| ==> now <= q.times[i] < now + HALF
    ensures forall x :: x in q.nodes ==> x in due
    ensures forall x :: x in due ==> x in q.nodes
  {
  }

  lemma Known(s: Scheduler, now: int, due: Due)
    requires Implements(s, now, due)
    ensures forall x :: x in s.q.nodes ==> x in due || x == s.periodic || x == s.sentinel || x == s.deleted
    ensures s.q.times != [] && s.q.times[0] >= now && |s.Live().nodes| == |s.Live().times| > 0
  {
    hide Lists, Within, Strip, Sorted;
    s.Sizes();
    s.LiveIs();
    ListedBounds(s.Live(), All(s.periodic, s.p, due), now);
    forall x | x in s.q.nodes
      ensures x in due || x == s.periodic || x == s.sentinel || x == s.deleted
    {
      StripMembers(s.q, s.deleted, x);
    }
    assert s.periodic in s.Live().nodes;
  }

  /** The true time of the head can be told from its wrapped one. */
  lemma HeadTime(s: Scheduler, now: int, due: Due)
    requires Implements(s, now, due)
    ensures now <= s.q.times[0] < now + HALF
    ensures now + Wrap(s.timerList.waketime - Wrap(now)) == s.q.times[0]
  {
    hide Lists, Sorted, Distinct, Linked, Wrap;
    HeadBounded(s, now, due);
    HeadStamped(s);
    WrapDifference(s.q.times[0], now);
    WrapSmall(s.q.times[0] - now);
  }

  lemma HeadStamped(s: Scheduler)
    requires s.Valid()
    ensures s.timerList.waketime == Wrap(s.q.times[0])
  {
  }

  lemma HeadBounded(s: Scheduler, now: int, due: Due)
    requires Implements(s, now, due)
    ensures s.q.times[0] < now + HALF
    ensures |s.q.times| >= 2 && s.q.times[|s.q.times| - 2] < now + HALF
  {
    hide Lists, Within, Strip, Sorted;
    Known(s, now, due);
    s.Sizes();
    s.LiveIs();
    ListedBounds(s.Live(), All(s.periodic, s.p, due), now);
    StripEnds(s.q, s.deleted);
  }

  lemma FitsNow(s: Scheduler, now: int, due: Due, t: int)
    requires Implements(s, now, due) && now <= t < now + HALF
    ensures Fits(s.q, t)
  {
    HeadBounded(s, now, due);
  }

  lemma CanReschedule(s: Scheduler, now: int, due: Due, outcome: Outcome)
    requires Implements(s, now, due) && s.q.times[0] == now
    requires outcome.Reschedule? ==> now <= outcome.time < now + HALF
    ensures s.Schedulable(outcome)
  {
    hide Lists, Within, Strip, Linked, Distinct, Holds;
    HeadBounded(s, now, due);
    Opened(s, now, due);
    s.Sizes();
    TailFits(s.q, now);
    if s.timerList == s.periodic {
      PeriodicHead(s);
    }
  }

  /** Behind the head everything due within half the range fits in. */
  lemma TailFits(q: Queue, now: int)
    requires |q.nodes| == |q.times| >= 2 && Sorted(q.times) && q.times[0] == now && q.times[|q.times| - 2] < now + HALF
    ensures forall t :: now <= t < now + HALF ==> Fits(Tail(q), t)
  {
  }

  lemma PeriodicHead(s: Scheduler)
    requires s.Valid() && s.timerList == s.periodic
    ensures s.q.times[0] == s.p
  {
    var i :| 0 <= i < |s.q.nodes| - 1 && s.q.nodes[i] == s.periodic && s.q.times[i] == s.p;
    assert s.q.nodes[0] == s.periodic;
  }

  lemma Opened(s: Scheduler, now: int, due: Due)
    requires Implements(s, now, due)
    ensures s.Valid() && s.Shaped() && s.q.times != [] && s.q.times[0] >= now && 0 < s.periodTicks < HALF
    ensures (forall x :: x in due ==> User(s, x)) && Lists(s.Live(), All(s.periodic, s.p, due))
    ensures Within(All(s.periodic, s.p, due), now)
  {
  }

  lemma Closed(s: Scheduler, now: int, due: Due, t: int)
    requires s.Valid() && Starts(s.q, t) && now <= t && 0 < s.periodTicks < HALF
    requires (forall x :: x in due ==> User(s, x)) && Lists(s.Live(), All(s.periodic, s.p, due))
    requires Within(All(s.periodic, s.p, due), now)
    ensures Implements(s, now, due)
  {
  }

  /** A new entry of the map. */
  lemma AllInsert(s: Scheduler, now: int, due: Due, live: Queue, x: Timer, t: int)
    requires Lists(live, All(s.periodic, s.p, due)) && Within(All(s.periodic, s.p, due), now)
    requires User(s, x) && x !in due && now <= t < now + HALF
    requires forall y :: y in due ==> User(s, y)
    ensures Lists(Insert(live, x, t), All(s.periodic, s.p, due[x := t]))
    ensures Within(All(s.periodic, s.p, due[x := t]), now)
    ensures |live.nodes| == |live.times| && forall y :: y in due[x := t] ==> User(s, y)
  {
    hide Lists, Insert;
    ListsSize(live, All(s.periodic, s.p, due));
    ListsInsert(live, All(s.periodic, s.p, due), x, t);
    assert All(s.periodic, s.p, due)[x := t] == All(s.periodic, s.p, due[x := t]);
  }

  lemma AllRemove(s: Scheduler, now: int, due: Due, live: Queue, x: Timer)
    requires Lists(live, All(s.periodic, s.p, due)) && Within(All(s.periodic, s.p, due), now) && User(s, x)
    ensures |live.nodes| == |live.times| && Lists(Remove(live, x), All(s.periodic, s.p, due - {x}))
    ensures Within(All(s.periodic, s.p, due - {x}), now)
  {
    hide Lists, Remove;
    ListsSize(live, All(s.periodic, s.p, due));
    ListsRemove(live, All(s.periodic, s.p, due), x);
    assert All(s.periodic, s.p, due) - {x} == All(s.periodic, s.p, due - {x});
  }

  lemma NotLate(t: int, now: int)
    requires now <= t < now + HALF
    ensures !IsBefore(Wrap(t), Wrap(now))
  {
    ComparesTrue(t, now);
  }

  /** A timer that is not active is set and added. */
  method AddOne(s: Scheduler, now: int, due: Due, timer: Timer, delay: nat) returns (due': Due)
    requires Implements(s, now, due) && User(s, timer)
    modifies s, timer, s.deleted, s.q.nodes
    ensures Implements(s, now, due') && s.p == old(s.p)
    ensures due' == if timer in due || delay >= HALF then due else due[timer := now + delay]
  {
    hide *;
    hide s.Valid, s.Shaped, s.Live;
    if timer in due || delay >= HALF {
      return due;
    }
    Known(s, now, due);
    ghost var t := now + delay;
    UserIs(s, timer);
    timer.waketime := Wrap(now + delay);
    FitsNow(s, now, due, t);
    Opened(s, now, due);
    NotLate(t, now);
    AllInsert(s, now, due, s.Live(), timer, t);
    ghost var first := s.q.times[0];
    var ok := s.AddTimer(timer, t, Wrap(now), false);
    due' := due[timer := now + delay];
    Closed(s, now, due', if t < first then t else first);
  }

  lemma UserIs(s: Scheduler, x: Timer)
    ensures User(s, x) <==> x != s.periodic && x != s.sentinel && x != s.deleted
  {
  }

  /** A timer is deleted, active or not. */
  method DelOne(s: Scheduler, now: int, due: Due, timer: Timer) returns (due': Due)
    requires Implements(s, now, due) && User(s, timer)
    modifies s, s.deleted, s.q.nodes
    ensures Implements(s, now, due') && due' == due - {timer} && s.p == old(s.p)
    ensures s.q.times != [] && old(s.q.times) != [] && s.q.times[0] == old(s.q.times[0])
    ensures old(s.timerList) != timer ==> s.timerList == old(s.timerList)
  {
    hide *;
    hide s.Valid, s.Shaped, s.Live;
    UserIs(s, timer);
    Opened(s, now, due);
    AllRemove(s, now, due, s.Live(), timer);
    ghost var first := s.q.times[0];
    s.DelTimer(timer);
    due' := due - {timer};
    Closed(s, now, due', first);
    StartsIs(s.q, first);
  }

  lemma StartsIs(q: Queue, t: int)
    requires Starts(q, t)
    ensures q.times != [] && q.times[0] == t
  {
  }

  // ----- dispatching -------------------------------------------------------------------------------

  lemma LiveHead(s: Scheduler)
    requires s.Valid() && s.timerList != s.deleted
    ensures var live := s.Live();
            |live.nodes| == |live.times| > 0 && live.nodes[0] == s.timerList && Starts(s.q, live.times[0])
  {
  }

  lemma Listed(s: Scheduler, now: int, due: Due)
    requires Implements(s, now, due)
    ensures forall x :: x in due ==> x in s.q.nodes
    ensures s.periodic in s.q.nodes && s.sentinel in s.q.nodes
  {
    hide Lists, Within, Sorted, Distinct, Linked;
    s.Sizes();
    s.LiveIs();
    ListedBounds(s.Live(), All(s.periodic, s.p, due), now);
    s.HeadQueued();
    forall x | x in due
      ensures x in s.q.nodes
    {
      assert x in s.Live().nodes;
    }
  }

  /** Time passes, but not beyond the head. */
  lemma Later(s: Scheduler, now: int, due: Due, now': int)
    requires Implements(s, now, due) && now <= now' <= s.q.times[0]
    ensures Implements(s, now', due)
  {
    hide Lists, Sorted, Distinct, Linked, Strip;
    s.Sizes();
    s.LiveIs();
    StripEnds(s.q, s.deleted);
    EarliestFirst(s.Live(), All(s.periodic, s.p, due));
  }

  lemma EarliestFirst(q: Queue, due: Due)
    requires Lists(q, due)
    ensures |q.nodes| == |q.times| && (due.Keys != {} ==> q.times != [])
    ensures forall x :: x in due ==> q.times != [] && q.times[0] <= due[x]
  {
    forall x | x in due
      ensures q.times != [] && q.times[0] <= due[x]
    {
      var i :| 0 <= i < |q.nodes| && q.nodes[i] == x;
    }
  }

  /** The head leaves the map. */
  lemma AllTail(s: Scheduler, now: int, due: Due, live: Queue)
    requires Lists(live, All(s.periodic, s.p, due)) && Within(All(s.periodic, s.p, due), now) && live.nodes != []
    requires (forall x :: x in due ==> User(s, x)) && User(s, live.nodes[0])
    ensures var head := live.nodes[0];
            && |live.nodes| == |live.times| && head in due && due[head] == live.times[0]
            && (forall x :: x in due ==> due[head] <= due[x])
            && Lists(Tail(live), All(s.periodic, s.p, due - {head})) && Within(All(s.periodic, s.p, due - {head}), now)
  {
    hide Lists, Tail;
    var all, head := All(s.periodic, s.p, due), live.nodes[0];
    ListsSize(live, all);
    ListsTail(live, all);
    assert all - {head} == All(s.periodic, s.p, due - {head});
    forall x | x in due
      ensures due[head] <= due[x]
    {
      assert all[head] <= all[x];
    }
  }

  lemma AllPeriodic(s: Scheduler, now: int, due: Due, live: Queue, p': int)
    requires Lists(live, All(s.periodic, s.p, due)) && Within(All(s.periodic, s.p, due), now)
    requires live.nodes != [] && live.nodes[0] == s.periodic && s.periodic !in due && now <= p' < now + HALF
    ensures |live.nodes| == |live.times| > 0 && s.p == live.times[0] && |Tail(live).nodes| == |Tail(live).times|
    ensures Lists(Insert(Tail(live), s.periodic, p'), All(s.periodic, p', due)) && Within(All(s.periodic, p', due), now)
  {
    hide Lists, Insert;
    var all := All(s.periodic, s.p, due);
    ListsSize(live, all);
    ListsTail(live, all);
    assert all - {s.periodic} == due;
    ListsSize(Tail(live), due);
    ListsInsert(Tail(live), due, s.periodic, p');
  }

  /** The stand-in or the periodic timer is dispatched: the map does not change. */
  method TickIdle(s: Scheduler, now: int, ghost due: Due)
    requires Implements(s, now, due) && s.q.times[0] == now && !User(s, s.timerList)
    modifies s, s.q.nodes
    ensures Implements(s, now, due) && Idled(old(s.timerList), old(s.p), s)
  {
    hide *;
    hide s.Valid, s.Shaped, s.Live, s.Schedulable;
    UserIs(s, s.timerList);
    Opened(s, now, due);
    s.Sizes();
    CanReschedule(s, now, due, Done);
    s.DispatchCases(Done);
    SentinelBehind(s);
    if s.timerList == s.periodic {
      LiveHead(s);
      PeriodicHead(s);
      AllPeriodic(s, now, due, s.Live(), s.p + s.periodTicks);
    }
    var _ := s.Dispatch(Done);
    LiveHead(s);
    Reopened(s, now, due);
    IdledIs(old(s.timerList), old(s.p), s);
  }

  /** What an idle tick does: the stand-in is gone, or the periodic timer has moved on. */
  ghost predicate Idled(head: Timer, p: int, s: Scheduler)
    reads s
  {
    && s.timerList != s.deleted && !User(s, head)
    && (head == s.periodic ==> s.p == p + s.periodTicks)
    && (head != s.periodic ==> head == s.deleted && s.p == p)
  }

  lemma IdledIs(head: Timer, p: int, s: Scheduler)
    requires s.timerList != s.deleted && (head == s.periodic || head == s.deleted)
    requires s.p == if head == s.periodic then p + s.periodTicks else p
    ensures Idled(head, p, s)
  {
  }

  lemma SentinelBehind(s: Scheduler)
    requires s.Valid()
    ensures s.timerList != s.sentinel
  {
  }

  lemma Reopened(s: Scheduler, now: int, due: Due)
    requires s.Valid() && s.timerList != s.deleted && 0 < s.periodTicks < HALF
    requires (forall x :: x in due ==> User(s, x)) && Lists(s.Live(), All(s.periodic, s.p, due))
    requires Within(All(s.periodic, s.p, due), now)
    ensures Implements(s, now, due)
  {
    hide Lists, Within;
    LiveHead(s);
    ListedBounds(s.Live(), All(s.periodic, s.p, due), now);
    Closed(s, now, due, s.Live().times[0]);
  }

  /** A user timer is dispatched: it leaves the map or takes its new time in it. */
  method TickUser(s: Scheduler, now: int, due: Due, after: After) returns (due': Due)
    requires Implements(s, now, due) && s.q.times[0] == now && User(s, s.timerList)
    modifies s, s.q.nodes
    ensures Implements(s, now, due') && s.p == old(s.p) && s.timerList != s.deleted
    ensures old(s.timerList) in due && due[old(s.timerList)] == now && forall x :: x in due ==> now <= due[x]
    ensures due' == Resumed(due, old(s.timerList), after, now)
  {
    hide *;
    hide s.Valid, s.Shaped, s.Live, s.Schedulable, s.Dispatched;
    UserIs(s, s.timerList);
    Opened(s, now, due);
    s.Sizes();
    LiveHead(s);
    StartsIs(s.q, s.Live().times[0]);
    AllTail(s, now, due, s.Live());
    var head := s.timerList;
    ghost var live := s.Live();
    var outcome := Done;
    due' := due - {head};
    match after {
      case Again(delay) =>
        if delay < HALF {
          outcome := Reschedule(now + delay);
          AllInsert(s, now, due - {head}, Tail(live), head, now + delay);
          due' := (due - {head})[head := now + delay];
        }
      case Stop =>
    }
    ResumedIs(due, head, after, now);
    CanReschedule(s, now, due, outcome);
    s.DispatchCases(outcome);
    var _ := s.Dispatch(outcome);
    Reopened(s, now, due');
  }

  /** The map after the callback of `head` has run at `now`. */
  function Resumed(due: Due, head: Timer, after: After, now: int): Due {
    if after.Again? && after.delay < HALF then due[head := now + after.delay] else due - {head}
  }

  lemma ResumedIs(due: Due, head: Timer, after: After, now: int)
    ensures Resumed(due, head, after, now) ==
            if after.Again? && after.delay < HALF then (due - {head})[head := now + after.delay] else due - {head}
  {
    if after.Again? {
      assert due[head := now + after.delay] == (due - {head})[head := now + after.delay];
    }
  }

  /** A callback deletes timers other than its own. */
  function Without(due: Due, deletes: seq<Timer>, head: Timer): Due {
    if deletes == [] then due
    else
      var less := Without(due, deletes[..|deletes| - 1], head);
      if deletes[|deletes| - 1] == head then less else less - {deletes[|deletes| - 1]}
  }

  method DeleteOthers(s: Scheduler, now: int, due: Due, deletes: seq<Timer>) returns (due': Due)
    requires Implements(s, now, due) && s.q.times[0] == now
    requires forall k :: 0 <= k < |deletes| ==> User(s, deletes[k])
    modifies s, s.deleted, s.q.nodes
    ensures Implements(s, now, due') && s.q.times != [] && s.q.times[0] == now && s.timerList == old(s.timerList)
    ensures s.p == old(s.p)
    ensures due' == Without(due, deletes, s.timerList)
    ensures forall i :: 0 <= i < |s.q.nodes| ==> s.q.nodes[i] in old(s.q.nodes) || s.q.nodes[i] == s.deleted
  {
    hide *;
    hide s.Valid, s.Shaped, s.Live;
    var head := s.timerList;
    due' := due;
    Listed(s, now, due);
    Opened(s, now, due);
    WithoutNone(due, head);
    assert deletes[..0] == [];
    for k := 0 to |deletes|
      invariant Implements(s, now, due') && s.q.times != [] && s.q.times[0] == now && s.timerList == head
      invariant s.p == old(s.p)
      invariant due' == Without(due, deletes[..k], head)
      invariant forall x :: x in due' ==> x in due
      invariant forall i :: 0 <= i < |s.q.nodes| ==> s.q.nodes[i] in old(s.q.nodes) || s.q.nodes[i] == s.deleted
    {
      WithoutMore(due, deletes, k, head);
      if deletes[k] != head {
        due' := DelOne(s, now, due', deletes[k]);
        Known(s, now, due');
      }
    }
    assert deletes[..|deletes|] == deletes;
  }

  lemma WithoutNone(due: Due, head: Timer)
    ensures Without(due, [], head) == due
  {
  }

  lemma WithoutMore(due: Due, deletes: seq<Timer>, k: nat, head: Timer)
    requires k < |deletes|
    ensures Without(due, deletes[..k + 1], head) ==
            var less := Without(due, deletes[..k], head);
            if deletes[k] == head then less else less - {deletes[k]}
  {
    assert deletes[..k + 1][..k] == deletes[..k];
  }

  /**
   The scheduler's interrupt: time moves to the head's time. A user timer fires exactly
   when it is due, and none is due before it.
   */
  method TickOne(s: Scheduler, now: int, due: Due, after: After, deletes: seq<Timer>)
    returns (now': int, due': Due, ghost fired: seq<Fired>)
    requires Implements(s, now, due) && forall k :: 0 <= k < |deletes| ==> User(s, deletes[k])
    modifies s, s.deleted, s.q.nodes
    ensures Implements(s, now', due') && now <= now' && forall x :: x in due ==> now' <= due[x]
    ensures fired != [] <==> User(s, old(s.timerList))
    ensures fired == [] ==> due' == due && Idled(old(s.timerList), old(s.p), s)
    ensures old(s.timerList) == s.periodic ==> now' == old(s.p)
    ensures fired != [] ==> s.p == old(s.p) && s.timerList != s.deleted
    ensures now' <= old(s.p)
    ensures fired != [] ==>
              && fired == [Fired(old(s.timerList), now')] && old(s.timerList) in due && due[old(s.timerList)] == now'
              && due' == Resumed(Without(due, deletes, old(s.timerList)), old(s.timerList), after, now')
  {
    hide *;
    hide s.Valid, s.Shaped, s.Live;
    Opened(s, now, due);
    HeadTime(s, now, due);
    var head := s.timerList;
    now' := now + Wrap(head.waketime - Wrap(now));
    Later(s, now, due, now');
    NotPassed(s, now', due);
    if s.timerList == s.periodic {
      PeriodicHead(s);
    }
    due', fired := due, [];
    if User(s, head) {
      Earliest(s, now', due);
      due' := DeleteOthers(s, now', due, deletes);
      due' := TickUser(s, now', due', after);
      fired := [Fired(head, now')];
    } else {
      TickIdle(s, now', due);
    }
  }

  /**
   No timer is starved: as long as interrupts come, after finitely many of them the
   earliest timer fires, at its time.
   */
  method FireNext(s: Scheduler, now: int, due: Due, after: After) returns (now': int, due': Due, fired: Timer)
    requires Implements(s, now, due) && due != map[]
    modifies s, s.deleted, s.q.nodes
    ensures Implements(s, now', due') && fired in due && due[fired] == now' && forall x :: x in due ==> now' <= due[x]
    ensures due' == Resumed(due, fired, after, now')
  {
    hide Implements, Wrap;
    now', due' := now, due;
    ghost var first :| first in due;
    Known(s, now, due);
    Listed(s, now, due);
    while !User(s, s.timerList)
      invariant Implements(s, now', due)
      invariant forall i :: 0 <= i < |s.q.nodes| ==> s.q.nodes[i] in old(s.q.nodes) || s.q.nodes[i] == s.deleted
      decreases due[first] - s.p, if s.timerList == s.deleted then 1 else 0
    {
      PeriodicBound(s, now', due, first);
      ghost var idle;
      now', due', idle := TickOne(s, now', due, after, []);
      Known(s, now', due);
    }
    fired := s.timerList;
    ghost var fires;
    now', due', fires := TickOne(s, now', due, after, []);
  }

  /** If the periodic timer is the head, it is due no later than the others, and time moves on. */
  lemma PeriodicBound(s: Scheduler, now: int, due: Due, x: Timer)
    requires Implements(s, now, due) && x in due
    ensures s.timerList == s.periodic ==> s.p <= due[x] && s.periodTicks > 0
  {
    if s.timerList == s.periodic {
      PeriodicHead(s);
      Later(s, now, due, s.p);
      NotPassed(s, s.p, due);
    }
  }

  lemma Earliest(s: Scheduler, now: int, due: Due)
    requires Implements(s, now, due) && s.q.times[0] == now && User(s, s.timerList)
    ensures s.timerList in due && due[s.timerList] == now && forall x :: x in due ==> now <= due[x]
  {
    hide Lists, Within;
    UserIs(s, s.timerList);
    LiveHead(s);
    AllTail(s, now, due, s.Live());
  }

  // ----- any sequence of operations ------------------------------------------------------------------

  /** The simple scheduler: what an operation may do to the time and the map of due times. */
  ghost predicate Steps(op: Op, now: int, due: Due, now': int, due': Due, fired: seq<Fired>) {
    match op
    case Add(timer, delay) =>
      now' == now && fired == [] && due' == if timer in due || delay >= HALF then due else due[timer := now + delay]
    case Del(timer) => now' == now && fired == [] && due' == due - {timer}
    case Tick(after, deletes) =>
      && now <= now' && (forall x :: x in due ==> now' <= due[x]) && (fired == [] ==> due' == due)
      && (fired != [] ==>
            var head := fired[0].timer;
            && fired == [Fired(head, now')] && head in due && due[head] == now'
            && due' == Resumed(Without(due, deletes, head), head, after, now'))
    case Wait(ticks) =>
      now <= now' <= now + ticks && fired == [] && due' == due && forall x :: x in due ==> now' <= due[x]
    case Clear => now' == now && fired == [] && due' == map[]
  }

  ghost predicate OpOk(s: Scheduler, op: Op, timers: set<Timer>) {
    match op
    case Add(timer, _) => User(s, timer) && timer in timers
    case Del(timer) => User(s, timer)
    case Tick(_, deletes) => forall k :: 0 <= k < |deletes| ==> User(s, deletes[k])
    case Wait(_) => true
    case Clear => true
  }

  method WaitSome(s: Scheduler, now: int, ghost due: Due, ticks: nat) returns (now': int)
    requires Implements(s, now, due)
    ensures Implements(s, now', due) && now <= now' <= now + ticks && forall x :: x in due ==> now' <= due[x]
  {
    hide *;
    HeadTime(s, now, due);
    var head := now + Wrap(s.timerList.waketime - Wrap(now));
    now' := if now + ticks < head then now + ticks else head;
    Later(s, now, due, now');
    NotPassed(s, now', due);
  }

  lemma NotPassed(s: Scheduler, now: int, due: Due)
    requires Implements(s, now, due)
    ensures now <= s.p && forall x :: x in due ==> now <= due[x]
  {
    assert All(s.periodic, s.p, due)[s.periodic] == s.p;
    forall x | x in due
      ensures now <= due[x]
    {
      assert All(s.periodic, s.p, due)[x] == due[x];
    }
  }

  method ClearAll(s: Scheduler, now: int, ghost due: Due) returns (due': Due)
    requires Implements(s, now, due)
    modifies s, s.deleted, s.periodic
    ensures Implements(s, now, due') && due' == map[] && s.p == old(s.p)
  {
    hide *;
    hide s.Valid, s.Shaped, s.Live;
    Opened(s, now, due);
    s.CanReset();
    OnlyPeriodic(s, now, due);
    s.Reset();
    due' := map[];
    Closed(s, now, due', s.p);
  }

  lemma OnlyPeriodic(s: Scheduler, now: int, due: Due)
    requires Within(All(s.periodic, s.p, due), now)
    ensures Lists(Queue([s.periodic], [s.p]), All(s.periodic, s.p, map[])) && Within(All(s.periodic, s.p, map[]), now)
    ensures now <= s.p
  {
    assert All(s.periodic, s.p, due)[s.periodic] == s.p;
  }

  /** Each operation on the linked list is a step of the simple scheduler. */
  method Perform(s: Scheduler, op: Op, now: int, due: Due, ghost timers: set<Timer>)
    returns (now': int, due': Due, ghost fired: seq<Fired>)
    requires Implements(s, now, due) && due.Keys <= timers && OpOk(s, op, timers)
    modifies s, timers, s.deleted, s.periodic, s.sentinel
    ensures Implements(s, now', due') && Steps(op, now, due, now', due', fired) && due'.Keys <= timers
    ensures Beats(op, s.periodTicks, old(Moment(now, due, s.p, s.timerList == s.deleted)),
                  Moment(now', due', s.p, s.timerList == s.deleted), fired)
  {
    hide Implements, Without, Resumed, Wrap, s.Valid;
    Known(s, now, due);
    Apart(s, now, due);
    now', due', fired := now, due, [];
    match op {
      case Add(timer, delay) =>
        due' := AddOne(s, now, due, timer, delay);
      case Del(timer) =>
        due' := DelOne(s, now, due, timer);
      case Tick(after, deletes) =>
        ghost var head := s.timerList;
        now', due', fired := TickOne(s, now, due, after, deletes);
        ResumedKeys(due, deletes, head, after, now');
      case Wait(ticks) =>
        now' := WaitSome(s, now, due, ticks);
      case Clear =>
        due' := ClearAll(s, now, due);
    }
  }

  lemma Apart(s: Scheduler, now: int, due: Due)
    requires Implements(s, now, due)
    ensures s.periodic != s.deleted
  {
  }

  lemma ResumedKeys(due: Due, deletes: seq<Timer>, head: Timer, after: After, now: int)
    ensures head in due ==> Resumed(Without(due, deletes, head), head, after, now).Keys <= due.Keys
  {
    FewerKeys(due, deletes, head);
  }

  lemma {:induction false} FewerKeys(due: Due, deletes: seq<Timer>, head: Timer)
    ensures Without(due, deletes, head).Keys <= due.Keys
  {
    if deletes != [] {
      FewerKeys(due, deletes[..|deletes| - 1], head);
    }
  }

  ghost predicate Chronological(log: seq<Fired>, now: int) {
    && (forall i, j :: 0 <= i < j < |log| ==> log[i].at <= log[j].at)
    && (forall i :: 0 <= i < |log| ==> log[i].at <= now)
  }

  /**
   The state between two operations: the time, the map of due times, the time of the periodic
   timer, and whether the head is the stand-in.
   */
  datatype Moment = Moment(now: int, due: Due, p: int, standIn: bool)

  /**
   Which timer an interrupt is for: one that fires no user timer removes the stand-in or moves the
   periodic timer on. Nothing else touches the periodic timer.
   */
  ghost predicate Beats(op: Op, period: int, a: Moment, b: Moment, fired: seq<Fired>) {
    && (op.Tick? ==> !b.standIn && b.now <= a.p)
    && (op.Tick? && fired == [] && !a.standIn ==> b.now == a.p && b.p == a.p + period)
    && (!op.Tick? || fired != [] || a.standIn ==> b.p == a.p)
    && (op.Tick? && fired != [] ==> !a.standIn)
  }

  /** `moments` and `fires` are a history of the simple scheduler carrying out `ops` from `start`. */
  ghost predicate History(ops: seq<Op>, period: int, start: Moment, moments: seq<Moment>, fires: seq<seq<Fired>>) {
    && |moments| == |ops| + 1 && |fires| == |ops| && moments[0] == start
    && forall k :: 0 <= k < |ops| ==> Follows(ops[k], period, moments[k], moments[k + 1], fires[k])
  }

  ghost predicate Follows(op: Op, period: int, a: Moment, b: Moment, fired: seq<Fired>) {
    Steps(op, a.now, a.due, b.now, b.due, fired) && Beats(op, period, a, b, fired)
  }

  ghost function Flatten(fires: seq<seq<Fired>>): seq<Fired> {
    if fires == [] then [] else Flatten(fires[..|fires| - 1]) + fires[|fires| - 1]
  }

  lemma HistoryExtends(ops: seq<Op>, op: Op, period: int, start: Moment, moments: seq<Moment>,
                       fires: seq<seq<Fired>>, next: Moment, fired: seq<Fired>)
    requires History(ops, period, start, moments, fires) && Follows(op, period, moments[|ops|], next, fired)
    ensures History(ops + [op], period, start, moments + [next], fires + [fired])
    ensures Flatten(fires + [fired]) == Flatten(fires) + fired
  {
    hide Follows;
    var all, ms, fs := ops + [op], moments + [next], fires + [fired];
    assert fs[..|fires|] == fires;
    forall k | 0 <= k < |all|
      ensures Follows(all[k], period, ms[k], ms[k + 1], fs[k])
    {
      if k < |ops| {
        assert all[k] == ops[k] && ms[k] == moments[k] && ms[k + 1] == moments[k + 1] && fs[k] == fires[k];
      }
    }
  }

  lemma LogExtends(op: Op, now: int, due: Due, now': int, due': Due, log: seq<Fired>, fired: seq<Fired>)
    requires Chronological(log, now) && Steps(op, now, due, now', due', fired)
    ensures Chronological(log + fired, now') && now <= now'
  {
    hide Resumed, Without;
  }

  /**
   After any sequence of operations the list is the map that the simple scheduler, carrying
   out the same operations, arrives at: none is lost or duplicated. `log` is what fired on
   the way, in order of time.
   */
  method Run(s: Scheduler, ops: seq<Op>, start: int, ghost timers: set<Timer>)
    returns (now: int, due: Due, ghost log: seq<Fired>, ghost moments: seq<Moment>, ghost fires: seq<seq<Fired>>)
    requires Implements(s, start, map[]) && forall k :: 0 <= k < |ops| ==> OpOk(s, ops[k], timers)
    modifies s, timers, s.deleted, s.periodic, s.sentinel
    ensures Implements(s, now, due) && Chronological(log, now)
    ensures History(ops, s.periodTicks, old(Moment(start, map[], s.p, s.timerList == s.deleted)), moments, fires)
    ensures log == Flatten(fires) && moments[|ops|] == Moment(now, due, s.p, s.timerList == s.deleted)
  {
    hide Implements, OpOk, Steps, Beats, Flatten, Chronological;
    now, due, log := start, map[], [];
    ghost var first := Moment(start, map[], s.p, s.timerList == s.deleted);
    moments, fires := [first], [];
    NothingFired(start);
    for k := 0 to |ops|
      invariant Implements(s, now, due) && Chronological(log, now) && due.Keys <= timers
      invariant History(ops[..k], s.periodTicks, first, moments, fires) && log == Flatten(fires)
      invariant moments[k] == Moment(now, due, s.p, s.timerList == s.deleted)
    {
      var now', due', fired := Perform(s, ops[k], now, due, timers);
      ghost var next := Moment(now', due', s.p, s.timerList == s.deleted);
      HistoryExtends(ops[..k], ops[k], s.periodTicks, first, moments, fires, next, fired);
      LogExtends(ops[k], now, due, now', due', log, fired);
      assert ops[..k + 1] == ops[..k] + [ops[k]];
      moments, fires, log := moments + [next], fires + [fired], log + fired;
      now, due := now', due';
    }
    assert ops[..|ops|] == ops;
  }

  lemma NothingFired(now: int)
    ensures Chronological([], now) && Flatten([]) == []
  {
  }

  /** The scheduler at start-up: no user timers. */
  method Boot(periodTicks: nat) returns (s: Scheduler)
    requires 0 < periodTicks < HALF
    ensures fresh(s) && Implements(s, 0, map[])
  {
    s := new Scheduler(periodTicks);
    PeriodicHead(s);
    OnlyPeriodic(s, 0, map[]);
  }
}
