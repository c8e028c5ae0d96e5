/**
 The timer list of `src/sched.c`: a linked list sorted by wrapping 32-bit wake-up
 times, with a periodic timer, a sentinel at the end, a stand-in for deleted
 heads and a hint for re-insertion.

 The scheduler carries, as a ghost, the list's nodes in order with an unbounded
 time for each, of which the node's `waketime` is the wrapped image. All pending
 times lie within half the 32-bit range of each other.
 */
module Sched {
  import opened Ticks

  class Timer {
    var next: Timer?
    var waketime: uint32
  }

  // ----- sequences of timers and their times, as values ------------------------------

  /** Timers in list order, and their times. */
  datatype Queue = Queue(nodes: seq<Timer>, times: seq<int>)

  ghost predicate Sorted(times: seq<int>) {
    forall i, j :: 0 <= i < j < |times| ==> times[i] <= times[j]
  }

  ghost predicate Distinct(nodes: seq<Timer>) {
    forall i, j :: 0 <= i < j < |nodes| ==> nodes[i] != nodes[j]
  }

  /** Where a scan from the front inserts `t`: behind all entries that are not later. */
  ghost function Rank(times: seq<int>, t: int): (k: nat)
    ensures k <= |times|
    ensures forall i :: 0 <= i < k ==> times[i] <= t
    ensures k < |times| ==> t < times[k]
  {
    if times == [] || t < times[0] then 0 else 1 + Rank(times[1..], t)
  }

  /** In a sorted list the insertion point does not depend on where the scan starts. */
  lemma RankUnique(times: seq<int>, t: int, k: nat)
    requires Sorted(times) && k <= |times|
    requires k > 0 ==> times[k - 1] <= t
    requires k < |times| ==> t < times[k]
    ensures k == Rank(times, t)
  {
  }

  ghost function InsertAt<T>(s: seq<T>, k: nat, x: T): seq<T>
    requires k <= |s|
  {
    s[..k] + [x] + s[k..]
  }

  /** `t` takes its place among the queued times, behind equal ones. */
  ghost function Insert(q: Queue, node: Timer, t: int): Queue
    requires |q.nodes| == |q.times|
  {
    var k := Rank(q.times, t);
    Queue(InsertAt(q.nodes, k, node), InsertAt(q.times, k, t))
  }

  /** The first time of the list, the stand-in's included, is `t`. */
  ghost predicate Starts(q: Queue, t: int) {
    q.times != [] && q.times[0] == t
  }

  ghost function Cons(node: Timer, t: int, q: Queue): Queue {
    Queue([node] + q.nodes, [t] + q.times)
  }

  ghost function Tail(q: Queue): Queue
    requires |q.nodes| == |q.times| > 0
  {
    Queue(q.nodes[1..], q.times[1..])
  }

  /**
   The times of a list that ends in a sentinel: sorted, the others less than half
   the range apart, and the sentinel half the range behind the periodic time `p`.
   */
  ghost predicate InOrder(q: Queue, p: int) {
    var n := |q.nodes|;
    && |q.times| == n && n >= 1
    && Distinct(q.nodes) && Sorted(q.times)
    && q.times[n - 1] == p + HALF
    && (n >= 2 ==> q.times[n - 2] - q.times[0] < HALF)
  }

  /** Time `t` is comparable with all times of the list but the sentinel's. */
  ghost predicate Fits(q: Queue, t: int) {
    var n := |q.times|;
    n >= 2 ==> t - q.times[0] < HALF && q.times[n - 2] - t < HALF
  }

  ghost predicate Holds(q: Queue, node: Timer, t: int) {
    |q.nodes| == |q.times| && exists i :: 0 <= i < |q.nodes| - 1 && q.nodes[i] == node && q.times[i] == t
  }

  lemma InsertSorted(times: seq<int>, t: int)
    requires Sorted(times)
    ensures Sorted(InsertAt(times, Rank(times, t), t))
  {
    var k := Rank(times, t);
    forall i | k <= i < |times|
      ensures t < times[i]
    {
      if k < i {
        assert times[k] <= times[i];
      }
    }
  }

  lemma InsertDistinct(nodes: seq<Timer>, k: nat, node: Timer)
    requires Distinct(nodes) && node !in nodes && k <= |nodes|
    ensures Distinct(InsertAt(nodes, k, node))
  {
  }

  lemma InsertInOrder(q: Queue, node: Timer, t: int, p: int)
    requires InOrder(q, p) && Fits(q, t) && node !in q.nodes && t < p + HALF
    ensures InOrder(Insert(q, node, t), p)
    ensures Rank(q.times, t) < |q.nodes|
  {
    hide Sorted, Distinct, Rank;
    var k := Rank(q.times, t);
    InsertSorted(q.times, t);
    InsertDistinct(q.nodes, k, node);
    var n := |q.times|;
    var all := InsertAt(q.times, k, t);
    assert all[n] == q.times[n - 1];
    assert all[0] == if k == 0 then t else q.times[0];
    assert all[n - 1] == if k == n - 1 then t else q.times[n - 2];
  }

  lemma InsertHolds(q: Queue, node: Timer, t: int, other: Timer, u: int)
    requires Holds(q, other, u) && Rank(q.times, t) < |q.nodes|
    ensures Holds(Insert(q, node, t), other, u)
    ensures Holds(Insert(q, node, t), node, t)
  {
    var k := Rank(q.times, t);
    var r := Insert(q, node, t);
    var i :| 0 <= i < |q.nodes| - 1 && q.nodes[i] == other && q.times[i] == u;
    var j := if i < k then i else i + 1;
    assert r.nodes[j] == other && r.times[j] == u;
    assert r.nodes[k] == node && r.times[k] == t;
  }

  lemma ConsInOrder(node: Timer, t: int, q: Queue, p: int)
    requires InOrder(q, p) && Fits(q, t) && node !in q.nodes && t <= q.times[0]
    ensures InOrder(Cons(node, t, q), p)
  {
    forall i | 0 <= i < |q.times|
      ensures t <= q.times[i]
    {
      if i > 0 {
        assert q.times[0] <= q.times[i];
      }
    }
  }

  lemma ConsStarts(node: Timer, t: int, q: Queue)
    ensures Starts(Cons(node, t, q), t)
  {
  }

  /** Where the first time stays as it is. */
  lemma StartsAgain(q: Queue, q': Queue)
    requires |q.times| > 0 && |q'.times| > 0 && q'.times[0] == q.times[0]
    ensures Starts(q', q.times[0])
  {
  }

  lemma ConsFits(node: Timer, t: int, q: Queue)
    requires Fits(q, t) && |q.times| > 0
    ensures Fits(Cons(node, t, q), t)
  {
  }

  lemma TailInOrder(q: Queue, p: int)
    requires InOrder(q, p) && |q.nodes| >= 2
    ensures InOrder(Tail(q), p) && Fits(Tail(q), q.times[0]) && q.times[0] <= q.times[1]
    ensures q.nodes[0] !in Tail(q).nodes
  {
    assert q.times[0] <= q.times[1];
    if |q.nodes| > 2 {
      assert q.times[0] <= q.times[|q.times| - 2];
      assert q.times[0] <= q.times[|q.times| - 3] <= q.times[|q.times| - 2];
    }
  }

  // ----- the linked list on the heap ---------------------------------------------------

  ghost predicate Linked(nodes: seq<Timer>)
    reads nodes
  {
    && nodes != []
    && (forall i {:trigger nodes[i].next} :: 0 <= i < |nodes| - 1 ==> nodes[i].next == nodes[i + 1])
    && nodes[|nodes| - 1].next == null
  }

  ghost predicate Stamped(q: Queue)
    reads q.nodes
  {
    |q.nodes| == |q.times| && forall i :: 0 <= i < |q.nodes| ==> q.nodes[i].waketime == Wrap(q.times[i])
  }

  /** What a scan for time `t` finds: the list in order, and periodic time `p` in it or not after `t`. */
  ghost predicate Scannable(q: Queue, periodic: Timer, p: int, t: int)
    reads q.nodes
  {
    && InOrder(q, p) && Linked(q.nodes) && Stamped(q) && Fits(q, t)
    && Near(t, p) && (Holds(q, periodic, p) || p <= t)
  }

  /**
   The test that ends a scan: exact for every node the scan can reach, and true
   at the sentinel. So every scan ends inside the list.
   */
  lemma ScanTest(q: Queue, periodic: Timer, p: int, t: int, i: nat)
    requires Scannable(q, periodic, p, t) && i < |q.nodes|
    requires i > 0 ==> q.times[i - 1] <= t
    ensures IsBefore(Wrap(t), q.nodes[i].waketime) <==> t < q.times[i]
    ensures i == |q.nodes| - 1 ==> t < q.times[i]
  {
    var n := |q.nodes|;
    if i == n - 1 {
      if Holds(q, periodic, p) {
        var j :| 0 <= j < n - 1 && q.nodes[j] == periodic && q.times[j] == p;
        assert j < i - 1 ==> q.times[j] <= q.times[i - 1];
      }
    } else {
      assert i > 0 ==> q.times[0] <= q.times[i];
      assert i < n - 2 ==> q.times[i] <= q.times[n - 2];
    }
    ComparesTrue(t, q.times[i]);
  }

  /**
   The scan of `insert_timer`: finds the nodes between which time `t` belongs. It
   starts behind `pos`, which is node `s` and not later than `t`, or, for `s == -1`,
   a timer outside the list that links to its head.
   */
  method Scan(pos: Timer, waketime: uint32, ghost t: int, ghost q: Queue, ghost s: int,
              ghost periodic: Timer, ghost p: int)
    returns (prev: Timer, cur: Timer, ghost k: nat)
    requires Scannable(q, periodic, p, t) && waketime == Wrap(t)
    requires q.times[0] <= t && -1 <= s < |q.nodes| - 1
    requires if s == -1 then pos.next == q.nodes[0] else pos == q.nodes[s] && q.times[s] <= t
    ensures k == Rank(q.times, t) && 0 < k < |q.nodes|
    ensures prev == q.nodes[k - 1] && cur == q.nodes[k]
  {
    hide InOrder, Fits, Sorted, Holds, Rank, IsBefore;
    ghost var i := s + 1;
    prev := pos;
    cur := pos.next;
    ScanTest(q, periodic, p, t, i);
    while !IsBefore(waketime, cur.waketime)
      invariant 0 <= i < |q.nodes| && cur == q.nodes[i]
      invariant i > 0 ==> prev == q.nodes[i - 1] && q.times[i - 1] <= t
      invariant IsBefore(waketime, cur.waketime) <==> t < q.times[i]
      invariant i == |q.nodes| - 1 ==> t < q.times[i]
      decreases |q.nodes| - i
    {
      prev := cur;
      cur := cur.next;
      i := i + 1;
      ScanTest(q, periodic, p, t, i);
    }
    k := i;
    RankInOrder(q, p, t, k);
  }

  lemma RankInOrder(q: Queue, p: int, t: int, k: nat)
    requires InOrder(q, p) && 0 < k < |q.nodes| && q.times[k - 1] <= t < q.times[k]
    ensures k == Rank(q.times, t)
  {
    RankUnique(q.times, t, k);
  }

  /** Links `node` in front of node `k`. */
  method LinkIn(prev: Timer, node: Timer, cur: Timer, ghost nodes: seq<Timer>, ghost k: nat)
    requires Linked(nodes) && Distinct(nodes) && node !in nodes
    requires 0 < k < |nodes| && prev == nodes[k - 1] && cur == nodes[k]
    modifies node`next, prev`next
    ensures Linked(InsertAt(nodes, k, node))
  {
    node.next := cur;
    prev.next := node;
    ghost var all := InsertAt(nodes, k, node);
    assert forall i :: 0 <= i < |all| ==>
        all[i] == if i < k then nodes[i] else if i == k then node else nodes[i - 1];
    forall i | 0 <= i < |all| - 1
      ensures all[i].next == all[i + 1]
    {
      if i < k - 1 {
        assert nodes[i] != prev && nodes[i].next == nodes[i + 1];
      } else if k < i {
        assert nodes[i - 1] != prev && nodes[i - 1].next == nodes[i];
      }
    }
  }

  /** `insert_timer`: the list becomes the one with `node` at its place. */
  method InsertTimer(pos: Timer, node: Timer, waketime: uint32, ghost t: int, ghost q: Queue, ghost s: int,
                     ghost periodic: Timer, ghost p: int)
    requires Scannable(q, periodic, p, t) && node !in q.nodes && waketime == node.waketime == Wrap(t)
    requires q.times[0] <= t && -1 <= s < |q.nodes| - 1
    requires if s == -1 then pos.next == q.nodes[0] else pos == q.nodes[s] && q.times[s] <= t
    modifies node`next, q.nodes`next
    ensures Linked(Insert(q, node, t).nodes) && Stamped(Insert(q, node, t))
    ensures 0 < Rank(q.times, t) < |q.nodes|
  {
    hide Rank, Sorted, Linked;
    var prev, cur;
    ghost var k;
    prev, cur, k := Scan(pos, waketime, t, q, s, periodic, p);
    LinkIn(prev, node, cur, q.nodes, k);
  }

  lemma LinkedCons(node: Timer, nodes: seq<Timer>)
    requires Linked(nodes) && node.next == nodes[0]
    ensures Linked([node] + nodes)
  {
  }

  lemma LinkedTail(nodes: seq<Timer>)
    requires Linked(nodes) && |nodes| >= 2
    ensures Linked(nodes[1..]) && nodes[0].next == nodes[1]
  {
  }

  lemma StampedCons(node: Timer, t: int, q: Queue)
    requires Stamped(q) && node.waketime == Wrap(t)
    ensures Stamped(Cons(node, t, q))
  {
  }

  lemma ConsHolds(node: Timer, t: int, q: Queue, other: Timer, u: int)
    requires Holds(q, other, u)
    ensures Holds(Cons(node, t, q), other, u)
  {
    var i :| 0 <= i < |q.nodes| - 1 && q.nodes[i] == other && q.times[i] == u;
    assert Cons(node, t, q).nodes[i + 1] == other;
  }

  lemma TailHolds(q: Queue, other: Timer, u: int)
    requires Holds(q, other, u) && q.nodes[0] != other
    ensures Holds(Tail(q), other, u)
  {
    var i :| 0 <= i < |q.nodes| - 1 && q.nodes[i] == other && q.times[i] == u;
    assert Tail(q).nodes[i - 1] == other;
  }

  /** `x` is in the list, and not its sentinel. */
  ghost predicate Has(nodes: seq<Timer>, x: Timer) {
    exists i :: 0 <= i < |nodes| - 1 && nodes[i] == x
  }

  /** `x` is in the list at most as its head. */
  ghost predicate OnlyFirst(nodes: seq<Timer>, x: Timer) {
    forall i :: 1 <= i < |nodes| ==> nodes[i] != x
  }

  lemma InsertHas(nodes: seq<Timer>, k: nat, node: Timer, x: Timer)
    requires k < |nodes| && (x == node || Has(nodes, x))
    ensures Has(InsertAt(nodes, k, node), x)
  {
    var all := InsertAt(nodes, k, node);
    assert all[k] == node;
    if x != node {
      var i :| 0 <= i < |nodes| - 1 && nodes[i] == x;
      assert all[if i < k then i else i + 1] == x;
    }
  }

  lemma InsertOnlyFirst(nodes: seq<Timer>, k: nat, node: Timer, x: Timer)
    requires 0 < k < |nodes| && x != node && OnlyFirst(nodes, x)
    ensures OnlyFirst(InsertAt(nodes, k, node), x)
  {
  }

  lemma TailHas(nodes: seq<Timer>, x: Timer)
    requires nodes != [] && Has(nodes, x) && x != nodes[0]
    ensures Has(nodes[1..], x) && |nodes| >= 3
  {
    var i :| 0 <= i < |nodes| - 1 && nodes[i] == x;
    assert nodes[1..][i - 1] == x;
  }

  lemma ConsHead(node: Timer, t: int, q: Queue)
    requires |q.nodes| == |q.times| > 0
    ensures Holds(Cons(node, t, q), node, t) && Has([node] + q.nodes, node)
  {
    assert ([node] + q.nodes)[0] == node && ([t] + q.times)[0] == t;
  }

  lemma ConsHas(node: Timer, nodes: seq<Timer>, x: Timer)
    requires Has(nodes, x)
    ensures Has([node] + nodes, x)
  {
    var i :| 0 <= i < |nodes| - 1 && nodes[i] == x;
    assert ([node] + nodes)[i + 1] == x;
  }

  /** The live timers of a list: all but the stand-in head and the sentinel. */
  ghost function Strip(q: Queue, deleted: Timer): Queue
    requires |q.nodes| == |q.times| >= 2
  {
    var n := |q.nodes| - 1;
    var lo := if q.nodes[0] == deleted then 1 else 0;
    Queue(q.nodes[lo..n], q.times[lo..n])
  }

  lemma StripIs(q: Queue, deleted: Timer, lo: nat)
    requires |q.nodes| == |q.times| >= 2 && lo == if q.nodes[0] == deleted then 1 else 0
    ensures Strip(q, deleted) == Queue(q.nodes[lo..|q.nodes| - 1], q.times[lo..|q.times| - 1])
  {
  }

  lemma InsertIs(q: Queue, node: Timer, t: int, k: nat)
    requires |q.nodes| == |q.times| && k == Rank(q.times, t)
    ensures Insert(q, node, t) == Queue(InsertAt(q.nodes, k, node), InsertAt(q.times, k, t))
  {
  }

  /** Inserting into the list inserts at the corresponding place among the live timers. */
  lemma StripInsert(q: Queue, deleted: Timer, node: Timer, t: int)
    requires |q.nodes| == |q.times| >= 2 && Sorted(q.times)
    requires 0 < Rank(q.times, t) < |q.nodes|
    ensures Strip(Insert(q, node, t), deleted) == Insert(Strip(q, deleted), node, t)
  {
    hide *;
    var k := Rank(q.times, t);
    var lo := if q.nodes[0] == deleted then 1 else 0;
    InsertIs(q, node, t, k);
    FirstStays(q.nodes, k, node);
    FirstStays(q.times, k, t);
    StripIs(Insert(q, node, t), deleted, lo);
    StripIs(q, deleted, lo);
    SliceRank(q.times, t, lo);
    SliceInsert(q.nodes, lo, k, node);
    SliceInsert(q.times, lo, k, t);
    InsertIs(Strip(q, deleted), node, t, k - lo);
  }

  lemma FirstStays<T>(s: seq<T>, k: nat, x: T)
    requires 0 < k <= |s|
    ensures |InsertAt(s, k, x)| == |s| + 1 && InsertAt(s, k, x)[0] == s[0]
  {
  }

  lemma SliceRank(times: seq<int>, t: int, lo: nat)
    requires Sorted(times) && lo <= Rank(times, t) < |times|
    ensures Rank(times[lo..|times| - 1], t) == Rank(times, t) - lo
  {
    hide Sorted, Rank;
    var k, slice := Rank(times, t), times[lo..|times| - 1];
    SortedSlice(times, lo);
    assert k > lo ==> slice[k - lo - 1] == times[k - 1];
    assert k - lo < |slice| ==> slice[k - lo] == times[k];
    RankUnique(slice, t, k - lo);
  }

  lemma SortedSlice(times: seq<int>, lo: nat)
    requires Sorted(times) && lo < |times|
    ensures Sorted(times[lo..|times| - 1])
  {
  }

  lemma SliceInsert<T>(s: seq<T>, lo: nat, k: nat, x: T)
    requires lo <= k < |s|
    ensures |InsertAt(s, k, x)| == |s| + 1
    ensures InsertAt(s, k, x)[lo..|s|] == InsertAt(s[lo..|s| - 1], k - lo, x)
  {
    var slice := s[lo..|s| - 1];
    assert slice[..k - lo] == s[lo..k] && slice[k - lo..] == s[k..|s| - 1];
    assert InsertAt(s, k, x)[lo..|s|] == s[lo..k] + [x] + s[k..|s| - 1];
  }

  lemma BaseQueue(a: Timer, b: Timer)
    requires a != b
    ensures InOrder(Queue([a, b], [0, HALF]), 0) && Holds(Queue([a, b], [0, HALF]), a, 0)
  {
    assert Queue([a, b], [0, HALF]).nodes[0] == a;
  }

  // ----- the scheduler --------------------------------------------------------------

  /** What a timer's callback returns: SF_DONE, or SF_RESCHEDULE with a new time. */
  datatype Outcome = Done | Reschedule(time: int)

  class Scheduler {
    const periodic: Timer
    const sentinel: Timer
    const deleted: Timer
    const periodTicks: nat
    var timerList: Timer
    var lastInsert: Timer
    ghost var q: Queue         // the list
    ghost var p: int           // time of the periodic timer

    ghost predicate Shaped()
      reads this
    {
      var n := |q.nodes|;
      && periodic != sentinel && periodic != deleted && sentinel != deleted
      && |q.times| == n && n >= 2
      && q.nodes[0] == timerList && q.nodes[n - 1] == sentinel
      && OnlyFirst(q.nodes, deleted)
      && Has(q.nodes, lastInsert) && lastInsert != deleted
      && Holds(q, periodic, p)
    }

    ghost predicate Valid()
      reads this, q.nodes
    {
      Shaped() && InOrder(q, p) && Linked(q.nodes) && Stamped(q)
    }

    /** The live timers with their times, in the order in which they will be dispatched. */
    ghost function Live(): Queue
      requires Shaped()
      reads this
    {
      Strip(q, deleted)
    }

    constructor (periodTicks: nat)
      ensures Valid() && fresh(q.nodes) && fresh(deleted) && this.periodTicks == periodTicks
      ensures q == Queue([periodic, sentinel], [0, HALF]) && Live() == Queue([periodic], [0])
    {
      var a, b, d := new Timer, new Timer, new Timer;
      a.next, a.waketime := b, 0;
      b.next, b.waketime := null, HALF;
      periodic, sentinel, deleted := a, b, d;
      this.periodTicks := periodTicks;
      timerList, lastInsert := a, a;
      q, p := Queue([a, b], [0, HALF]), 0;
      new;
      hide *;
      Initial();
    }

    lemma Initial()
      requires periodic != sentinel && periodic != deleted && sentinel != deleted
      requires timerList == lastInsert == periodic && q == Queue([periodic, sentinel], [0, HALF]) && p == 0
      requires periodic.next == sentinel && sentinel.next == null
      requires periodic.waketime == 0 && sentinel.waketime == HALF
      ensures Valid() && Live() == Queue([periodic], [0])
    {
      BaseQueue(periodic, sentinel);
      assert q.nodes[1..] == [sentinel];
      assert q.nodes[..1] == [periodic];
      hide InOrder, Holds;
    }

    lemma LiveIs()
      requires Shaped()
      ensures |q.nodes| == |q.times| >= 2 && Live() == Strip(q, deleted)
    {
    }

    lemma Sizes()
      requires Valid()
      ensures Shaped() && |q.nodes| == |q.times| >= 2 && q.nodes[0] == timerList && q.nodes[|q.nodes| - 1] == sentinel
      ensures periodic != sentinel && periodic != deleted && sentinel != deleted && lastInsert != deleted
      ensures Sorted(q.times) && InOrder(q, p) && Holds(q, periodic, p)
    {
    }

    /** The list without the stand-in head. */
    ghost function Rest(): Queue
      requires |q.nodes| == |q.times| > 0
      reads this
    {
      if timerList == deleted then Tail(q) else q
    }

    lemma RestFacts()
      requires Valid()
      ensures var r := Rest();
              && InOrder(r, p) && Linked(r.nodes) && Stamped(r) && Holds(r, periodic, p)
              && q.times[0] <= r.times[0]
              && (if timerList == deleted then deleted.next else timerList) == r.nodes[0]
    {
      if timerList == deleted {
        TailInOrder(q, p);
        TailHolds(q, periodic, p);
        LinkedTail(q.nodes);
        StampedTail(q);
      }
    }

    lemma RestShape()
      requires Shaped()
      ensures var r := Rest();
              && |r.nodes| == |r.times| >= 2 && r.nodes[|r.nodes| - 1] == sentinel && deleted !in r.nodes
              && Has(r.nodes, lastInsert)
              && Live() == Queue(r.nodes[..|r.nodes| - 1], r.times[..|r.nodes| - 1])
    {
      if timerList == deleted {
        TailHas(q.nodes, lastInsert);
      }
    }

    lemma NearPeriodic(t: int)
      requires InOrder(q, p) && Holds(q, periodic, p) && Fits(q, t)
      ensures Near(t, p)
    {
      var n := |q.nodes|;
      var i :| 0 <= i < n - 1 && q.nodes[i] == periodic && q.times[i] == p;
      assert i > 0 ==> q.times[0] <= q.times[i];
      assert i < n - 2 ==> q.times[i] <= q.times[n - 2];
    }

    /** Puts `add` and the stand-in, both at time `t`, in front of the list `r`. */
    method LinkFront(add: Timer, first: Timer, ghost t: int, ghost r: Queue)
      requires Extensible(add, t, r) && first == r.nodes[0] && add.waketime == Wrap(t)
      modifies this`timerList, add`next, deleted
      ensures Extensible(add, t, r) && timerList == deleted
      ensures add.next == first && deleted.next == add && deleted.waketime == Wrap(t)
    {
      hide InOrder, Holds, Has, Fits;
      add.next := first;
      deleted.waketime := add.waketime;
      deleted.next := add;
      timerList := deleted;
    }

    /** The timer `add` becomes the first live one, behind the stand-in. */
    method AddFront(add: Timer, ghost t: int)
      requires Valid() && add !in q.nodes && add != deleted && add.waketime == Wrap(t)
      requires Fits(q, t) && t < q.times[0]
      modifies this`timerList, this`q, add`next, deleted
      ensures Valid() && Live() == Insert(old(Live()), add, t) && Starts(q, t)
    {
      hide *;
      Sizes();
      FrontReady(add, t);
      ghost var r := Rest();
      if timerList == deleted {
        LinkFront(add, deleted.next, t, r);
      } else {
        LinkFront(add, timerList, t, r);
      }
      q := Cons(deleted, t, Cons(add, t, r));
      ConsStarts(deleted, t, Cons(add, t, r));
      FrontValid(add, t, r);
    }

    /** What AddFront needs to know about the list it extends. */
    ghost predicate Extensible(add: Timer, t: int, r: Queue)
      reads this`p, this`lastInsert, r.nodes
    {
      && InOrder(r, p) && Linked(r.nodes) && Stamped(r) && Holds(r, periodic, p)
      && Has(r.nodes, lastInsert) && |r.nodes| >= 2 && r.nodes[|r.nodes| - 1] == sentinel
      && add !in r.nodes && deleted !in r.nodes && add != deleted && Fits(r, t) && t <= r.times[0]
    }

    lemma FrontReady(add: Timer, t: int)
      requires Valid() && add !in q.nodes && add != deleted && Fits(q, t) && t < q.times[0]
      ensures Extensible(add, t, Rest())
      ensures (if timerList == deleted then deleted.next else timerList) == Rest().nodes[0]
      ensures Shaped() && Insert(Live(), add, t) ==
              Cons(add, t, Queue(Rest().nodes[..|Rest().nodes| - 1], Rest().times[..|Rest().nodes| - 1]))
    {
      RestFacts();
      RestShape();
      RestFits(t);
      InsertFront(Live(), add, t);
    }

    lemma RestFits(t: int)
      requires Valid() && Fits(q, t) && t < q.times[0]
      ensures Fits(Rest(), t) && forall x: Timer :: x !in q.nodes ==> x !in Rest().nodes
    {
      if timerList == deleted {
        TailInOrder(q, p);
      }
    }

    lemma FrontFacts(add: Timer, t: int, r: Queue)
      requires Extensible(add, t, r)
      requires add.next == r.nodes[0] && deleted.next == add && add.waketime == deleted.waketime == Wrap(t)
      ensures var r' := Cons(deleted, t, Cons(add, t, r));
              && InOrder(r', p) && Linked(r'.nodes) && Stamped(r') && Holds(r', periodic, p)
              && Has(r'.nodes, lastInsert) && OnlyFirst(r'.nodes, deleted)
    {
      hide InOrder, Linked, Stamped, Holds, Has, Sorted, Distinct, Fits, Wrap;
      var r1 := Cons(add, t, r);
      ConsInOrder(add, t, r, p);
      LinkedCons(add, r.nodes);
      StampedCons(add, t, r);
      ConsHolds(add, t, r, periodic, p);
      ConsHas(add, r.nodes, lastInsert);
      ConsFits(add, t, r);
      ConsInOrder(deleted, t, r1, p);
      LinkedCons(deleted, r1.nodes);
      StampedCons(deleted, t, r1);
      ConsHolds(deleted, t, r1, periodic, p);
      ConsHas(deleted, r1.nodes, lastInsert);
    }

    lemma FrontSizes(add: Timer, t: int, r: Queue)
      requires Extensible(add, t, r)
      ensures |r.nodes| == |r.times| >= 1 && r.nodes[|r.nodes| - 1] == sentinel
    {
    }

    lemma FrontValid(add: Timer, t: int, r: Queue)
      requires Extensible(add, t, r)
      requires add.next == r.nodes[0] && deleted.next == add && add.waketime == deleted.waketime == Wrap(t)
      requires q == Cons(deleted, t, Cons(add, t, r)) && timerList == deleted
      requires periodic != sentinel && periodic != deleted && sentinel != deleted && lastInsert != deleted
      ensures Valid()
      ensures Live() == Cons(add, t, Queue(r.nodes[..|r.nodes| - 1], r.times[..|r.nodes| - 1]))
    {
      hide InOrder, Linked, Stamped, Holds, Has, Sorted, Distinct, Fits, Wrap;
      FrontFacts(add, t, r);
      FrontSizes(add, t, r);
      var n := |r.nodes|;
      assert q.nodes[1..n + 1] == [add] + r.nodes[..n - 1];
      assert q.times[1..n + 1] == [t] + r.times[..n - 1];
    }

    /** The timer `add` takes its place behind the head. */
    method AddBehind(add: Timer, ghost t: int)
      requires Valid() && add !in q.nodes && add != deleted && add.waketime == Wrap(t)
      requires Scannable(q, periodic, p, t) && q.times[0] <= t
      modifies this`q, add`next, q.nodes`next
      ensures Valid() && Live() == Insert(old(Live()), add, t) && Starts(q, old(q.times[0]))
    {
      hide *;
      Sizes();
      BehindReady();
      LiveIs();
      Place(timerList, add, t, 0);
      InsertIs(old(q), add, t, Rank(old(q).times, t));
      FirstStays(old(q).times, Rank(old(q).times, t), t);
      StartsAgain(old(q), q);
      StripInsert(old(q), deleted, add, t);
      PlacedShape(old(q), add, t);
      Assemble(old(q), add, t);
    }

    /**
     `sched_add_timer` for a timer at time `t`. It fails, as "Timer too close", only
     if the timer would be the first and is already due.
     */
    method AddTimer(add: Timer, ghost t: int, now: uint32, isShutdown: bool) returns (ok: bool)
      requires Valid() && add !in q.nodes && add != deleted && add.waketime == Wrap(t) && Fits(q, t)
      modifies this`timerList, this`q, add`next, deleted, q.nodes`next
      ensures Valid()
      ensures ok <==> !(t < old(q.times[0]) && IsBefore(add.waketime, now) && !isShutdown)
      ensures !ok ==> q == old(q)
      ensures ok ==> Live() == Insert(old(Live()), add, t)
      ensures ok ==> Starts(q, if t < old(q.times[0]) then t else old(q.times[0]))
    {
      hide *;
      Sizes();
      NearPeriodic(t);
      HeadTest(t);
      var waketime := add.waketime;
      var tl := timerList;
      if IsBefore(waketime, tl.waketime) {
        if IsBefore(waketime, now) && !isShutdown {
          return false;
        }
        AddFront(add, t);
      } else {
        AddBehind(add, t);
      }
      ok := true;
    }

    /** Inserts `node` at time `t` into the list, scanning from behind `pos`. */
    method Place(pos: Timer, node: Timer, ghost t: int, ghost s: int)
      requires Scannable(q, periodic, p, t) && node !in q.nodes && node.waketime == Wrap(t)
      requires q.times[0] <= t && -1 <= s < |q.nodes| - 1
      requires if s == -1 then pos.next == q.nodes[0] else pos == q.nodes[s] && q.times[s] <= t
      modifies this`q, node`next, q.nodes`next
      ensures q == Insert(old(q), node, t) && 0 < Rank(old(q).times, t) < |old(q).nodes|
      ensures InOrder(q, p) && Linked(q.nodes) && Stamped(q)
    {
      InsertInOrder(q, node, t, p);
      hide InOrder, Linked, Stamped, Fits, Holds, Insert, Rank;
      InsertTimer(pos, node, node.waketime, t, q, s, periodic, p);
      q := Insert(q, node, t);
    }

    lemma PlacedShape(before: Queue, node: Timer, t: int)
      requires |before.nodes| == |before.times| >= 2 && 0 < Rank(before.times, t) < |before.nodes|
      requires q == Insert(before, node, t) && node != deleted
      requires periodic != sentinel && periodic != deleted && sentinel != deleted
      requires before.nodes[0] == timerList && before.nodes[|before.nodes| - 1] == sentinel
      requires OnlyFirst(before.nodes, deleted)
      requires lastInsert != deleted && (lastInsert == node || Has(before.nodes, lastInsert))
      requires Holds(before, periodic, p) || (node == periodic && t == p)
      ensures Shaped()
    {
      var n, k := |before.nodes|, Rank(before.times, t);
      if Holds(before, periodic, p) {
        InsertHolds(before, node, t, periodic, p);
      } else {
        assert q.nodes[k] == node && q.times[k] == t;
      }
      InsertHas(before.nodes, k, node, lastInsert);
      InsertOnlyFirst(before.nodes, k, node, deleted);
    }

    lemma BehindReady()
      requires Valid()
      ensures OnlyFirst(q.nodes, deleted) && Has(q.nodes, lastInsert)
    {
    }

    lemma Assemble(before: Queue, node: Timer, t: int)
      requires Shaped() && InOrder(q, p) && Linked(q.nodes) && Stamped(q)
      requires |before.nodes| == |before.times| >= 2
      requires q == Insert(before, node, t)
      requires Strip(Insert(before, node, t), deleted) == Insert(Strip(before, deleted), node, t)
      ensures Valid() && Live() == Insert(Strip(before, deleted), node, t)
    {
    }

    lemma HeadTest(t: int)
      requires Valid() && Fits(q, t) && Near(t, p)
      ensures Scannable(q, periodic, p, t)
      ensures IsBefore(Wrap(t), timerList.waketime) <==> t < q.times[0]
    {
      ScanTest(q, periodic, p, t, 0);
    }

    // ----- deleting ----------------------------------------------------------------------

    /** `sched_del_timer`: takes a timer out of the list, if it is there. */
    method DelTimer(del: Timer)
      requires Valid() && del != periodic && del != sentinel && del != deleted
      modifies this`timerList, this`lastInsert, this`q, deleted, q.nodes`next
      ensures Valid() && Live() == Remove(old(Live()), del) && old(q.times) != [] && Starts(q, old(q.times[0]))
      ensures old(timerList) != del ==> timerList == old(timerList)
    {
      hide *;
      Sizes();
      if timerList == del {
        DelHead();
      } else {
        DelBehind(del);
      }
    }

    method DelHead()
      requires Valid() && timerList != periodic && timerList != deleted
      modifies this`timerList, this`lastInsert, this`q, deleted
      ensures Valid() && Live() == Remove(old(Live()), old(timerList))
      ensures old(q.times) != [] && Starts(q, old(q.times[0]))
    {
      hide *;
      Sizes();
      DelHeadReady();
      var del := timerList;
      ghost var r, t := Tail(q), q.times[0];
      StandIn(del, r);
      if lastInsert == del {
        lastInsert := periodic;
      }
      q := Cons(deleted, t, r);
      ConsStarts(deleted, t, r);
      DelHeadDone(old(q), del);
    }

    /** The stand-in takes the place of `del` in front of the list `r`. */
    method StandIn(del: Timer, ghost r: Queue)
      requires Linked(r.nodes) && Stamped(r) && deleted !in r.nodes && del != deleted
      modifies this`timerList, deleted
      ensures Linked(r.nodes) && Stamped(r) && timerList == deleted
      ensures deleted.next == del.next && deleted.waketime == del.waketime
    {
      deleted.waketime := del.waketime;
      deleted.next := del.next;
      timerList := deleted;
    }

    lemma DelHeadReady()
      requires Valid() && timerList != periodic && timerList != deleted
      ensures deleted !in q.nodes && deleted !in Tail(q).nodes && |q.nodes| >= 3 && timerList.next == q.nodes[1]
      ensures timerList.waketime == Wrap(q.times[0])
      ensures Linked(Tail(q).nodes) && Stamped(Tail(q)) && Holds(Tail(q), periodic, p) && InOrder(Tail(q), p)
      ensures Fits(Tail(q), q.times[0]) && q.times[0] <= q.times[1]
      ensures Has(Tail(q).nodes, if lastInsert == timerList then periodic else lastInsert)
      ensures OnlyFirst(q.nodes, deleted) && Live() == Strip(q, deleted)
    {
      TailInOrder(q, p);
      TailHolds(q, periodic, p);
      LinkedTail(q.nodes);
      StampedTail(q);
      HoldsHas(Tail(q), periodic, p);
      if lastInsert != timerList {
        TailHas(q.nodes, lastInsert);
      }
    }

    lemma DelHeadDone(before: Queue, del: Timer)
      requires |before.nodes| == |before.times| >= 3 && before.nodes[0] == del
      requires periodic != sentinel && periodic != deleted && sentinel != deleted && lastInsert != deleted
      requires deleted !in before.nodes && deleted.next == before.nodes[1] && deleted.waketime == Wrap(before.times[0])
      requires before.nodes[|before.nodes| - 1] == sentinel
      requires Linked(Tail(before).nodes) && Stamped(Tail(before)) && Holds(Tail(before), periodic, p)
      requires InOrder(Tail(before), p) && Fits(Tail(before), before.times[0]) && before.times[0] <= before.times[1]
      requires Has(Tail(before).nodes, lastInsert)
      requires q == Cons(deleted, before.times[0], Tail(before)) && timerList == deleted
      ensures Valid() && Live() == Remove(Strip(before, deleted), del)
    {
      hide InOrder, Linked, Stamped, Holds, Has, Sorted, Distinct, Fits, Wrap, Strip, Remove;
      var r, t := Tail(before), before.times[0];
      ConsInOrder(deleted, t, r, p);
      LinkedCons(deleted, r.nodes);
      StampedCons(deleted, t, r);
      ConsHolds(deleted, t, r, periodic, p);
      ConsHas(deleted, r.nodes, lastInsert);
      StripHead(before, deleted);
    }

    /** Finds the timer behind the head and unlinks it. */
    method DelBehind(del: Timer)
      requires Valid() && timerList != del && del != periodic && del != sentinel && del != deleted
      modifies this`lastInsert, this`q, q.nodes`next
      ensures Valid() && Live() == Remove(old(Live()), del) && old(q.times) != [] && Starts(q, old(q.times[0]))
    {
      hide *;
      Sizes();
      LiveIs();
      ghost var k := Unlink(del);
      UnlinkedStarts(old(q), q, k);
      if lastInsert == del {
        lastInsert := periodic;
      }
      UnlinkDone(old(q), old(lastInsert), del, k);
    }

    /** The loop of `sched_del_timer`; `k` is where the timer was, or the length of the list. */
    method Unlink(del: Timer) returns (ghost k: nat)
      requires Valid() && timerList != del && del != sentinel
      modifies this`q, q.nodes`next
      ensures k == IndexOf(old(q).nodes, del) && k != |old(q).nodes| - 1 && k > 0
      ensures q == if k < |old(q).nodes| then Queue(RemoveAt(old(q).nodes, k), RemoveAt(old(q).times, k)) else old(q)
      ensures InOrder(old(q), p) && Linked(q.nodes) && Stamped(q) && |q.nodes| >= 2
      ensures OnlyFirst(old(q).nodes, deleted) && Holds(old(q), periodic, p) && Has(old(q).nodes, old(lastInsert))
    {
      hide Rank, IndexOf, Holds, Has, IsBefore;
      ghost var n := |q.nodes|;
      var pos := timerList;
      ghost var i := 0;
      while pos.next != null && pos.next != del
        modifies {}
        invariant 0 <= i < n && pos == q.nodes[i]
        invariant forall j :: 0 <= j <= i ==> q.nodes[j] != del
        decreases n - i
      {
        pos := pos.next;
        i := i + 1;
      }
      k := i + 1;
      IndexFound(q.nodes, del, k);
      if pos.next == del {
        UnlinkAt(pos, del, k);
      }
    }

    method UnlinkAt(pos: Timer, del: Timer, ghost k: nat)
      requires Linked(q.nodes) && Distinct(q.nodes) && Stamped(q)
      requires 0 < k < |q.nodes| - 1 && pos == q.nodes[k - 1] && del == q.nodes[k]
      modifies this`q, pos`next
      ensures q == Queue(RemoveAt(old(q).nodes, k), RemoveAt(old(q).times, k))
      ensures Linked(q.nodes) && Stamped(q)
    {
      hide Distinct, Wrap;
      LinksApart(q.nodes, k);
      pos.next := del.next;
      LinkedRemove(q.nodes, k);
      StampedRemove(q, k);
      q := Queue(RemoveAt(q.nodes, k), RemoveAt(q.times, k));
    }

    lemma LinksApart(nodes: seq<Timer>, k: nat)
      requires Linked(nodes) && Distinct(nodes) && 0 < k < |nodes| - 1
      ensures forall i :: 0 <= i < |nodes| && i != k - 1 ==> nodes[i] != nodes[k - 1]
      ensures nodes[k].next == nodes[k + 1]
    {
    }

    lemma UnlinkedStarts(before: Queue, after: Queue, k: nat)
      requires |before.nodes| == |before.times| >= 2 && k > 0
      requires after == if k < |before.nodes| then Queue(RemoveAt(before.nodes, k), RemoveAt(before.times, k)) else before
      ensures Starts(after, before.times[0])
    {
    }

    lemma UnlinkDone(before: Queue, hint: Timer, del: Timer, k: nat)
      requires periodic != sentinel && periodic != deleted && sentinel != deleted && hint != deleted
      requires InOrder(before, p) && |before.nodes| >= 2 && before.nodes[0] == timerList
      requires before.nodes[|before.nodes| - 1] == sentinel && del != periodic && del != deleted
      requires OnlyFirst(before.nodes, deleted) && Holds(before, periodic, p) && Has(before.nodes, hint)
      requires k == IndexOf(before.nodes, del) && k != |before.nodes| - 1 && k > 0
      requires q == if k < |before.nodes| then Queue(RemoveAt(before.nodes, k), RemoveAt(before.times, k)) else before
      requires Linked(q.nodes) && Stamped(q) && |q.nodes| >= 2
      requires lastInsert == if hint == del then periodic else hint
      ensures Valid() && Live() == Remove(Strip(before, deleted), del)
    {
      RemoveFacts(before, del, k, periodic, p);
      RemoveHas(before.nodes, k, hint);
      HoldsHas(before, periodic, p);
      RemoveHas(before.nodes, k, periodic);
      StripRemove(before, deleted, del);
      if k < |before.nodes| {
        RemoveOnlyFirst(before.nodes, k, deleted);
      }
    }

    // ----- dispatching --------------------------------------------------------------------

    /**
     The head `t` has run and is now due at time `time`; `r` is the list behind it.
     */
    ghost predicate Popped(t: Timer, time: int, r: Queue)
      reads this`timerList, this`lastInsert, this`p, t, r.nodes
    {
      && periodic != sentinel && periodic != deleted && sentinel != deleted
      && t == timerList && t != deleted && t !in r.nodes && deleted !in r.nodes && r.nodes != []
      && t.next == r.nodes[0] && t.waketime == Wrap(time)
      && Scannable(r, periodic, p, time)
      && r.nodes[|r.nodes| - 1] == sentinel
      && lastInsert != deleted && (lastInsert == t || Has(r.nodes, lastInsert))
      && (Holds(r, periodic, p) || (t == periodic && time == p))
    }

    /** SF_DONE: the head leaves the list. */
    method Finish() returns (nextWaketime: uint32)
      requires Valid() && timerList != periodic
      modifies this`timerList, this`lastInsert, this`q
      ensures Valid() && q == Tail(old(q)) && nextWaketime == timerList.waketime && timerList != deleted
    {
      hide *;
      Sizes();
      FinishReady();
      var t := timerList;
      nextWaketime := t.next.waketime;
      timerList := t.next;
      if lastInsert == t {
        lastInsert := t.next;
      }
      q := Tail(q);
      FinishDone(old(q));
    }

    lemma FinishReady()
      requires Valid() && timerList != periodic
      ensures |q.nodes| >= 3 && timerList.next == q.nodes[1] && q.nodes[1] != deleted && q.nodes[0] !in q.nodes[1..]
      ensures Linked(Tail(q).nodes) && Stamped(Tail(q)) && Holds(Tail(q), periodic, p) && InOrder(Tail(q), p)
      ensures OnlyFirst(Tail(q).nodes, deleted)
      ensures Has(Tail(q).nodes, if lastInsert == timerList then q.nodes[1] else lastInsert)
    {
      TailInOrder(q, p);
      TailHolds(q, periodic, p);
      LinkedTail(q.nodes);
      StampedTail(q);
      assert Tail(q).nodes[0] == q.nodes[1];
      if lastInsert != timerList {
        TailHas(q.nodes, lastInsert);
      }
    }

    lemma FinishDone(before: Queue)
      requires |before.nodes| == |before.times| >= 3 && q == Tail(before)
      requires periodic != sentinel && periodic != deleted && sentinel != deleted && lastInsert != deleted
      requires Linked(q.nodes) && Stamped(q) && Holds(q, periodic, p) && InOrder(q, p)
      requires OnlyFirst(q.nodes, deleted) && Has(q.nodes, lastInsert)
      requires timerList == before.nodes[1] && before.nodes[|before.nodes| - 1] == sentinel
      ensures Valid()
    {
    }

    /** SF_RESCHEDULE: the head moves to its new place, found from the insertion hint. */
    method Requeue(ghost time: int, ghost r: Queue) returns (nextWaketime: uint32)
      requires Popped(timerList, time, r)
      modifies this`timerList, this`lastInsert, this`q, timerList`next, r.nodes`next
      ensures Valid() && q == Insert(r, old(timerList), time) && nextWaketime == timerList.waketime
      ensures timerList != deleted
    {
      hide *;
      PoppedTest(time, r);
      PoppedBody(time, r);
      var t := timerList;
      var updatedWaketime := t.waketime;
      nextWaketime := updatedWaketime;
      if !IsBefore(updatedWaketime, t.next.waketime) {
        nextWaketime := t.next.waketime;
        var pos := lastInsert;
        ghost var s := HintIndex(time, r);
        if IsBefore(updatedWaketime, pos.waketime) {
          pos := t.next;
          s := 0;
        }
        timerList := t.next;
        q := r;
        Place(pos, t, time, s);
        lastInsert := t;
        PlacedShape(r, t, time);
        RequeueDone(r, t, time);
      } else {
        q := Cons(t, time, r);
        StayDone(time, r);
      }
    }

    lemma PoppedTest(time: int, r: Queue)
      requires Popped(timerList, time, r)
      ensures timerList.next != null && timerList.next == r.nodes[0] && timerList.waketime == Wrap(time)
      ensures |r.nodes| == |r.times| > 0 && timerList !in r.nodes && Scannable(r, periodic, p, time)
      ensures IsBefore(timerList.waketime, timerList.next.waketime) <==> time < r.times[0]
      ensures !(time < r.times[0]) ==> |r.nodes| >= 2
      ensures periodic != sentinel && periodic != deleted && sentinel != deleted && timerList != deleted
      ensures r.nodes[|r.nodes| - 1] == sentinel && OnlyFirst(r.nodes, deleted)
      ensures Holds(r, periodic, p) || (timerList == periodic && time == p)
    {
      ScanTest(r, periodic, p, time, 0);
    }

    /** Where the hint is in the list behind the head; -1 if it is the head itself. */
    lemma HintIndex(time: int, r: Queue) returns (s: int)
      requires Popped(timerList, time, r)
      ensures -1 <= s < |r.nodes| - 1 && |r.nodes| == |r.times|
      ensures s == -1 ==> lastInsert == timerList && !IsBefore(timerList.waketime, lastInsert.waketime)
      ensures s >= 0 ==> lastInsert == r.nodes[s]
      ensures s >= 0 ==> (IsBefore(timerList.waketime, lastInsert.waketime) <==> time < r.times[s])
    {
      if lastInsert == timerList {
        s := -1;
        ComparesTrue(time, time);
      } else {
        s :| 0 <= s < |r.nodes| - 1 && r.nodes[s] == lastInsert;
        var n := |r.nodes|;
        assert s > 0 ==> r.times[0] <= r.times[s];
        assert s < n - 2 ==> r.times[s] <= r.times[n - 2];
        ComparesTrue(time, r.times[s]);
      }
    }

    lemma RequeueDone(r: Queue, t: Timer, time: int)
      requires Shaped() && InOrder(q, p) && Linked(q.nodes) && Stamped(q)
      ensures Valid()
    {
    }

    lemma StayDone(time: int, r: Queue)
      requires Popped(timerList, time, r) && q == Cons(timerList, time, r) && time < r.times[0]
      ensures Valid() && q == Insert(r, timerList, time)
    {
      hide InOrder, Linked, Stamped, Holds, Has, Sorted, Distinct, Fits, Wrap;
      var t := timerList;
      PoppedTest(time, r);
      ConsInOrder(t, time, r, p);
      LinkedCons(t, r.nodes);
      StampedCons(t, time, r);
      InsertFront(r, t, time);
      ConsHead(t, time, r);
      if Holds(r, periodic, p) {
        ConsHolds(t, time, r, periodic, p);
      }
      if lastInsert != t {
        ConsHas(t, r.nodes, lastInsert);
      }
    }

    /** The list `r` behind the head `t`. */
    ghost predicate Behind(t: Timer, r: Queue)
      reads this`timerList, this`lastInsert, this`p, t`next, r.nodes
    {
      && periodic != sentinel && periodic != deleted && sentinel != deleted
      && t == timerList && t != deleted && t !in r.nodes && deleted !in r.nodes && r.nodes != []
      && t.next == r.nodes[0] && InOrder(r, p) && Linked(r.nodes) && Stamped(r)
      && r.nodes[|r.nodes| - 1] == sentinel
      && lastInsert != deleted && (lastInsert == t || Has(r.nodes, lastInsert))
      && (Holds(r, periodic, p) || t == periodic)
    }

    lemma HeadBehind()
      requires Valid() && timerList != deleted
      ensures Behind(timerList, Tail(q)) && timerList !in Tail(q).nodes
      ensures |Tail(q).nodes| == |Tail(q).times| >= 1
      ensures timerList == periodic ==> q.times[0] == p && periodic.waketime == Wrap(p)
    {
      TailInOrder(q, p);
      LinkedTail(q.nodes);
      StampedTail(q);
      if timerList != periodic {
        TailHolds(q, periodic, p);
      }
      if lastInsert != timerList {
        TailHas(q.nodes, lastInsert);
      }
    }

    lemma CallbackPopped(time: int, r: Queue)
      requires Behind(timerList, r) && timerList != periodic && timerList.waketime == Wrap(time) && Fits(r, time)
      ensures Popped(timerList, time, r)
    {
      var n := |r.nodes|;
      var i :| 0 <= i < n - 1 && r.nodes[i] == periodic && r.times[i] == p;
      assert i > 0 ==> r.times[0] <= r.times[i];
      assert i < n - 2 ==> r.times[i] <= r.times[n - 2];
    }

    /** A user timer's callback changes its own time. */
    method RunCallback(time: int)
      requires Valid() && timerList != periodic && timerList != deleted
      requires |q.nodes| == |q.times| > 0 && Fits(Tail(q), time)
      modifies timerList`waketime
      ensures Popped(timerList, time, Tail(q))
    {
      hide *;
      HeadBehind();
      timerList.waketime := Wrap(time);
      CallbackPopped(time, Tail(q));
    }

    lemma PeriodicPopped(r: Queue, r': Queue, before: int)
      requires InOrder(r, before) && Linked(r.nodes) && timerList == periodic && before <= p
      requires periodic != sentinel && periodic != deleted && sentinel != deleted
      requires periodic !in r.nodes && deleted !in r.nodes && periodic.next == r.nodes[0]
      requires r.nodes[|r.nodes| - 1] == sentinel
      requires lastInsert != deleted && (lastInsert == periodic || Has(r.nodes, lastInsert))
      requires periodic.waketime == Wrap(p) && sentinel.waketime == Wrap(p + HALF) && Fits(r, p)
      requires forall i :: 0 <= i < |r.nodes| - 1 ==> r.nodes[i].waketime == Wrap(r.times[i])
      requires r' == MoveSentinel(r, p)
      ensures Popped(periodic, p, r')
    {
      var n := |r.nodes|;
      assert forall i, j :: 0 <= i < j < n ==> r'.times[i] <= r'.times[j] by {
        forall i | 0 <= i < n - 1
          ensures r.times[i] <= p + HALF
        {
          assert i < n - 2 ==> r.times[i] <= r.times[n - 2];
        }
      }
    }

    /** `periodic_event`: the periodic timer and the sentinel move on together. */
    method RunPeriodic() returns (ghost r: Queue)
      requires Valid() && timerList == periodic
      requires |q.nodes| == |q.times| > 0 && Fits(Tail(q), p + periodTicks)
      modifies this`p, periodic`waketime, sentinel`waketime
      ensures p == old(p) + periodTicks && Popped(periodic, p, r)
      ensures |q.nodes| > 1 && r == MoveSentinel(Tail(q), p)
    {
      hide Sorted, Holds, Has, OnlyFirst, Fits, InOrder, Wrap, IsBefore, Scannable, Popped;
      Sizes();
      HeadBehind();
      ghost var before, r0 := p, Tail(q);
      BehindDistinct(r0);
      WrapSum(p, periodTicks);
      WrapSum(p + periodTicks, HALF);
      periodic.waketime := Wrap(periodic.waketime + periodTicks);
      sentinel.waketime := Wrap(periodic.waketime + HALF);
      p := p + periodTicks;
      r := MoveSentinel(r0, p);
      PeriodicPopped(r0, r, before);
    }

    lemma BehindDistinct(r: Queue)
      requires Behind(timerList, r)
      ensures forall i :: 0 <= i < |r.nodes| - 1 ==> r.nodes[i] != sentinel
    {
    }

    /** The live timers once the head has run. */
    ghost function Dispatched(outcome: Outcome): Queue
      requires Shaped()
      reads this
    {
      if timerList == deleted then Live()
      else if timerList == periodic then Insert(Tail(Live()), periodic, p + periodTicks)
      else match outcome
        case Done => Tail(Live())
        case Reschedule(time) => Insert(Tail(Live()), timerList, time)
    }

    /** The head's new time, if it has one, is comparable with the other pending ones. */
    ghost predicate Schedulable(outcome: Outcome)
      requires Shaped()
      reads this
    {
      if timerList == deleted then true
      else if timerList == periodic then Fits(Tail(q), p + periodTicks)
      else outcome.Reschedule? ==> Fits(Tail(q), outcome.time)
    }

    method DispatchStandIn() returns (nextWaketime: uint32)
      requires Valid() && timerList == deleted
      modifies this`timerList, this`lastInsert, this`q
      ensures Valid() && Live() == old(Live()) && nextWaketime == timerList.waketime && timerList != deleted
    {
      hide *;
      Sizes();
      LiveIs();
      BehindReady();
      nextWaketime := Finish();
      Sizes();
      LiveIs();
      StripStandIn(old(q), deleted);
    }

    method DispatchPeriodic() returns (nextWaketime: uint32)
      requires Valid() && timerList == periodic
      requires |q.nodes| == |q.times| > 0 && Fits(Tail(q), p + periodTicks)
      modifies this`timerList, this`lastInsert, this`q, this`p, q.nodes
      ensures Valid() && p == old(p) + periodTicks && nextWaketime == timerList.waketime && timerList != deleted
      ensures |old(Live()).nodes| == |old(Live()).times| > 0
      ensures Live() == Insert(Tail(old(Live())), periodic, p)
    {
      hide *;
      Sizes();
      LiveIs();
      HeadQueued();
      BodyTail(q, deleted);
      ghost var r := RunPeriodic();
      BodyMoved(Tail(q), p);
      PoppedBody(p, r);
      nextWaketime := Requeue(p, r);
      Sizes();
      LiveIs();
      StripRequeued(r, deleted, periodic, p);
    }

    method DispatchDone() returns (nextWaketime: uint32)
      requires Valid() && timerList != deleted && timerList != periodic
      modifies this`timerList, this`lastInsert, this`q
      ensures Valid() && nextWaketime == timerList.waketime && timerList != deleted
      ensures |old(Live()).nodes| == |old(Live()).times| > 0 && Live() == Tail(old(Live()))
    {
      hide *;
      Sizes();
      LiveIs();
      BehindReady();
      FinishReady();
      BodyTail(q, deleted);
      nextWaketime := Finish();
      Sizes();
      LiveIs();
      StripFinished(old(q), deleted);
    }

    method DispatchReschedule(time: int) returns (nextWaketime: uint32)
      requires Valid() && timerList != deleted && timerList != periodic
      requires |q.nodes| == |q.times| > 0 && Fits(Tail(q), time)
      modifies this`timerList, this`lastInsert, this`q, q.nodes
      ensures Valid() && nextWaketime == timerList.waketime && timerList != deleted
      ensures |old(Live()).nodes| == |old(Live()).times| > 0
      ensures Live() == Insert(Tail(old(Live())), old(timerList), time)
    {
      hide *;
      Sizes();
      LiveIs();
      HeadQueued();
      BodyTail(q, deleted);
      RunCallback(time);
      PoppedBody(time, Tail(q));
      nextWaketime := Requeue(time, Tail(q));
      Sizes();
      LiveIs();
      StripRequeued(Tail(old(q)), deleted, old(timerList), time);
    }

    lemma HeadQueued()
      requires Shaped()
      ensures timerList in q.nodes && periodic in q.nodes && sentinel in q.nodes
      ensures forall x: Timer :: x in Tail(q).nodes ==> x in q.nodes
    {
    }

    lemma PoppedBody(time: int, r: Queue)
      requires Popped(timerList, time, r)
      ensures |r.nodes| == |r.times| > 0 && Sorted(r.times) && deleted !in r.nodes && timerList != deleted
      ensures deleted != r.nodes[0]
      ensures time < r.times[|r.times| - 1]
    {
    }

    /**
     `sched_timer_dispatch`: runs the earliest timer. `outcome` is what the
     callback of a user timer does; the timers it deletes are deleted before. The
     result is the wake-up time of the timer that is now the earliest.
     */
    method Dispatch(outcome: Outcome) returns (nextWaketime: uint32)
      requires Valid() && Schedulable(outcome)
      modifies this`timerList, this`lastInsert, this`q, this`p, q.nodes
      ensures Valid() && Live() == old(Dispatched(outcome)) && nextWaketime == timerList.waketime && timerList != deleted
      ensures p == old(if timerList == periodic then p + periodTicks else p)
    {
      hide *;
      Sizes();
      DispatchCases(outcome);
      if timerList == deleted {
        nextWaketime := DispatchStandIn();
      } else if timerList == periodic {
        nextWaketime := DispatchPeriodic();
      } else if outcome.Done? {
        nextWaketime := DispatchDone();
      } else {
        nextWaketime := DispatchReschedule(outcome.time);
      }
    }

    lemma DispatchCases(outcome: Outcome)
      requires Shaped() && Schedulable(outcome)
      ensures |q.nodes| == |q.times| >= 2
      ensures timerList == deleted ==> Dispatched(outcome) == Live()
      ensures timerList != deleted ==> |Live().nodes| == |Live().times| > 0
      ensures timerList == periodic ==>
                && timerList != deleted && Fits(Tail(q), p + periodTicks)
                && Dispatched(outcome) == Insert(Tail(Live()), periodic, p + periodTicks)
      ensures timerList != deleted && timerList != periodic && outcome.Done? ==> Dispatched(outcome) == Tail(Live())
      ensures timerList != deleted && timerList != periodic && outcome.Reschedule? ==>
                && Fits(Tail(q), outcome.time)
                && Dispatched(outcome) == Insert(Tail(Live()), timerList, outcome.time)
    {
    }

    /** `sched_timer_reset`: only the periodic timer stays. Works in any state of the list. */
    method Reset()
      requires periodic != sentinel && periodic != deleted && sentinel != deleted
      requires sentinel.next == null && periodic.waketime == Wrap(p) && sentinel.waketime == Wrap(p + HALF)
      modifies this`timerList, this`lastInsert, this`q, deleted, periodic`next
      ensures Valid() && Live() == Queue([periodic], [p]) && Starts(q, p)
    {
      timerList := deleted;
      deleted.waketime := periodic.waketime;
      lastInsert := periodic;
      deleted.next := periodic;
      periodic.next := sentinel;
      q := Queue([deleted, periodic, sentinel], [p, p, p + HALF]);
      assert q.nodes[1] == periodic && q.times[1] == p;
    }

    /** The list is always in the state Reset needs. */
    lemma CanReset()
      requires Valid()
      ensures periodic != sentinel && periodic != deleted && sentinel != deleted
      ensures sentinel.next == null && periodic.waketime == Wrap(p) && sentinel.waketime == Wrap(p + HALF)
    {
    }
  }

  /** A list without its sentinel. */
  ghost function Body(r: Queue): Queue
    requires |r.nodes| == |r.times| > 0
  {
    Queue(r.nodes[..|r.nodes| - 1], r.times[..|r.times| - 1])
  }

  lemma StripStandIn(q: Queue, deleted: Timer)
    requires |q.nodes| == |q.times| >= 3 && q.nodes[0] == deleted && OnlyFirst(q.nodes, deleted)
    ensures Strip(Tail(q), deleted) == Strip(q, deleted)
  {
  }

  lemma StripFinished(q: Queue, deleted: Timer)
    requires |q.nodes| == |q.times| >= 3 && q.nodes[0] != deleted && OnlyFirst(q.nodes, deleted)
    ensures Strip(Tail(q), deleted) == Tail(Strip(q, deleted))
  {
  }

  lemma BodyTail(q: Queue, deleted: Timer)
    requires |q.nodes| == |q.times| >= 2 && q.nodes[0] != deleted
    ensures |Strip(q, deleted).nodes| == |Strip(q, deleted).times| > 0
    ensures Tail(q).nodes == q.nodes[1..] && |Tail(q).nodes| == |Tail(q).times| > 0
    ensures Body(Tail(q)) == Tail(Strip(q, deleted))
  {
  }

  lemma BodyMoved(r: Queue, p: int)
    requires |r.nodes| == |r.times| > 0
    ensures Body(MoveSentinel(r, p)) == Body(r) && MoveSentinel(r, p).nodes == r.nodes
  {
  }

  lemma StripRequeued(r: Queue, deleted: Timer, t: Timer, time: int)
    requires |r.nodes| == |r.times| > 0 && Sorted(r.times) && deleted !in r.nodes && t != deleted
    requires time < r.times[|r.times| - 1]
    ensures |Insert(r, t, time).nodes| == |Insert(r, t, time).times| >= 2
    ensures Strip(Insert(r, t, time), deleted) == Insert(Body(r), t, time)
  {
    if time < r.times[0] {
      InsertFront(r, t, time);
      InsertFront(Body(r), t, time);
      ConsBody(r, deleted, t, time);
    } else {
      StripInsert(r, deleted, t, time);
    }
  }

  lemma ConsBody(r: Queue, deleted: Timer, t: Timer, time: int)
    requires |r.nodes| == |r.times| > 0 && t != deleted
    ensures Strip(Cons(t, time, r), deleted) == Cons(t, time, Body(r))
  {
    var n := |r.nodes|;
    assert Cons(t, time, r).nodes[0..n] == [t] + r.nodes[..n - 1];
    assert Cons(t, time, r).times[0..n] == [time] + r.times[..n - 1];
  }

  /** The list with its sentinel half the range behind time `p`. */
  ghost function MoveSentinel(q: Queue, p: int): Queue
    requires |q.nodes| == |q.times| > 0
  {
    Queue(q.nodes, q.times[|q.times| - 1 := p + HALF])
  }

  /** Replacing the head by the stand-in removes it from the live timers. */
  lemma StripHead(q: Queue, deleted: Timer)
    requires |q.nodes| == |q.times| >= 2 && deleted !in q.nodes
    ensures Strip(Cons(deleted, q.times[0], Tail(q)), deleted) == Remove(Strip(q, deleted), q.nodes[0])
  {
    var n := |q.nodes| - 1;
    assert Strip(q, deleted).nodes[0] == q.nodes[0];
    var s := Cons(deleted, q.times[0], Tail(q));
    assert s.nodes[1..n + 1 - 1] == q.nodes[1..n];
  }

  lemma HoldsHas(q: Queue, x: Timer, t: int)
    requires Holds(q, x, t)
    ensures Has(q.nodes, x)
  {
  }

  // ----- removing from a sequence ----------------------------------------------------------

  ghost function IndexOf(nodes: seq<Timer>, x: Timer): (k: nat)
    ensures k <= |nodes|
    ensures k < |nodes| ==> nodes[k] == x
    ensures forall i :: 0 <= i < k ==> nodes[i] != x
  {
    if nodes == [] || nodes[0] == x then 0 else 1 + IndexOf(nodes[1..], x)
  }

  ghost function RemoveAt<T>(s: seq<T>, k: nat): seq<T>
    requires k < |s|
  {
    s[..k] + s[k + 1..]
  }

  lemma IndexFound(nodes: seq<Timer>, x: Timer, k: nat)
    requires k <= |nodes| && (forall i :: 0 <= i < k ==> nodes[i] != x) && (k < |nodes| ==> nodes[k] == x)
    ensures IndexOf(nodes, x) == k
  {
  }

  /** The queue without timer `x`. */
  ghost function Remove(q: Queue, x: Timer): Queue
    requires |q.nodes| == |q.times|
  {
    var k := IndexOf(q.nodes, x);
    if k == |q.nodes| then q else Queue(RemoveAt(q.nodes, k), RemoveAt(q.times, k))
  }

  lemma InsertFront(q: Queue, node: Timer, t: int)
    requires |q.nodes| == |q.times| && (q.times == [] || t < q.times[0])
    ensures Insert(q, node, t) == Cons(node, t, q)
  {
  }

  lemma StampedTail(q: Queue)
    requires Stamped(q) && q.nodes != []
    ensures Stamped(Tail(q))
  {
  }

  /** A list from which node `k` has been unlinked. */
  lemma LinkedRemove(nodes: seq<Timer>, k: nat)
    requires 0 < k < |nodes| - 1 && nodes[k - 1].next == nodes[k + 1]
    requires forall i {:trigger nodes[i].next} :: 0 <= i < |nodes| - 1 && i != k - 1 ==> nodes[i].next == nodes[i + 1]
    requires nodes[|nodes| - 1].next == null
    ensures Linked(RemoveAt(nodes, k))
  {
    var r := RemoveAt(nodes, k);
    assert forall i :: 0 <= i < |r| ==> r[i] == nodes[if i < k then i else i + 1];
  }

  lemma StampedRemove(q: Queue, k: nat)
    requires Stamped(q) && k < |q.nodes|
    ensures Stamped(Queue(RemoveAt(q.nodes, k), RemoveAt(q.times, k)))
  {
  }

  lemma SortedRemove(times: seq<int>, k: nat)
    requires Sorted(times) && k < |times|
    ensures Sorted(RemoveAt(times, k))
  {
  }

  lemma DistinctRemove(nodes: seq<Timer>, k: nat)
    requires Distinct(nodes) && k < |nodes|
    ensures Distinct(RemoveAt(nodes, k))
  {
  }

  lemma RemoveInOrder(q: Queue, k: nat, p: int)
    requires InOrder(q, p) && 0 < k < |q.nodes| - 1
    ensures InOrder(Queue(RemoveAt(q.nodes, k), RemoveAt(q.times, k)), p)
  {
    var n := |q.nodes|;
    SortedRemove(q.times, k);
    DistinctRemove(q.nodes, k);
    var r := RemoveAt(q.times, k);
    assert r[0] == q.times[0] && r[n - 2] == q.times[n - 1];
    assert r[n - 3] == if k == n - 2 then q.times[n - 3] else q.times[n - 2];
    assert q.times[n - 3] <= q.times[n - 2];
  }

  lemma RemoveHolds(q: Queue, k: nat, periodic: Timer, p: int)
    requires Holds(q, periodic, p) && k < |q.nodes| - 1 && q.nodes[k] != periodic
    ensures Holds(Queue(RemoveAt(q.nodes, k), RemoveAt(q.times, k)), periodic, p)
  {
    var i :| 0 <= i < |q.nodes| - 1 && q.nodes[i] == periodic && q.times[i] == p;
    assert RemoveAt(q.nodes, k)[if i < k then i else i - 1] == periodic;
  }

  lemma RemoveFacts(q: Queue, x: Timer, k: nat, periodic: Timer, p: int)
    requires InOrder(q, p) && Holds(q, periodic, p) && x != periodic
    requires 0 < k <= |q.nodes| && k != |q.nodes| - 1 && k == IndexOf(q.nodes, x)
    ensures var r := if k < |q.nodes| then Queue(RemoveAt(q.nodes, k), RemoveAt(q.times, k)) else q;
            InOrder(r, p) && Holds(r, periodic, p)
  {
    hide InOrder, Holds, RemoveAt;
    if k < |q.nodes| {
      RemoveInOrder(q, k, p);
      RemoveHolds(q, k, periodic, p);
    }
  }

  lemma RemoveHas(nodes: seq<Timer>, k: nat, x: Timer)
    requires Has(nodes, x) && k != |nodes| - 1
    ensures k < |nodes| && nodes[k] != x ==> Has(RemoveAt(nodes, k), x)
  {
    if k < |nodes| && nodes[k] != x {
      var i :| 0 <= i < |nodes| - 1 && nodes[i] == x;
      assert RemoveAt(nodes, k)[if i < k then i else i - 1] == x;
    }
  }

  lemma RemoveOnlyFirst(nodes: seq<Timer>, k: nat, x: Timer)
    requires OnlyFirst(nodes, x) && 0 < k < |nodes|
    ensures OnlyFirst(RemoveAt(nodes, k), x)
  {
  }

  lemma RemoveIs(q: Queue, x: Timer, k: nat)
    requires |q.nodes| == |q.times| && k == IndexOf(q.nodes, x)
    ensures Remove(q, x) ==
            if k < |q.nodes| then Queue(RemoveAt(q.nodes, k), RemoveAt(q.times, k)) else q
    ensures k < |q.nodes| ==> |RemoveAt(q.nodes, k)| == |RemoveAt(q.times, k)| == |q.nodes| - 1
    ensures 0 < k < |q.nodes| ==> |q.nodes| > 1 && RemoveAt(q.nodes, k)[0] == q.nodes[0]
  {
  }

  /** The place of `x` among the live timers. */
  lemma SliceIndex(nodes: seq<Timer>, x: Timer, lo: nat)
    requires lo <= 1 && |nodes| >= 2 && lo <= IndexOf(nodes, x) != |nodes| - 1
    ensures IndexOf(nodes[lo..|nodes| - 1], x) ==
            if IndexOf(nodes, x) < |nodes| then IndexOf(nodes, x) - lo else |nodes| - 1 - lo
  {
    var k, n := IndexOf(nodes, x), |nodes|;
    IndexFound(nodes[lo..n - 1], x, if k < n then k - lo else n - 1 - lo);
  }

  lemma StripRemove(q: Queue, deleted: Timer, x: Timer)
    requires |q.nodes| == |q.times| >= 2 && x != deleted
    requires 0 < IndexOf(q.nodes, x) != |q.nodes| - 1
    ensures |Remove(q, x).nodes| == |Remove(q, x).times| >= 2
    ensures Strip(Remove(q, x), deleted) == Remove(Strip(q, deleted), x)
  {
    hide *;
    var k, n := IndexOf(q.nodes, x), |q.nodes|;
    var lo := if q.nodes[0] == deleted then 1 else 0;
    RemoveIs(q, x, k);
    StripIs(q, deleted, lo);
    SliceIndex(q.nodes, x, lo);
    RemoveIs(Strip(q, deleted), x, IndexOf(Strip(q, deleted).nodes, x));
    if k < n {
      StripIs(Remove(q, x), deleted, lo);
      SliceRemove(q.nodes, lo, k);
      SliceRemove(q.times, lo, k);
    }
  }

  lemma SliceRemove<T>(s: seq<T>, lo: nat, k: nat)
    requires lo <= k < |s| - 1
    ensures |RemoveAt(s, k)| == |s| - 1
    ensures RemoveAt(s, k)[lo..|s| - 2] == RemoveAt(s[lo..|s| - 1], k - lo)
  {
    var slice := s[lo..|s| - 1];
    assert slice[..k - lo] == s[lo..k] && slice[k - lo + 1..] == s[k + 1..|s| - 1];
    assert RemoveAt(s, k)[lo..|s| - 2] == s[lo..k] + s[k + 1..|s| - 1];
  }
}
