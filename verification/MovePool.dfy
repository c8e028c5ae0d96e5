/**
 The shared pool of move nodes of `src/basecmd.c`: a free list and intrusive FIFO
 queues, used by the steppers (`src/stepper.c`) and digital outputs (`src/gpiocmds.c`).
 */
module MovePools {
  class MoveNode {
    var next: MoveNode?
  }

  /** `struct move_queue_head`; `last` is meaningless while the queue is empty. */
  class QueueHead {
    var first: MoveNode?
    var last: MoveNode?
  }

  ghost predicate Distinct(list: seq<MoveNode>) {
    forall a, b :: 0 <= a < b < |list| ==> list[a] != list[b]
  }

  /** `list` is what the links from `head` on lead through. */
  ghost predicate Chain(head: MoveNode?, list: seq<MoveNode>)
    reads list
  {
    && head == (if list == [] then null else list[0])
    && (forall a {:trigger list[a].next} :: 0 <= a < |list| - 1 ==> list[a].next == list[a + 1])
    && (list != [] ==> list[|list| - 1].next == null)
  }

  lemma ChainTail(head: MoveNode, list: seq<MoveNode>)
    requires Chain(head, list) && Distinct(list)
    ensures list != [] && list[0] == head && Chain(head.next, list[1..]) && head !in list[1..]
  {
    if |list| > 1 {
      assert list[0].next == list[1];
    }
  }

  const HAND := -1
  const FREE := 0

  type Lists = seq<seq<MoveNode>>
  type Places = map<MoveNode, int>

  /**
   The pool is partitioned: each node is in hand or in exactly one list, at one place.
   List 0 is the free list; list q + 1 is queue q.
   */
  ghost predicate Partition(pool: set<MoveNode>, lists: Lists, place: Places) {
    && place.Keys == pool
    && (forall i :: 0 <= i < |lists| ==> Distinct(lists[i]))
    && (forall i, a :: 0 <= i < |lists| && 0 <= a < |lists[i]| ==> lists[i][a] in place && place[lists[i][a]] == i)
    && (forall n :: n in place ==> place[n] == HAND || (0 <= place[n] < |lists| && n in lists[place[n]]))
  }

  lemma TakenOut(pool: set<MoveNode>, lists: Lists, place: Places, i: nat)
    requires Partition(pool, lists, place) && i < |lists| && lists[i] != []
    ensures Partition(pool, lists[i := lists[i][1..]], place[lists[i][0] := HAND])
  {
    var first, ls, p := lists[i][0], lists[i := lists[i][1..]], place[lists[i][0] := HAND];
    forall j, a | 0 <= j < |ls| && 0 <= a < |ls[j]|
      ensures ls[j][a] in p && p[ls[j][a]] == j
    {
      if j == i {
        assert ls[i][a] == lists[i][a + 1];
      } else {
        assert ls[j][a] == lists[j][a];
      }
    }
    forall n | n in p && n != first && p[n] == i
      ensures n in ls[i]
    {
      var a :| 0 <= a < |lists[i]| && lists[i][a] == n;
      assert ls[i][a - 1] == n;
    }
  }

  lemma PutIn(pool: set<MoveNode>, lists: Lists, place: Places, i: nat, n: MoveNode, list: seq<MoveNode>)
    requires Partition(pool, lists, place) && i < |lists| && n in place && place[n] == HAND
    requires list == [n] + lists[i] || list == lists[i] + [n]
    ensures Partition(pool, lists[i := list], place[n := i])
  {
    var ls, p, was := lists[i := list], place[n := i], lists[i];
    assert n !in was;
    forall j, a | 0 <= j < |ls| && 0 <= a < |ls[j]|
      ensures ls[j][a] in p && p[ls[j][a]] == j
    {
      if j != i {
        assert ls[j][a] == lists[j][a];
      } else {
        assert list[a] == n || list[a] in was;
      }
    }
    forall m | m in p && p[m] == i
      ensures m in ls[i]
    {
      assert m == n || m in was;
    }
  }

  lemma AllInOne(nodes: seq<MoveNode>, n: nat)
    requires Distinct(nodes)
    ensures Partition(set m | m in nodes, [nodes] + seq(n, _ => []), map m | m in nodes :: FREE)
  {
    var lists: Lists := [nodes] + seq(n, _ => []);
    assert forall i :: 0 < i < |lists| ==> lists[i] == [];
  }

  // ----- conservation ----------------------------------------------------------------------

  ghost function Total(lists: Lists): nat {
    if lists == [] then 0 else Total(lists[..|lists| - 1]) + |lists[|lists| - 1]|
  }

  ghost function Within(place: Places, n: nat): set<MoveNode> {
    set m | m in place && 0 <= place[m] < n
  }

  ghost function InHand(place: Places): set<MoveNode> {
    set m | m in place && place[m] == HAND
  }

  lemma {:induction false} ListSize(list: seq<MoveNode>, s: set<MoveNode>)
    requires Distinct(list) && forall n :: n in s <==> n in list
    ensures |s| == |list|
  {
    if list != [] {
      var front, last := list[..|list| - 1], list[|list| - 1];
      assert list == front + [last];
      ListSize(front, s - {last});
    }
  }

  lemma {:induction false} WithinSize(pool: set<MoveNode>, lists: Lists, place: Places, k: nat)
    requires Partition(pool, lists, place) && k <= |lists|
    ensures |Within(place, k)| == Total(lists[..k])
  {
    if k == 0 {
      assert Within(place, 0) == {};
    } else {
      var here := set m | m in place && place[m] == k - 1;
      assert Within(place, k) == Within(place, k - 1) + here;
      WithinSize(pool, lists, place, k - 1);
      ListSize(lists[k - 1], here);
      assert lists[..k][..k - 1] == lists[..k - 1];
    }
  }

  /** Free, queued and held nodes add up to the pool. */
  lemma Conserved(pool: set<MoveNode>, lists: Lists, place: Places)
    requires Partition(pool, lists, place)
    ensures Total(lists) + |InHand(place)| == |pool|
  {
    WithinSize(pool, lists, place, |lists|);
    assert lists[..|lists|] == lists;
    assert pool == Within(place, |lists|) + InHand(place);
  }

  // ----- the pool in memory ----------------------------------------------------------------

  class MovePool {
    const nodes: seq<MoveNode>            // move_list
    const heads: seq<QueueHead>           // the queues of all users, steppers first
    const steppers: nat                   // how many are steppers; the others are digital outputs
    var freeList: MoveNode?
    ghost var lists: Lists
    ghost var place: Places
    ghost var entered: Lists              // what was ever pushed to each queue, and
    ghost var left: Lists                 // what was popped, since the last shutdown

    ghost function Pool(): set<MoveNode> {
      set n | n in nodes
    }

    ghost predicate Shape() {
      && Distinct(nodes)
      && (forall q, r :: 0 <= q < r < |heads| ==> heads[q] != heads[r])
    }

    /** List `i` in memory is `list`. */
    ghost predicate Threaded(i: nat, list: seq<MoveNode>)
      reads this`freeList, heads, list
    {
      if i == FREE then Chain(freeList, list)
      else
        && i <= |heads| && Chain(heads[i - 1].first, list)
        && (list != [] ==> heads[i - 1].last == list[|list| - 1])
    }

    ghost predicate Known(list: seq<MoveNode>) {
      forall n :: n in list ==> n in Pool()
    }

    /** The lists other than list `i` are in memory as they should be. */
    ghost predicate Rest(i: nat, ls: Lists)
      reads this`freeList, heads, Pool()
    {
      && |ls| == |heads| + 1
      && forall j :: 0 <= j < |ls| && j != i ==> Known(ls[j]) && Threaded(j, ls[j])
    }

    ghost predicate Sound()
      reads this, heads, Pool()
    {
      Shape() && Partition(Pool(), lists, place) && Rest(|lists|, lists)
    }

    /** First in, first out. */
    ghost predicate Fifo()
      reads this`lists, this`entered, this`left
    {
      && |lists| == |heads| + 1 == |entered| + 1 == |left| + 1
      && forall q :: 0 <= q < |heads| ==> entered[q] == left[q] + lists[q + 1]
    }

    ghost predicate Valid()
      reads this, heads, Pool()
    {
      Sound() && Fifo()
    }

    /** Nothing is in hand: the state between two commands or events. */
    ghost predicate Resting()
      reads this`place
    {
      InHand(place) == {}
    }

    lemma TakeApart(i: nat)
      requires Sound() && i < |lists|
      ensures |lists| == |heads| + 1 && Shape() && Partition(Pool(), lists, place) && Rest(i, lists)
      ensures Threaded(i, lists[i]) && Distinct(lists[i]) && Known(lists[i])
    {
    }

    /** List `i` has become `list` in memory: so it does in the partition. */
    ghost method Record(i: nat, list: seq<MoveNode>, p: Places)
      requires Shape() && Rest(i, lists) && i < |lists| && Partition(Pool(), lists[i := list], p) && Threaded(i, list)
      modifies this`lists, this`place
      ensures Sound() && lists == old(lists)[i := list] && place == p
    {
      hide Threaded, Distinct;
      lists, place := lists[i := list], p;
    }

    /** Lists do not share nodes. */
    lemma Apart(i: nat)
      requires Shape() && Partition(Pool(), lists, place) && i < |lists| == |heads| + 1
      ensures forall j, a :: 0 <= j < |lists| && j != i && 0 <= a < |lists[j]| ==> lists[j][a] !in lists[i]
      ensures forall q, r :: 0 <= q < |heads| && 0 <= r < |heads| && q != r ==> heads[q] != heads[r]
      ensures forall n, j, a :: n in place && place[n] == HAND && 0 <= j < |lists| && 0 <= a < |lists[j]| ==>
                lists[j][a] != n
    {
    }

    // ----- basecmd.c ---------------------------------------------------------------------------

    /** `move_alloc`: fails (a shutdown in the source) exactly when no node is free. */
    method Alloc() returns (mf: MoveNode?)
      requires Valid()
      modifies this`freeList, this`lists, this`place
      ensures Valid() && |lists| == |old(lists)| == |heads| + 1
      ensures mf == null <==> old(lists)[FREE] == []
      ensures mf == null ==> lists == old(lists) && place == old(place)
      ensures mf != null ==> mf == old(lists)[FREE][0]
      ensures mf != null ==> lists == old(lists)[FREE := old(lists)[FREE][1..]] && place == old(place)[mf := HAND]
      ensures mf != null ==> mf in place && place[mf] == HAND
    {
      hide Partition, Distinct, Chain, Known;
      TakeApart(FREE);
      mf := freeList;
      ChainHead(mf, lists[FREE]);
      if mf == null {
        return;
      }
      ChainTail(mf, lists[FREE]);
      TakenOut(Pool(), lists, place, FREE);
      freeList := mf.next;
      Record(FREE, lists[FREE][1..], place[mf := HAND]);
    }

    /** `move_free`, of a node in hand. */
    method Free(mf: MoveNode)
      requires Valid() && mf in place && place[mf] == HAND
      modifies this`freeList, this`lists, this`place, mf
      ensures Valid() && |lists| == |old(lists)| == |heads| + 1
      ensures lists == old(lists)[FREE := [mf] + old(lists)[FREE]] && place == old(place)[mf := FREE]
    {
      hide Partition, Distinct, Chain, Known;
      TakeApart(FREE);
      Apart(FREE);
      PutIn(Pool(), lists, place, FREE, mf, [mf] + lists[FREE]);
      ghost var list := lists[FREE];
      NotIn(mf, FREE);
      mf.next := freeList;
      freeList := mf;
      ChainCons(mf, list);
      Record(FREE, [mf] + list, place[mf := FREE]);
    }

    lemma NotIn(n: MoveNode, i: nat)
      requires Partition(Pool(), lists, place) && n in place && place[n] == HAND && i < |lists|
      ensures n !in lists[i] && n in Pool()
    {
    }

    /** `move_queue_push`, of a node in hand; tells whether the queue was empty. */
    method Push(m: MoveNode, q: nat) returns (firstOnQueue: bool)
      requires Valid() && q < |heads| && m in place && place[m] == HAND
      modifies this`lists, this`place, this`entered, heads[q], Pool()
      ensures Valid() && |lists| == |old(lists)| == |heads| + 1 && firstOnQueue == (old(lists)[q + 1] == [])
      ensures lists == old(lists)[q + 1 := old(lists)[q + 1] + [m]] && place == old(place)[m := q + 1]
      ensures |entered| == |old(entered)| == |heads| && entered == old(entered)[q := old(entered)[q] + [m]]
    {
      hide Partition, Distinct, Chain, Known, Threaded;
      TakeApart(q + 1);
      PutIn(Pool(), lists, place, q + 1, m, lists[q + 1] + [m]);
      ghost var list := lists[q + 1];
      firstOnQueue := Append(m, q);
      Record(q + 1, list + [m], place[m := q + 1]);
      entered := entered[q := entered[q] + [m]];
    }

    method Append(m: MoveNode, q: nat) returns (firstOnQueue: bool)
      requires Shape() && Partition(Pool(), lists, place) && Rest(q + 1, lists) && q < |heads|
      requires Threaded(q + 1, lists[q + 1]) && Distinct(lists[q + 1]) && Known(lists[q + 1])
      requires m in place && place[m] == HAND
      modifies heads[q], Pool()
      ensures Rest(q + 1, lists) && Threaded(q + 1, lists[q + 1] + [m]) && firstOnQueue == (lists[q + 1] == [])
    {
      hide Partition, Known, Shape;
      Apart(q + 1);
      NotIn(m, q + 1);
      var mh := heads[q];
      ghost var list := lists[q + 1];
      m.next := null;
      if mh.first != null {
        LastOfList(q + 1);
        mh.last.next := m;
        mh.last := m;
        return false;
      }
      mh.first, mh.last := m, m;
      return true;
    }

    lemma LastOfList(i: nat)
      requires 0 < i < |lists| == |heads| + 1 && lists[i] != [] && Threaded(i, lists[i]) && Known(lists[i])
      ensures heads[i - 1].last == lists[i][|lists[i]| - 1] && heads[i - 1].last in Pool()
    {
    }

    /** `move_queue_pop`, of a queue that is not empty. */
    method Pop(q: nat) returns (mn: MoveNode)
      requires Valid() && q < |heads| && |lists| == |heads| + 1 && lists[q + 1] != []
      modifies this`lists, this`place, this`left, {heads[q]}`first
      ensures Valid() && mn == old(lists)[q + 1][0] && mn in place && place[mn] == HAND
      ensures lists == old(lists)[q + 1 := old(lists)[q + 1][1..]] && place == old(place)[mn := HAND]
      ensures |left| == |old(left)| == |heads| && left == old(left)[q := old(left)[q] + [mn]]
    {
      hide Partition, Distinct, Chain, Known, Threaded;
      TakeApart(q + 1);
      TakenOut(Pool(), lists, place, q + 1);
      ghost var list := lists[q + 1];
      mn := Detach(q);
      Record(q + 1, list[1..], place[mn := HAND]);
      left := left[q := left[q] + [mn]];
      assert list == [mn] + list[1..];
    }

    method Detach(q: nat) returns (mn: MoveNode)
      requires Shape() && Rest(q + 1, lists) && q < |heads| && lists[q + 1] != []
      requires Threaded(q + 1, lists[q + 1]) && Distinct(lists[q + 1])
      modifies {heads[q]}`first
      ensures Rest(q + 1, lists) && Threaded(q + 1, lists[q + 1][1..]) && mn == lists[q + 1][0]
    {
      hide Known, Chain, Distinct;
      var mh := heads[q];
      ChainHead(mh.first, lists[q + 1]);
      ChainTail(mh.first, lists[q + 1]);
      mn := mh.first;
      mh.first := mn.next;
    }

    // ----- users of the pool: stepper.c and gpiocmds.c -------------------------------------------

    lemma BackInPlace(p: Places, m: MoveNode, i: nat)
      requires InHand(p) == {}
      ensures InHand(p[m := HAND][m := i]) == {}
    {
      assert forall n :: n in p ==> n !in InHand(p);
    }

    lemma HeldInPool(m: MoveNode)
      requires Valid() && m in place
      ensures m in Pool()
    {
    }

    lemma HeadOf(q: nat)
      requires Valid() && q < |heads|
      ensures |lists| == |heads| + 1 && (heads[q].first == null <==> lists[q + 1] == [])
    {
    }

    /**
     A move arrives for queue `q` (`queue_step`, `queue_digital_out`); a user that is
     waiting for a reset frees it again. `ok` is false on a pool overflow.
     */
    method Arrive(q: nat, accept: bool) returns (ok: bool)
      requires Valid() && Resting() && q < |heads|
      modifies this, heads[q], Pool()
      ensures Valid() && Resting() && |lists| == |old(lists)| == |heads| + 1
      ensures ok == (old(lists)[FREE] != [])
      ensures ok && accept ==>
                lists == old(lists)[FREE := old(lists)[FREE][1..]][q + 1 := old(lists)[q + 1] + old(lists)[FREE][..1]]
      ensures !(ok && accept) ==> lists == old(lists)
    {
      hide Valid, InHand, Pool;
      var m := Alloc();
      ok := m != null;
      if ok {
        BackInPlace(old(place), m, q + 1);
        BackInPlace(old(place), m, FREE);
        HeldInPool(m);
        ghost var free := old(lists)[FREE];
        assert free[..1] == [m] && [m] + free[1..] == free;
        if accept {
          var _ := Push(m, q);
        } else {
          Free(m);
          assert lists == old(lists)[FREE := free];
        }
      }
    }

    /** The user takes the next move and frees its node (`stepper_load_next`, `digital_load_event`). */
    method Depart(q: nat) returns (mn: MoveNode?)
      requires Valid() && Resting() && q < |heads|
      modifies this`freeList, this`lists, this`place, this`left, {heads[q]}`first, Pool()
      ensures Valid() && Resting() && |lists| == |old(lists)| == |heads| + 1
      ensures mn == null <==> old(lists)[q + 1] == []
      ensures mn == null ==> lists == old(lists)
      ensures mn != null ==> mn == old(lists)[q + 1][0]
      ensures mn != null ==> lists == old(lists)[q + 1 := old(lists)[q + 1][1..]][FREE := [mn] + old(lists)[FREE]]
      ensures heads[q].first == null <==> lists[q + 1] == []
    {
      hide Valid, InHand, Pool;
      HeadOf(q);
      if heads[q].first == null {
        return null;
      }
      mn := Pop(q);
      BackInPlace(old(place), mn, FREE);
      HeldInPool(mn);
      Free(mn);
      HeadOf(q);
    }

    /**
     The loop of `stepper_stop`. In a normal state it returns the whole queue to the pool.
     On a queue that was just cleared it does nothing, whatever state the pool is in.
     */
    method Drain(q: nat)
      requires q < |heads| && (heads[q].first == null || (Valid() && Resting()))
      modifies this`freeList, this`lists, this`place, this`left, {heads[q]}`first, Pool()
      ensures old(heads[q].first) == null ==> unchanged(this, heads[q], Pool())
      ensures old(heads[q].first) != null ==> Valid() && Resting() && |lists| == |old(lists)| == |heads| + 1
      ensures old(heads[q].first) != null ==>
                lists == old(lists)[q + 1 := []][FREE := Returned(old(lists)[q + 1], old(lists)[FREE])]
    {
      hide Valid, InHand;
      ghost var active := heads[q].first != null;
      if active {
        HeadOf(q);
      }
      while heads[q].first != null
        invariant !active ==> unchanged(this, heads[q], Pool())
        invariant active ==> Valid() && Resting() && |lists| == |old(lists)| == |heads| + 1
        invariant active ==> lists == old(lists)[q + 1 := lists[q + 1]][FREE := lists[FREE]]
        invariant active ==>
                    Returned(lists[q + 1], lists[FREE]) == Returned(old(lists)[q + 1], old(lists)[FREE])
        invariant active ==> (heads[q].first == null <==> lists[q + 1] == [])
        decreases if active then |lists[q + 1]| else 0
      {
        var _ := Depart(q);
      }
    }

    // ----- shutdown ------------------------------------------------------------------------------

    /** `move_reset`: threads every node of the pool into the free list, whatever they were part of. */
    method PoolReset()
      requires Distinct(nodes) && (nodes == [] ==> freeList == null)
      modifies this`freeList, Pool()
      ensures Chain(freeList, nodes)
    {
      if |nodes| == 0 {
        return;
      }
      for k := 0 to |nodes| - 1
        modifies Pool()
        invariant forall a {:trigger nodes[a].next} :: 0 <= a < k ==> nodes[a].next == nodes[a + 1]
      {
        nodes[k].next := nodes[k + 1];
      }
      nodes[|nodes| - 1].next := null;
      freeList := nodes[0];
    }

    /** `stepper_shutdown`: each queue is cleared before `stepper_stop` could free its nodes. */
    method StepperHalt()
      requires steppers <= |heads|
      modifies this`freeList, this`lists, this`place, this`left, heads`first, Pool()
      ensures unchanged(this, Pool())
      ensures forall q :: 0 <= q < steppers ==> heads[q].first == null
      ensures forall q :: 0 <= q < |heads| && old(heads[q].first) == null ==> heads[q].first == null
    {
      for q := 0 to steppers
        invariant unchanged(this, Pool())
        invariant forall r :: 0 <= r < q ==> heads[r].first == null
        invariant forall r :: 0 <= r < |heads| && old(heads[r].first) == null ==> heads[r].first == null
      {
        heads[q].first := null;
        Drain(q);
      }
    }

    /** `digital_out_shutdown`. */
    method OutputHalt()
      requires steppers <= |heads|
      modifies heads`first
      ensures forall q :: steppers <= q < |heads| ==> heads[q].first == null
      ensures forall q :: 0 <= q < |heads| && old(heads[q].first) == null ==> heads[q].first == null
    {
      for q := steppers to |heads|
        invariant forall r :: steppers <= r < q ==> heads[r].first == null
        invariant forall r :: 0 <= r < |heads| && old(heads[r].first) == null ==> heads[r].first == null
      {
        heads[q].first := null;
      }
    }

    /**
     A shutdown, from any state and with the handlers in any order: every node is free
     again and every queue is empty.
     */
    method Shutdown(order: seq<Handler>)
      requires Shape() && steppers <= |heads| && (nodes == [] ==> freeList == null)
      requires Pooling in order && Stepping in order && Outputting in order
      modifies this, heads, Pool()
      ensures Valid() && Resting() && lists == [nodes] + seq(|heads|, _ => [])
    {
      for k := 0 to |order|
        invariant nodes == [] ==> freeList == null
        invariant Pooling in order[..k] ==> Chain(freeList, nodes)
        invariant Stepping in order[..k] ==> forall q :: 0 <= q < steppers ==> heads[q].first == null
        invariant Outputting in order[..k] ==> forall q :: steppers <= q < |heads| ==> heads[q].first == null
      {
        match order[k] {
          case Pooling => PoolReset();
          case Stepping => StepperHalt();
          case Outputting => OutputHalt();
        }
        assert order[..k + 1] == order[..k] + [order[k]];
      }
      assert order[..|order|] == order;
      AllFree();
    }

    /** The state after a shutdown is recorded. */
    ghost method AllFree()
      requires Shape() && Chain(freeList, nodes) && forall q :: 0 <= q < |heads| ==> heads[q].first == null
      modifies this`lists, this`place, this`entered, this`left
      ensures Valid() && Resting() && lists == [nodes] + seq(|heads|, _ => [])
    {
      hide Partition;
      AllInOne(nodes, |heads|);
      lists := [nodes] + seq(|heads|, _ => []);
      place := map n | n in nodes :: FREE;
      entered, left := seq(|heads|, _ => []), seq(|heads|, _ => []);
    }

    /** Between operations the free list and the queues hold the whole pool. */
    lemma NothingLost()
      requires Valid() && Resting()
      ensures Total(lists) == |nodes|
    {
      Conserved(Pool(), lists, place);
      ListSize(nodes, Pool());
    }

    lemma NoNodes()
      requires Valid() && nodes == []
      ensures freeList == null
    {
      TakeApart(FREE);
    }

    /** Each operation does to the lists in memory what it does to plain lists. */
    method Perform(op: Op)
      requires Valid() && Resting() && Allowed(op)
      modifies this, heads, Pool()
      ensures Valid() && Resting() && |lists| == |old(lists)| == |heads| + 1
      ensures lists == Next(nodes, old(lists), op)
    {
      hide Valid, Resting, Pool, InHand;
      Counts();
      if nodes == [] {
        NoNodes();
      }
      match op {
        case Queue(q, accept) =>
          var _ := Arrive(q, accept);
        case Load(q) =>
          var _ := Depart(q);
        case Stop(q) =>
          HeadOf(q);
          assert lists == lists[q + 1 := lists[q + 1]][FREE := lists[FREE]];
          Drain(q);
        case Halt(order) =>
          Shutdown(order);
      }
    }

    lemma Counts()
      requires Valid()
      ensures Shape() && |lists| == |heads| + 1
    {
    }

    ghost predicate Allowed(op: Op) {
      && op.Fits(|heads| + 1)
      && (op.Halt? ==> steppers <= |heads| && Pooling in op.order && Stepping in op.order && Outputting in op.order)
    }

    /**
     Over any run the free list and the queues are what the same operations make of plain
     lists: no node is lost, duplicated or freed twice, and every queue is first in, first out.
     */
    method Run(ops: seq<Op>)
      requires Valid() && Resting() && forall k :: 0 <= k < |ops| ==> ops[k].Fits(|heads| + 1) && Allowed(ops[k])
      modifies this, heads, Pool()
      ensures Valid() && Resting() && Total(lists) == |nodes|
      ensures |old(lists)| == |heads| + 1 && lists == Play(nodes, old(lists), ops)
    {
      hide Valid, Resting, Next, Play, Allowed;
      Counts();
      AllAllowed(ops);
      assert ops[..0] == [];
      for k := 0 to |ops|
        invariant Valid() && Resting() && |lists| == |heads| + 1
        invariant lists == Play(nodes, old(lists), ops[..k])
      {
        assert ops[..k + 1][..k] == ops[..k];
        PlayStep(nodes, old(lists), ops[..k + 1]);
        Perform(ops[k]);
      }
      assert ops[..|ops|] == ops;
      NothingLost();
    }

    lemma AllAllowed(ops: seq<Op>)
      requires lists != [] && forall k :: 0 <= k < |ops| ==> Allowed(ops[k])
      ensures forall k :: 0 <= k < |ops| ==> ops[k].Fits(|heads| + 1)
      ensures Play(nodes, lists, []) == lists
    {
    }
  }

  /** The three shutdown handlers that touch the pool or a queue. */
  datatype Handler = Pooling | Stepping | Outputting

  datatype Op = Queue(q: nat, accept: bool) | Load(q: nat) | Stop(q: nat) | Halt(order: seq<Handler>) {
    predicate Fits(n: nat) {
      Halt? || q + 1 < n
    }
  }

  /** A queue given back node by node. */
  ghost function Returned(queue: seq<MoveNode>, free: seq<MoveNode>): seq<MoveNode>
    decreases |queue|
  {
    if queue == [] then free else Returned(queue[1..], [queue[0]] + free)
  }

  /** What an operation does to plain lists; list 0 is the free list. */
  ghost function Next(nodes: seq<MoveNode>, lists: Lists, op: Op): (r: Lists)
    requires lists != [] && op.Fits(|lists|)
    ensures |r| == |lists|
  {
    match op
    case Queue(q, accept) =>
      if !accept || lists[FREE] == [] then lists
      else lists[FREE := lists[FREE][1..]][q + 1 := lists[q + 1] + lists[FREE][..1]]
    case Load(q) =>
      if lists[q + 1] == [] then lists
      else lists[q + 1 := lists[q + 1][1..]][FREE := [lists[q + 1][0]] + lists[FREE]]
    case Stop(q) => lists[q + 1 := []][FREE := Returned(lists[q + 1], lists[FREE])]
    case Halt(_) => [nodes] + seq(|lists| - 1, _ => [])
  }

  ghost function Play(nodes: seq<MoveNode>, lists: Lists, ops: seq<Op>): (r: Lists)
    requires lists != [] && forall k :: 0 <= k < |ops| ==> ops[k].Fits(|lists|)
    ensures |r| == |lists|
  {
    if ops == [] then lists else Next(nodes, Play(nodes, lists, ops[..|ops| - 1]), ops[|ops| - 1])
  }

  lemma PlayStep(nodes: seq<MoveNode>, lists: Lists, ops: seq<Op>)
    requires lists != [] && ops != [] && forall k :: 0 <= k < |ops| ==> ops[k].Fits(|lists|)
    ensures Play(nodes, lists, ops) == Next(nodes, Play(nodes, lists, ops[..|ops| - 1]), ops[|ops| - 1])
  {
  }

  lemma ChainHead(head: MoveNode?, list: seq<MoveNode>)
    requires Chain(head, list)
    ensures head == null <==> list == []
  {
  }

  lemma ChainCons(head: MoveNode, list: seq<MoveNode>)
    requires Chain(head.next, list) && head !in list
    ensures Chain(head, [head] + list)
  {
  }
}
