/**
 The hand-off mutex of `klippy/reactor.py`. Tasks are cooperative: a method here is what
 runs between two pauses, and any interleaving of the methods is possible.
 */
module Mutexes {
  type Task = nat

  datatype Holder = Nobody | Held(task: Task)

  /** What happened to the lock, in order. */
  datatype Mark = Got(task: Task) | Freed

  /** The lock is got only when free and freed only when got. */
  ghost predicate Exclusive(marks: seq<Mark>) {
    forall k {:trigger marks[k]} :: 0 <= k < |marks| ==>
      (marks[k].Got? <==> (k == 0 || marks[k - 1].Freed?))
  }

  ghost function Grants(marks: seq<Mark>): seq<Task> {
    if marks == [] then []
    else
      var last := marks[|marks| - 1];
      Grants(marks[..|marks| - 1]) + if last.Got? then [last.task] else []
  }

  ghost function HolderAfter(marks: seq<Mark>): Holder {
    if marks == [] || marks[|marks| - 1].Freed? then Nobody else Held(marks[|marks| - 1].task)
  }

  lemma Marked(marks: seq<Mark>, mark: Mark)
    requires Exclusive(marks) && (mark.Got? <==> HolderAfter(marks) == Nobody)
    ensures Exclusive(marks + [mark]) && HolderAfter(marks + [mark]) == if mark.Got? then Held(mark.task) else Nobody
    ensures Grants(marks + [mark]) == Grants(marks) + if mark.Got? then [mark.task] else []
  {
    assert (marks + [mark])[..|marks|] == marks;
  }

  lemma FirstMarks(owner: Task)
    ensures Exclusive([]) && Grants([]) == [] && HolderAfter([]) == Nobody
    ensures Exclusive([Got(owner)]) && Grants([Got(owner)]) == [owner] && HolderAfter([Got(owner)]) == Held(owner)
  {
    Marked([], Got(owner));
    assert [] + [Got(owner)] == [Got(owner)];
  }

  class ReactorMutex {
    var isLocked: bool
    var nextPending: bool
    var queue: seq<Task>
    ghost var marks: seq<Mark>
    ghost var arrivals: seq<Task>      // tasks that ever asked for the lock, in order

    ghost function HeldBy(): Holder
      reads this
    {
      HolderAfter(marks)
    }

    /**
     At most one holder; a pending hand-off means waiters and no holder; the lock goes to
     the tasks in the order in which they asked for it.
     */
    ghost predicate Valid()
      reads this
    {
      && Exclusive(marks)
      && (isLocked <==> HeldBy().Held? || nextPending)
      && (nextPending ==> queue != [] && HeldBy() == Nobody)
      && (queue != [] ==> isLocked)
      && arrivals == Grants(marks) + queue
    }

    constructor (locked: bool, owner: Task)
      ensures Valid() && isLocked == locked && HeldBy() == (if locked then Held(owner) else Nobody) && queue == []
    {
      isLocked, nextPending, queue := locked, false, [];
      marks := if locked then [Got(owner)] else [];
      arrivals := if locked then [owner] else [];
      new;
      hide Exclusive, Grants, HolderAfter;
      FirstMarks(owner);
    }

    /** `__enter__` up to its first pause: the lock at once, or a place at the end of the queue. */
    method Enter(g: Task) returns (acquired: bool)
      requires Valid()
      modifies this
      ensures Valid() && arrivals == old(arrivals) + [g]
      ensures acquired <==> (old(HeldBy()) == Nobody && !old(nextPending) && old(queue) == [])
      ensures acquired ==> HeldBy() == Held(g) && queue == [] && marks == old(marks) + [Got(g)] && !nextPending
      ensures !acquired ==> marks == old(marks) && queue == old(queue) + [g] && nextPending == old(nextPending)
    {
      hide Exclusive, Grants, HolderAfter;
      arrivals := arrivals + [g];
      if !isLocked {
        isLocked := true;
        Marked(marks, Got(g));
        marks := marks + [Got(g)];
        return true;
      }
      queue := queue + [g];
      return false;
    }

    /** `__enter__` after a pause, whatever ended it: the lock only if it was handed to this task. */
    method Wake(g: Task) returns (acquired: bool)
      requires Valid()
      modifies this
      ensures Valid() && arrivals == old(arrivals)
      ensures acquired <==> (old(nextPending) && old(queue)[..1] == [g])
      ensures acquired ==> HeldBy() == Held(g) && queue == old(queue)[1..] && !nextPending
      ensures acquired ==> marks == old(marks) + [Got(g)]
      ensures !acquired ==> marks == old(marks) && queue == old(queue) && nextPending == old(nextPending)
    {
      hide Exclusive, Grants, HolderAfter;
      if nextPending && queue[0] == g {
        nextPending := false;
        Marked(marks, Got(g));
        marks := marks + [Got(g)];
        assert queue == [g] + queue[1..];
        queue := queue[1..];
        return true;
      }
      return false;
    }

    /**
     `__exit__`, whoever calls it: a held lock becomes free, or pending for the first waiter,
     which is woken. While nobody holds the lock nothing changes, except that the first
     waiter of a pending hand-off is woken again.
     */
    method Exit() returns (woken: seq<Task>)
      requires Valid()
      modifies this
      ensures Valid() && HeldBy() == Nobody && queue == old(queue) && arrivals == old(arrivals)
      ensures nextPending == (queue != []) && isLocked == nextPending && woken == queue[..if nextPending then 1 else 0]
      ensures marks == old(marks) + if old(HeldBy()).Held? then [Freed] else []
    {
      hide Exclusive, Grants, HolderAfter;
      if HeldBy().Held? {
        Marked(marks, Freed);
        marks := marks + [Freed];
      }
      if |queue| == 0 {
        isLocked := false;
        return [];
      }
      nextPending := true;
      return [queue[0]];
    }

    ghost function Seen(): Lock
      reads this
    {
      Lock(marks, queue, nextPending)
    }

    method Perform(step: Step)
      requires Valid()
      modifies this
      ensures Valid() && Seen() == Next(old(Seen()), step) && arrivals == old(arrivals) + step.Asked()
    {
      hide Exclusive, Grants, HolderAfter;
      assert arrivals + [] == arrivals && marks + [] == marks;
      match step {
        case Ask(g) => var _ := Enter(g);
        case Resume(g) => var _ := Wake(g);
        case Release => var _ := Exit();
      }
    }

    /**
     Any interleaving of lock attempts, wake-ups (timely or not) and unlocks does what it
     does to the plain lock; in particular tasks get the lock in the order in which they asked.
     */
    method Run(steps: seq<Step>)
      requires Valid()
      modifies this
      ensures Valid() && Seen() == Play(old(Seen()), steps)
      ensures old(marks) <= marks && arrivals == old(arrivals) + AskedBy(steps) && Grants(marks) <= arrivals
    {
      hide Exclusive, Grants, HolderAfter, Next, Play, AskedBy;
      PlayedNone(Seen(), steps[..0]);
      for k := 0 to |steps|
        invariant Valid() && Seen() == Play(old(Seen()), steps[..k]) && old(marks) <= marks
        invariant arrivals == old(arrivals) + AskedBy(steps[..k])
      {
        ghost var before := Seen();
        PlayedMore(old(Seen()), steps, k);
        Perform(steps[k]);
        NextGrows(before, steps[k]);
        Joined(old(arrivals), AskedBy(steps[..k]), steps[k].Asked());
      }
      assert steps[..|steps|] == steps;
    }

    /** No waiter starves: as holders leave, the lock reaches all waiters, in order. */
    method ServeAll()
      requires Valid() && HeldBy().Held?
      modifies this
      ensures Valid() && HeldBy() == Nobody && queue == [] && !isLocked
      ensures Grants(marks) == old(Grants(marks)) + old(queue)
    {
      hide Exclusive, Grants;
      while |queue| > 0
        invariant Valid() && HeldBy().Held? && arrivals == old(arrivals)
        decreases |queue|
      {
        var woken := Exit();
        var acquired := Wake(woken[0]);
      }
      var _ := Exit();
    }
  }

  datatype Step = Ask(g: Task) | Resume(g: Task) | Release {
    function Asked(): seq<Task> {
      if Ask? then [g] else []
    }
  }

  ghost function AskedBy(steps: seq<Step>): seq<Task> {
    if steps == [] then [] else AskedBy(steps[..|steps| - 1]) + steps[|steps| - 1].Asked()
  }

  /** The plain lock: what happened to it, who waits, and whether it is on its way to the first waiter. */
  datatype Lock = Lock(marks: seq<Mark>, queue: seq<Task>, pending: bool)

  ghost function Next(l: Lock, step: Step): Lock {
    match step
    case Ask(g) =>
      if HolderAfter(l.marks) == Nobody && !l.pending && l.queue == [] then l.(marks := l.marks + [Got(g)])
      else l.(queue := l.queue + [g])
    case Resume(g) =>
      if l.pending && l.queue[..if l.queue == [] then 0 else 1] == [g]
      then Lock(l.marks + [Got(g)], l.queue[1..], false)
      else l
    case Release =>
      Lock(l.marks + if HolderAfter(l.marks).Held? then [Freed] else [], l.queue, l.queue != [])
  }

  ghost function Play(l: Lock, steps: seq<Step>): Lock {
    if steps == [] then l else Next(Play(l, steps[..|steps| - 1]), steps[|steps| - 1])
  }

  lemma PlayedNone(l: Lock, steps: seq<Step>)
    requires steps == []
    ensures Play(l, steps) == l && AskedBy(steps) == []
  {
  }

  lemma PlayedMore(l: Lock, steps: seq<Step>, k: nat)
    requires k < |steps|
    ensures Play(l, steps[..k + 1]) == Next(Play(l, steps[..k]), steps[k])
    ensures AskedBy(steps[..k + 1]) == AskedBy(steps[..k]) + steps[k].Asked()
  {
    assert steps[..k + 1][..k] == steps[..k];
  }

  lemma Joined(a: seq<Task>, b: seq<Task>, c: seq<Task>)
    ensures a + b + c == a + (b + c)
  {
  }

  lemma NextGrows(l: Lock, step: Step)
    ensures l.marks <= Next(l, step).marks
  {
  }
}
