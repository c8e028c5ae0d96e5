/**
 Triggers of `src/trsync.c`: a trsync holds an intrusive list of signals; a trigger
 takes every signal off the list and runs its callback, which stops a stepper.
 A board is all trsyncs of a micro-controller, sharing one set of signals.
 */
module Trsyncs {
  import opened Ticks
  import opened Steppers

  /** `struct trsync_signal`, embedded in the stepper that its callback stops. */
  class Signal {
    var next: Signal?
    var active: bool            // func is set
    const stepper: Stepper

    constructor (stepper: Stepper)
      ensures next == null && !active && this.stepper == stepper
    {
      next, active := null, false;
      this.stepper := stepper;
    }
  }

  datatype Option<T> = None | Some(value: T)

  /** The fields of `struct trsync` besides the list: flags, reasons, and its timers, if scheduled. */
  datatype Sync = Sync(
    canTrigger: bool,             // TSF_CAN_TRIGGER
    report: bool,                 // TSF_REPORT
    triggerReason: nat, expireReason: nat,
    reportAt: Option<uint32>, reportTicks: uint32, expireAt: Option<uint32>)
  {
    /** After `trsync_clear`. */
    function Cleared(): Sync {
      Sync(false, false, 0, 0, None, reportTicks, None)
    }

    /** After `trsync_start`. */
    function Started(clock: uint32, ticks: uint32, reason: nat): Sync {
      Sync(true, false, 0, reason, if ticks != 0 then Some(clock) else None, ticks, None)
    }

    /** After a trigger with `reason`, which counts only while one may fire. */
    function Triggered(reason: nat): Sync {
      if canTrigger then this.(canTrigger := false, report := true, triggerReason := reason) else this
    }
  }

  class Trsync {
    var signals: Signal?
    var state: Sync
    ghost var fired: seq<nat>   // reasons of the triggers dispatched since the last start

    /** At most one trigger since the last start, and its reason is the one kept. */
    ghost predicate Armed()
      reads this
    {
      && |fired| <= 1
      && (state.canTrigger ==> fired == [])
      && (fired != [] ==> state.triggerReason == fired[0])
    }

    /** Nothing registered, nothing scheduled, nothing to report. */
    ghost predicate Idle()
      reads this
    {
      signals == null && fired == [] && state == state.Cleared()
    }

    /** What `trsync_clear` does besides releasing the signals. */
    method Disarm()
      modifies this
      ensures Idle() && state == old(state).Cleared()
    {
      signals := null;
      state := Sync(false, false, 0, 0, None, state.reportTicks, None);
      fired := [];
    }

    /** What `trsync_start` does after `trsync_clear`. */
    method Enable(clock: uint32, ticks: uint32, reason: nat)
      requires Idle()
      modifies this
      ensures Armed() && fired == [] && signals == null && state == old(state).Started(clock, ticks, reason)
    {
      state := state.(canTrigger := true, reportTicks := ticks, expireReason := reason);
      if ticks != 0 {
        state := state.(reportAt := Some(clock));
      }
    }

    constructor ()
      ensures Armed() && Idle()
    {
      signals := null;
      state := Sync(false, false, 0, 0, None, 0, None);
      fired := [];
    }
  }

  ghost predicate Distinct(list: seq<Signal>) {
    forall i, j :: 0 <= i < j < |list| ==> list[i] != list[j] && list[i].stepper != list[j].stepper
  }

  /** `list` is what the links from `head` on lead through, each signal active. */
  ghost predicate Linked(head: Signal?, list: seq<Signal>)
    reads list
  {
    && head == (if list == [] then null else list[0])
    && (forall i {:trigger list[i].next} :: 0 <= i < |list| - 1 ==> list[i].next == list[i + 1])
    && (list != [] ==> list[|list| - 1].next == null)
    && (forall i :: 0 <= i < |list| ==> list[i].active)
  }

  /** Takes the first signal off a list. */
  method Pop(ts: Trsync, ghost list: seq<Signal>) returns (tss: Signal)
    requires list != [] && Distinct(list) && Linked(ts.signals, list)
    modifies ts`signals, list[0]
    ensures tss == list[0] && !tss.active && tss.next == null && Linked(ts.signals, list[1..])
  {
    tss := ts.signals;
    assert |list| > 1 ==> tss.next == list[1];
    ts.signals := tss.next;
    tss.next := null;
    tss.active := false;
  }

  ghost predicate SteppersOk(list: seq<Signal>)
    reads set s | s in list :: s.stepper
  {
    forall i :: 0 <= i < |list| ==> list[i].stepper.Valid()
  }

  ghost predicate AllStopped(list: seq<Signal>)
    reads set s | s in list :: s.stepper
  {
    forall i :: 0 <= i < |list| ==> list[i].stepper.Valid() && list[i].stepper.Stopped()
  }

  ghost function SteppersOf(list: seq<Signal>): set<Stepper> {
    set s | s in list :: s.stepper
  }

  /** A trigger under way: the first `k` signals have been called. */
  ghost predicate Dispatching(ts: Trsync, list: seq<Signal>, k: nat)
    reads ts`signals, list, set s | s in list :: s.stepper
  {
    && k <= |list| && Distinct(list) && Linked(ts.signals, list[k..])
    && (forall i :: 0 <= i < k ==> !list[i].active && list[i].next == null)
    && (forall i :: 0 <= i < |list| ==> list[i].stepper.Valid())
    && (forall i :: 0 <= i < k ==> list[i].stepper.Stopped())
  }

  /** Takes the next signal off the list and runs its callback. */
  method CallNext(ts: Trsync, ghost list: seq<Signal>, ghost k: nat) returns (tss: Signal)
    requires Dispatching(ts, list, k) && k < |list|
    modifies ts`signals, list[k], list[k].stepper
    ensures Dispatching(ts, list, k + 1) && tss == list[k]
  {
    ghost var rest := list[k..];
    assert rest[0] == list[k] && rest[1..] == list[k + 1..];
    assert Distinct(rest);
    hide tss.stepper.Valid, tss.stepper.Stopped;
    tss := Pop(ts, rest);
    tss.stepper.Stop();
    assert forall i :: 0 <= i < |list| && i != k ==> list[i] != tss && list[i].stepper != tss.stepper;
  }

  lemma StartsDispatching(ts: Trsync, list: seq<Signal>)
    requires Distinct(list) && Linked(ts.signals, list) && SteppersOk(list)
    ensures Dispatching(ts, list, 0)
  {
    assert list[0..] == list;
  }

  lemma EndsDispatching(ts: Trsync, list: seq<Signal>, k: nat)
    requires Dispatching(ts, list, k)
    ensures ts.signals == null <==> k == |list|
    ensures k == |list| ==> AllStopped(list) && forall i :: 0 <= i < |list| ==> !list[i].active && list[i].next == null
  {
  }

  /**
   `trsync_do_trigger`: if the trsync is armed, records the reason, and runs every
   signal's callback once, in list order. `called` is the order of the calls.
   */
  method DoTrigger(ts: Trsync, reason: nat, ghost list: seq<Signal>) returns (ghost called: seq<Signal>)
    requires Distinct(list) && Linked(ts.signals, list) && SteppersOk(list) && ts.Armed()
    modifies ts, list, SteppersOf(list)
    ensures ts.Armed() && ts.state == old(ts.state).Triggered(reason)
    ensures old(ts.state.canTrigger) ==>
              && called == list && ts.signals == null && ts.fired == [reason]
              && (forall i :: 0 <= i < |list| ==> !list[i].active && list[i].next == null)
              && AllStopped(list)
    ensures !old(ts.state.canTrigger) ==> called == [] && unchanged(ts, list, SteppersOf(list))
  {
    hide Linked, Distinct, SteppersOk, AllStopped, SteppersOf;
    called := [];
    if !ts.state.canTrigger {
      return;
    }
    ts.state := ts.state.(triggerReason := reason, canTrigger := false, report := true);
    ts.fired := [reason];
    called := CallAll(ts, list);
  }

  /** The dispatch loop. */
  method CallAll(ts: Trsync, ghost list: seq<Signal>) returns (ghost called: seq<Signal>)
    requires Distinct(list) && Linked(ts.signals, list) && SteppersOk(list)
    modifies ts`signals, list, SteppersOf(list)
    ensures called == list && ts.signals == null && AllStopped(list)
    ensures forall i :: 0 <= i < |list| ==> !list[i].active && list[i].next == null
  {
    hide *;
    called := [];
    ghost var k := 0;
    StartsDispatching(ts, list);
    EndsDispatching(ts, list, 0);
    ListedSteppers(list);
    while ts.signals != null
      modifies ts`signals, list, SteppersOf(list)
      invariant 0 <= k <= |list| && called == list[..k]
      invariant Dispatching(ts, list, k) && (ts.signals == null <==> k == |list|)
      decreases |list| - k
    {
      var tss := CallNext(ts, list, k);
      called := called + [tss];
      k := k + 1;
      EndsDispatching(ts, list, k);
    }
    EndsDispatching(ts, list, k);
  }

  lemma ListedSteppers(list: seq<Signal>)
    ensures forall i :: 0 <= i < |list| ==> list[i].stepper in SteppersOf(list)
  {
  }

  // ----- all trsyncs of a micro-controller -------------------------------------------------

  class Board {
    const syncs: seq<Trsync>
    ghost const universe: set<Signal>       // the signals of all steppers
    ghost var lists: seq<seq<Signal>>       // the list of each trsync
    ghost var owner: map<Signal, nat>       // the trsync of each active signal

    ghost function Steppers(): set<Stepper> {
      set s | s in universe :: s.stepper
    }

    /** Every registered signal is in exactly one list, at one place. */
    ghost predicate Registry(ls: seq<seq<Signal>>, own: map<Signal, nat>) {
      && |ls| == |syncs|
      && (forall i, j :: 0 <= i < j < |syncs| ==> syncs[i] != syncs[j])
      && (forall s, t :: s in universe && t in universe && s != t ==> s.stepper != t.stepper)
      && (forall i :: 0 <= i < |ls| ==> Distinct(ls[i]))
      && (forall i, a :: 0 <= i < |ls| && 0 <= a < |ls[i]| ==>
            ls[i][a] in universe && ls[i][a] in own && own[ls[i][a]] == i)
      && (forall s :: s in own ==> s in universe && own[s] < |ls| && s in ls[own[s]])
    }

    ghost predicate Registered()
      reads this
    {
      Registry(lists, owner)
    }

    /** A signal is active exactly when it is in some trsync's list. */
    ghost predicate Valid()
      reads this, syncs, universe, Steppers()
    {
      Registered() && Rest(|syncs|, lists) && Flags(owner) && SteppersValid()
    }

    ghost predicate Known(list: seq<Signal>) {
      forall s :: s in list ==> s in universe
    }

    /** The lists other than that of trsync `i` are as they should be. */
    ghost predicate Rest(i: nat, ls: seq<seq<Signal>>)
      reads syncs, universe
    {
      && |syncs| == |ls|
      && forall j :: 0 <= j < |syncs| && j != i ==>
           Known(ls[j]) && Linked(syncs[j].signals, ls[j]) && syncs[j].Armed()
    }

    ghost predicate Flags(own: map<Signal, nat>)
      reads universe
    {
      forall s :: s in universe ==> (s.active <==> s in own)
    }

    ghost predicate SteppersValid()
      reads Steppers()
    {
      forall s :: s in universe ==> s.stepper.Valid()
    }

    lemma Elsewhere(i: nat, tss: Signal)
      requires Registered() && tss !in owner && i < |syncs|
      ensures forall j :: 0 <= j < |lists| ==> tss !in lists[j]
      ensures |lists| == |syncs| && forall j :: 0 <= j < |syncs| && j != i ==> syncs[j] != syncs[i]
    {
    }

    /** Links an inactive signal into the list of trsync `i`. */
    method LinkSignal(i: nat, tss: Signal)
      requires Registered() && i < |syncs| && tss in universe && tss !in owner
      requires Linked(syncs[i].signals, lists[i]) && syncs[i].Armed() && Rest(i, lists) && Flags(owner)
      modifies {syncs[i]}`signals, tss
      ensures Linked(syncs[i].signals, [tss] + lists[i]) && syncs[i].Armed() && Rest(i, lists)
      ensures Flags(owner[tss := i])
    {
      hide Registered, Distinct, Linked, syncs[i].Armed;
      Elsewhere(i, tss);
      Push(syncs[i], tss, lists[i]);
    }

    lemma TakeOut(i: nat)
      requires Valid() && i < |syncs|
      ensures |lists| == |syncs| && Registered() && Rest(i, lists) && Flags(owner) && SteppersValid()
      ensures Linked(syncs[i].signals, lists[i]) && syncs[i].Armed() && Known(lists[i]) && Distinct(lists[i])
    {
    }

    lemma PutBack(i: nat)
      requires i < |syncs| && Registered() && Rest(i, lists) && Flags(owner) && SteppersValid()
      requires Linked(syncs[i].signals, lists[i]) && syncs[i].Armed()
      ensures Valid()
    {
    }

    lemma RegisterOne(i: nat, tss: Signal)
      requires Registered() && i < |syncs| && tss in universe && tss !in owner
      ensures Registry(lists[i := [tss] + lists[i]], owner[tss := i])
    {
      var ls, own := lists[i := [tss] + lists[i]], owner[tss := i];
      assert Distinct(ls[i]) by {
        assert forall a :: 0 <= a < |lists[i]| ==> lists[i][a] != tss && lists[i][a].stepper != tss.stepper;
      }
      forall j, a | 0 <= j < |ls| && 0 <= a < |ls[j]|
        ensures ls[j][a] in universe && ls[j][a] in own && own[ls[j][a]] == j
      {
        if j == i && a > 0 {
          assert ls[j][a] == lists[j][a - 1];
        } else if j != i {
          assert ls[j][a] == lists[j][a];
        }
      }
      assert ls[i][0] == tss;
      forall s | s in own
        ensures s in universe && own[s] < |ls| && s in ls[own[s]]
      {
        if s != tss && owner[s] == i {
          var a :| 0 <= a < |lists[i]| && lists[i][a] == s;
          assert ls[i][a + 1] == s;
        }
      }
    }

    /** `trsync_add_signal`: refused if the signal is active already. */
    method AddSignal(i: nat, tss: Signal) returns (ok: bool)
      requires Valid() && i < |syncs| && tss in universe
      modifies this`lists, this`owner, {syncs[i]}`signals, tss
      ensures Valid() && ok == !old(tss.active) && |old(lists)| == |syncs|
      ensures !ok ==> lists == old(lists) && owner == old(owner)
      ensures ok ==> tss.active && lists == old(lists)[i := [tss] + old(lists)[i]] && owner == old(owner)[tss := i]
    {
      hide Registry, Linked, Distinct, Known, syncs[i].Armed, SteppersValid, Rest;
      TakeOut(i);
      if tss.active {
        return false;
      }
      RegisterOne(i, tss);
      LinkSignal(i, tss);
      lists := lists[i := [tss] + lists[i]];
      owner := owner[tss := i];
      RestMoves(i, old(lists));
      PutBack(i);
      ok := true;
    }

    lemma RestMoves(i: nat, ls: seq<seq<Signal>>)
      requires |syncs| == |lists| && Rest(i, ls)
      requires forall j :: 0 <= j < |syncs| && j != i && j < |ls| ==> lists[j] == ls[j]
      ensures Rest(i, lists)
    {
    }

    /** The registry without the signals of trsync `i`. */
    ghost function Released(i: nat, own: map<Signal, nat>): map<Signal, nat> {
      map s | s in own && own[s] != i :: own[s]
    }

    lemma Release(i: nat)
      requires Registered() && i < |syncs|
      ensures Registry(lists[i := []], Released(i, owner))
      ensures forall s :: s in universe ==> (s in Released(i, owner) <==> s in owner && s !in lists[i])
    {
      var ls, own := lists[i := []], Released(i, owner);
      forall j, a | 0 <= j < |ls| && 0 <= a < |ls[j]|
        ensures ls[j][a] in universe && ls[j][a] in own && own[ls[j][a]] == j
      {
        assert ls[j][a] == lists[j][a];
      }
    }

    lemma Apart(i: nat)
      requires Registered() && i < |syncs|
      ensures |lists| == |syncs|
      ensures forall j, a :: 0 <= j < |lists| && j != i && 0 <= a < |lists[j]| ==> lists[j][a] !in lists[i]
      ensures forall j :: 0 <= j < |syncs| && j != i ==> syncs[j] != syncs[i]
      ensures forall s :: s in universe && s !in lists[i] ==> s.stepper !in SteppersOf(lists[i])
      ensures forall s :: s in lists[i] ==> s in universe && s in owner
    {
    }

    lemma ListSteppers(i: nat)
      requires i < |syncs| == |lists| && Known(lists[i]) && SteppersValid()
      ensures SteppersOk(lists[i])
    {
    }

    /** What a list's signals are once they have been released. */
    ghost predicate Silent(list: seq<Signal>)
      reads list
    {
      forall k :: 0 <= k < |list| ==> !list[k].active && list[k].next == null
    }

    /** The trsync's list is empty now; nothing else has changed. */
    lemma AfterRelease(i: nat, ls: seq<seq<Signal>>, own: map<Signal, nat>)
      requires i < |syncs| == |ls| && lists == ls[i := []] && owner == Released(i, own)
      requires Registry(lists, owner) && Rest(i, ls) && SteppersValid()
      requires syncs[i].signals == null && syncs[i].Armed() && Silent(ls[i])
      requires forall s :: s in universe && s !in ls[i] ==> (s.active <==> s in own)
      requires forall s :: s in universe ==> (s in owner <==> s in own && s !in ls[i])
      ensures Valid()
    {
      RestMoves(i, ls);
      assert forall s :: s in ls[i] ==> !s.active;
      assert Linked(syncs[i].signals, lists[i]);
    }

    /**
     A trigger, from a timeout, an endstop or the host. Only the first one since the
     start counts: it empties the list, and every listed stepper is stopped.
     */
    method Trigger(i: nat, reason: nat) returns (ghost called: seq<Signal>)
      requires Valid() && i < |syncs| && |lists| == |syncs|
      modifies this`lists, this`owner, {syncs[i]}, lists[i], SteppersOf(lists[i])
      ensures Valid() && |old(lists)| == |syncs| && syncs[i].state == old(syncs[i].state).Triggered(reason)
      ensures old(syncs[i].state.canTrigger) ==>
                && called == old(lists)[i] && lists == old(lists)[i := []]
                && Silent(old(lists)[i]) && AllStopped(old(lists)[i]) && syncs[i].fired == [reason]
                && syncs[i].state == old(syncs[i].state).(canTrigger := false, report := true, triggerReason := reason)
      ensures !old(syncs[i].state.canTrigger) ==>
                called == [] && lists == old(lists) && owner == old(owner) && unchanged(syncs[i])
    {
      hide *;
      TriggeredIs(syncs[i].state, reason);
      if syncs[i].state.canTrigger {
        called := TriggerArmed(i, reason);
      } else {
        called := TriggerUnarmed(i, reason);
      }
    }

    method TriggerUnarmed(i: nat, reason: nat) returns (ghost called: seq<Signal>)
      requires Valid() && i < |syncs| && |lists| == |syncs| && !syncs[i].state.canTrigger
      modifies {syncs[i]}, lists[i], SteppersOf(lists[i])
      ensures Valid() && called == [] && unchanged(syncs[i])
    {
      hide Registry, Linked, Distinct, Known, syncs[i].Armed, SteppersOk, AllStopped, SteppersOf;
      TakeOut(i);
      ListSteppers(i);
      called := DoTrigger(syncs[i], reason, lists[i]);
    }

    method TriggerArmed(i: nat, reason: nat) returns (ghost called: seq<Signal>)
      requires Valid() && i < |syncs| && |lists| == |syncs| && syncs[i].state.canTrigger
      modifies this`lists, this`owner, {syncs[i]}, lists[i], SteppersOf(lists[i])
      ensures Valid() && |old(lists)| == |syncs| && called == old(lists)[i] && lists == old(lists)[i := []]
      ensures Silent(old(lists)[i]) && AllStopped(old(lists)[i])
      ensures syncs[i].fired == [reason] && syncs[i].state == old(syncs[i].state).Triggered(reason)
    {
      hide *;
      TakeOut(i);
      called := Fire(i, reason);
      Unregister(i);
    }

    /** The signals of trsync `i`, already silent, leave the registry. */
    ghost method Unregister(i: nat)
      requires Registered() && i < |syncs| == |lists| && Rest(i, lists) && SteppersValid()
      requires syncs[i].signals == null && syncs[i].Armed() && Silent(lists[i])
      requires forall s :: s in universe && s !in lists[i] ==> (s.active <==> s in owner)
      modifies this`lists, this`owner
      ensures Valid() && lists == old(lists)[i := []] && owner == Released(i, old(owner))
    {
      hide Registry, Linked, Distinct, Known, syncs[i].Armed, Released, Flags;
      Release(i);
      lists, owner := lists[i := []], Released(i, owner);
      AfterRelease(i, old(lists), old(owner));
    }

    /** The effect of a trigger outside the lists: the rest of the board is untouched. */
    method Fire(i: nat, reason: nat) returns (ghost called: seq<Signal>)
      requires Registered() && i < |syncs| == |lists| && Rest(i, lists) && Flags(owner) && SteppersValid()
      requires Linked(syncs[i].signals, lists[i]) && syncs[i].Armed() && Known(lists[i]) && Distinct(lists[i])
      requires syncs[i].state.canTrigger
      modifies {syncs[i]}, lists[i], SteppersOf(lists[i])
      ensures Rest(i, lists) && SteppersValid()
      ensures forall s :: s in universe && s !in lists[i] ==> (s.active <==> s in owner)
      ensures called == lists[i] && syncs[i].signals == null && Silent(lists[i]) && AllStopped(lists[i])
      ensures syncs[i].Armed() && syncs[i].fired == [reason]
      ensures syncs[i].state == old(syncs[i].state).Triggered(reason)
    {
      hide Registry, Linked, Distinct, Known, syncs[i].Armed, SteppersOk, AllStopped, SteppersOf;
      Apart(i);
      ListSteppers(i);
      called := DoTrigger(syncs[i], reason, lists[i]);
      StoppedValid(lists[i]);
    }

    lemma StoppedValid(list: seq<Signal>)
      requires AllStopped(list)
      ensures forall s :: s in list ==> s.stepper.Valid()
    {
    }

    /** The loop of `trsync_clear`: signals are released without being called. */
    method Silence(i: nat)
      requires Registered() && i < |syncs| == |lists| && Rest(i, lists) && Flags(owner) && SteppersValid()
      requires Linked(syncs[i].signals, lists[i]) && Distinct(lists[i])
      modifies lists[i]
      ensures Rest(i, lists) && Silent(lists[i]) && SteppersValid()
      ensures forall s :: s in universe && s !in lists[i] ==> (s.active <==> s in owner)
    {
      hide Registry, Known, syncs[i].Armed;
      Apart(i);
      ghost var list := lists[i];
      SilenceAll(syncs[i].signals, list);
    }

    /**
     `trsync_clear`: disarms the trsync and releases its signals; they are not called,
     and no stepper is touched.
     */
    method Clear(i: nat)
      requires Valid() && i < |syncs| && |lists| == |syncs|
      modifies this`lists, this`owner, {syncs[i]}, lists[i]
      ensures Valid() && lists == old(lists)[i := []] && owner == Released(i, old(owner))
      ensures Silent(old(lists)[i]) && syncs[i].Idle() && syncs[i].state == old(syncs[i].state).Cleared()
      ensures !syncs[i].state.canTrigger && !syncs[i].state.report
      ensures syncs[i].state.triggerReason == 0 && syncs[i].state.expireReason == 0
      ensures syncs[i].state.reportAt == None && syncs[i].state.expireAt == None
    {
      hide *;
      ClearedIs(syncs[i].state);
      TakeOut(i);
      Silence(i);
      Forget(i);
      Unregister(i);
    }

    /** Changes only trsync `i`, leaving it idle. */
    method Forget(i: nat)
      requires Registered() && i < |syncs| == |lists| && Rest(i, lists) && SteppersValid()
      modifies {syncs[i]}
      ensures Rest(i, lists) && SteppersValid() && syncs[i].Idle() && syncs[i].Armed()
      ensures syncs[i].signals == null && syncs[i].state == old(syncs[i].state).Cleared()
    {
      hide Registry, Linked, Known, Distinct;
      Apart(i);
      syncs[i].Disarm();
    }

    /** `trsync_start`: whatever came before is forgotten, and one trigger may fire. */
    method Start(i: nat, clock: uint32, ticks: uint32, reason: nat)
      requires Valid() && i < |syncs| && |lists| == |syncs|
      modifies this`lists, this`owner, {syncs[i]}, lists[i]
      ensures Valid() && lists == old(lists)[i := []] && owner == Released(i, old(owner))
      ensures Silent(old(lists)[i]) && syncs[i].fired == []
      ensures syncs[i].state == old(syncs[i].state).Started(clock, ticks, reason)
      ensures syncs[i].state.canTrigger && syncs[i].state.triggerReason == 0 && !syncs[i].state.report
      ensures syncs[i].state.expireReason == reason && syncs[i].state.expireAt == None
      ensures syncs[i].state.reportTicks == ticks
      ensures syncs[i].state.reportAt == if ticks != 0 then Some(clock) else None
    {
      hide *;
      Clear(i);
      assert |lists| == |syncs|;
      TakeOut(i);
      Enable(i, clock, ticks, reason);
      PutBack(i);
      StartedIs(old(syncs[i].state), syncs[i].state, clock, ticks, reason);
    }

    lemma StartedIs(a: Sync, b: Sync, clock: uint32, ticks: uint32, reason: nat)
      ensures a.Started(clock, ticks, reason) == b.Started(clock, ticks, reason)
      ensures a.Cleared().Started(clock, ticks, reason) == a.Started(clock, ticks, reason)
      ensures var s := a.Started(clock, ticks, reason);
              && s.canTrigger && !s.report && s.triggerReason == 0 && s.expireReason == reason
              && s.reportAt == (if ticks != 0 then Some(clock) else None)
              && s.reportTicks == ticks && s.expireAt == None
    {
    }

    lemma ClearedIs(a: Sync)
      ensures var s := a.Cleared();
              && !s.canTrigger && !s.report && s.triggerReason == 0 && s.expireReason == 0
              && s.reportAt == None && s.expireAt == None
    {
    }

    lemma TriggeredIs(a: Sync, reason: nat)
      ensures !a.canTrigger ==> a.Triggered(reason) == a
      ensures a.canTrigger ==> a.Triggered(reason) == a.(canTrigger := false, report := true, triggerReason := reason)
    {
    }

    method Enable(i: nat, clock: uint32, ticks: uint32, reason: nat)
      requires Registered() && i < |syncs| == |lists| && Rest(i, lists)
      requires Linked(syncs[i].signals, lists[i]) && syncs[i].Idle()
      modifies {syncs[i]}
      ensures Rest(i, lists) && Linked(syncs[i].signals, lists[i]) && syncs[i].Armed() && syncs[i].fired == []
      ensures syncs[i].state == old(syncs[i].state).Started(clock, ticks, reason)
    {
      hide Registry, Linked, Known, Distinct;
      Apart(i);
      syncs[i].Enable(clock, ticks, reason);
    }

    /** Changes the timers or the report flag of trsync `i`, and nothing else. */
    method SetState(i: nat, next: Sync)
      requires Valid() && i < |syncs|
      requires next.canTrigger == syncs[i].state.canTrigger && next.triggerReason == syncs[i].state.triggerReason
      modifies {syncs[i]}`state
      ensures Valid() && syncs[i].state == next
    {
      hide Registry, Linked, Known, Distinct;
      TakeOut(i);
      Apart(i);
      syncs[i].state := next;
    }

    /** `trsync_set_timeout`: (re)schedules the timeout, only while a trigger may still fire. */
    method SetTimeout(i: nat, clock: uint32)
      requires Valid() && i < |syncs|
      modifies {syncs[i]}`state
      ensures Valid()
      ensures syncs[i].state ==
              var s := old(syncs[i].state); if s.canTrigger then s.(expireAt := Some(clock)) else s
    {
      hide *;
      if syncs[i].state.canTrigger {
        SetState(i, syncs[i].state.(expireAt := Some(clock)));
      }
    }

    /** `trsync_report_event`: a report is due, and the next one is scheduled. */
    method ReportEvent(i: nat)
      requires Valid() && i < |syncs| && syncs[i].state.reportAt.Some?
      modifies {syncs[i]}`state
      ensures Valid() && syncs[i].state == old(syncs[i].state).(report := true,
                reportAt := Some(Wrap(old(syncs[i].state).reportAt.value + old(syncs[i].state).reportTicks)))
    {
      hide *;
      var s := syncs[i].state;
      SetState(i, s.(report := true, reportAt := Some(Wrap(s.reportAt.value + s.reportTicks))));
    }

    /** `trsync_expire_event`: a trigger with the reason given at the start; not rescheduled. */
    method ExpireEvent(i: nat) returns (ghost called: seq<Signal>)
      requires Valid() && i < |syncs| && |lists| == |syncs|
      modifies this`lists, this`owner, {syncs[i]}, lists[i], SteppersOf(lists[i])
      ensures Valid()
      ensures syncs[i].state == old(syncs[i].state).Triggered(old(syncs[i].state).expireReason).(expireAt := None)
      ensures old(syncs[i].state.canTrigger) ==>
                && called == old(lists)[i] && lists == old(lists)[i := []] && AllStopped(old(lists)[i])
                && syncs[i].fired == [old(syncs[i].state.expireReason)]
      ensures !old(syncs[i].state.canTrigger) ==>
                called == [] && lists == old(lists) && syncs[i].fired == old(syncs[i].fired)
    {
      hide *;
      called := Trigger(i, syncs[i].state.expireReason);
      SetState(i, syncs[i].state.(expireAt := None));
    }

    /**
     `trsync_trigger`: triggers if nothing has yet, stops reporting, and tells the host
     the reason of the one trigger that fired since the start.
     */
    method TriggerCommand(i: nat, reason: nat) returns (reported: nat, ghost called: seq<Signal>)
      requires Valid() && i < |syncs| && |lists| == |syncs|
      modifies this`lists, this`owner, {syncs[i]}, lists[i], SteppersOf(lists[i])
      ensures Valid() && reported == syncs[i].state.triggerReason
      ensures syncs[i].state ==
              old(syncs[i].state).Triggered(reason).(report := false, reportAt := None, expireAt := None)
      ensures old(syncs[i].state.canTrigger) ==>
                && called == old(lists)[i] && lists == old(lists)[i := []] && AllStopped(old(lists)[i])
                && syncs[i].fired == [reason]
      ensures !old(syncs[i].state.canTrigger) ==>
                called == [] && lists == old(lists) && syncs[i].fired == old(syncs[i].fired)
      ensures syncs[i].fired != [] ==> syncs[i].fired == [reported]
    {
      hide *;
      called := Trigger(i, reason);
      TriggeredIs(old(syncs[i].state), reason);
      SetState(i, syncs[i].state.(report := false, reportAt := None, expireAt := None));
      TakeOut(i);
      OneReason(syncs[i]);
      reported := syncs[i].state.triggerReason;
    }

    /** One trsync's turn in `trsync_task`: the state reported, if a report is due. */
    method Report(i: nat) returns (sent: Option<State>)
      requires Valid() && i < |syncs|
      modifies {syncs[i]}`state
      ensures Valid() && syncs[i].state == old(syncs[i].state).(report := false)
      ensures sent == if old(syncs[i].state.report)
                      then Some(State(old(syncs[i].state.canTrigger), old(syncs[i].state.triggerReason))) else None
      ensures sent.Some? && syncs[i].fired != [] ==> syncs[i].fired == [sent.value.reason]
    {
      hide *;
      sent := None;
      TakeOut(i);
      if syncs[i].state.report {
        OneReason(syncs[i]);
        sent := Some(State(syncs[i].state.canTrigger, syncs[i].state.triggerReason));
      }
      SetState(i, syncs[i].state.(report := false));
    }

    lemma Footprint(i: nat)
      requires Valid() && i < |syncs|
      ensures |lists| == |syncs| && (forall s :: s in lists[i] ==> s in universe)
      ensures SteppersOf(lists[i]) <= Steppers()
      ensures forall j :: 0 <= j < |syncs| && j != i ==> syncs[j] != syncs[i]
    {
    }

    // ----- whole runs ------------------------------------------------------------------------------

    ghost function States(): seq<Sync>
      reads syncs
    {
      seq(|syncs|, j requires 0 <= j < |syncs| reads syncs => syncs[j].state)
    }

    /** A signal is active exactly if it is listed. */
    lemma ActiveIsListed(tss: Signal)
      requires Valid() && tss in universe
      ensures tss.active <==> IsListed(lists, tss)
    {
      if tss.active {
        assert tss in owner;
        assert tss in lists[owner[tss]];
      }
    }

    lemma StatesUpdated(before: seq<Sync>, i: nat)
      requires |before| == |syncs| && i < |syncs|
      requires forall j :: 0 <= j < |syncs| && j != i ==> syncs[j].state == before[j]
      ensures States() == before[i := syncs[i].state]
    {
    }

    /** One event on the board does what it does in the books. */
    method Perform(event: Event) returns (ghost marks: seq<Mark>)
      requires Valid() && event.index < |syncs| && (event.Add? ==> event.signal in universe)
      modifies this`lists, this`owner, syncs, universe, Steppers()
      ensures Valid() && |lists| == |old(lists)| == |syncs|
      ensures Books(States(), lists, marks) == Entry(Books(old(States()), old(lists), []), event)
      ensures forall k :: 0 <= k < |marks| && marks[k].Fired? ==> AllStopped(marks[k].called)
    {
      hide Valid, States, Steppers, Silent, AllStopped, IsListed, Released, SteppersOf;
      Footprint(event.index);
      ghost var before := States();
      StatesAre();
      marks := [];
      match event {
        case Add(i, signal) =>
          ActiveIsListed(signal);
          var ok := AddSignal(i, signal);
          marks := if ok then [Joined(i, signal)] else [];
        case Begin(i, clock, ticks, reason) =>
          Start(i, clock, ticks, reason);
          marks := [Began(i, reason)];
        case Timeout(i, clock) =>
          marks := if syncs[i].state.canTrigger then [Timed(i, clock)] else [];
          SetTimeout(i, clock);
        case Remind(i) =>
          if syncs[i].state.reportAt.Some? {
            ReportEvent(i);
          }
        case Expire(i) =>
          if syncs[i].state.expireAt.Some? {
            ghost var s := syncs[i].state;
            ghost var called := ExpireEvent(i);
            marks := ShotMarks(s, i, s.expireReason, true, called);
          }
        case Trip(i, reason) =>
          ghost var s := syncs[i].state;
          ghost var called := Trigger(i, reason);
          marks := ShotMarks(s, i, reason, false, called);
        case Finish(i, reason) =>
          ghost var s := syncs[i].state;
          var reported, called := TriggerCommand(i, reason);
          marks := ShotMarks(s, i, reason, false, called) + [Told(i, false, reported)];
        case Send(i) =>
          var sent := Report(i);
          marks := if sent.Some? then [Told(i, sent.value.canTrigger, sent.value.reason)] else [];
        case Reset(i) =>
          Clear(i);
          marks := [Ended(i)];
      }
      StatesUpdated(before, event.index);
    }

    lemma StatesAre()
      ensures |States()| == |syncs| && forall j :: 0 <= j < |syncs| ==> States()[j] == syncs[j].state
    {
    }

    /**
     Whatever happens, in whatever order, the registry stays sound, and the board does
     exactly what the books say about the same events: which signals are listed where, which
     triggers fire with which reason and call which signals, and what the host is told.
     */
    method Run(events: seq<Event>) returns (ghost marks: seq<Mark>)
      requires Valid()
      requires forall k :: 0 <= k < |events| ==>
                 events[k].index < |syncs| && (events[k].Add? ==> events[k].signal in universe)
      modifies this`lists, this`owner, syncs, universe, Steppers()
      ensures Valid() && |old(States())| == |old(lists)| == |syncs|
      ensures Books(States(), lists, marks) == Ledger(Books(old(States()), old(lists), []), events)
    {
      hide Valid, Steppers, States, Entry, Ledger;
      marks := [];
      ghost var first := Books(States(), lists, []);
      SizesAgree();
      EmptyLedger(first, events[..0]);
      for k := 0 to |events|
        invariant Valid() && |lists| == |States()| == |syncs|
        invariant Books(States(), lists, marks) == Ledger(first, events[..k])
      {
        ghost var now := Books(States(), lists, []);
        ghost var more := Perform(events[k]);
        EntryMarks(now, events[k], marks);
        LedgerMore(first, events, k);
        marks := marks + more;
        SizesAgree();
      }
      assert events[..|events|] == events;
    }

    lemma SizesAgree()
      requires Valid()
      ensures |lists| == |States()| == |syncs|
    {
    }

    /** A board at start-up: nothing is registered. */
    constructor (syncs: seq<Trsync>, ghost universe: set<Signal>)
      requires forall i, j :: 0 <= i < j < |syncs| ==> syncs[i] != syncs[j]
      requires forall i :: 0 <= i < |syncs| ==> syncs[i].Idle()
      requires forall s, t :: s in universe && t in universe && s != t ==> s.stepper != t.stepper
      requires forall s :: s in universe ==> !s.active && s.stepper.Valid()
      ensures Valid() && this.syncs == syncs && this.universe == universe
      ensures |lists| == |syncs| && forall j :: 0 <= j < |syncs| ==> lists[j] == []
    {
      this.syncs, this.universe := syncs, universe;
      lists, owner := seq(|syncs|, _ => []), map[];
    }
  }

  // ----- the books ---------------------------------------------------------------------------------

  /**
   What is worth noting: a start with its reason for a timeout, a signal added, a timeout
   set, a trigger with the signals it called, what the host is told, a clear.
   */
  datatype Mark =
    | Began(index: nat, expireReason: nat)
    | Joined(index: nat, signal: Signal)
    | Timed(index: nat, clock: uint32)
    | Fired(index: nat, reason: nat, expired: bool, called: seq<Signal>)
    | Told(index: nat, canTrigger: bool, reason: nat)
    | Ended(index: nat)
  {
    /** A start, a trigger or a clear. */
    predicate Turn() {
      Began? || Fired? || Ended?
    }
  }

  /** The trsyncs and their signals as plain values, and the notes so far. */
  datatype Books = Books(states: seq<Sync>, lists: seq<seq<Signal>>, marks: seq<Mark>)

  ghost predicate IsListed(lists: seq<seq<Signal>>, signal: Signal) {
    exists i :: 0 <= i < |lists| && signal in lists[i]
  }

  ghost function ShotMarks(s: Sync, i: nat, reason: nat, expired: bool, called: seq<Signal>): seq<Mark> {
    if s.canTrigger then [Fired(i, reason, expired, called)] else []
  }

  /** A trigger: while one may fire, all listed signals are called and released. */
  ghost function Shot(b: Books, i: nat, reason: nat, expired: bool, next: Sync): Books
    requires i < |b.states| == |b.lists|
  {
    Books(b.states[i := next], if b.states[i].canTrigger then b.lists[i := []] else b.lists,
          b.marks + ShotMarks(b.states[i], i, reason, expired, b.lists[i]))
  }

  /** What one event does. */
  ghost function Entry(b: Books, event: Event): (r: Books)
    requires event.index < |b.states| == |b.lists|
    ensures |r.states| == |r.lists| == |b.states|
  {
    var i, s := event.index, b.states[event.index];
    match event
    case Add(_, signal) =>
      if IsListed(b.lists, signal) then b
      else b.(lists := b.lists[i := [signal] + b.lists[i]], marks := b.marks + [Joined(i, signal)])
    case Begin(_, clock, ticks, reason) =>
      Books(b.states[i := s.Started(clock, ticks, reason)], b.lists[i := []], b.marks + [Began(i, reason)])
    case Timeout(_, clock) =>
      if s.canTrigger
      then b.(states := b.states[i := s.(expireAt := Some(clock))], marks := b.marks + [Timed(i, clock)])
      else b
    case Remind(_) =>
      if s.reportAt.Some?
      then b.(states := b.states[i := s.(report := true, reportAt := Some(Wrap(s.reportAt.value + s.reportTicks)))])
      else b
    case Expire(_) =>
      if s.expireAt.Some?
      then Shot(b, i, s.expireReason, true, s.Triggered(s.expireReason).(expireAt := None))
      else b
    case Trip(_, reason) => Shot(b, i, reason, false, s.Triggered(reason))
    case Finish(_, reason) =>
      var t := s.Triggered(reason).(report := false, reportAt := None, expireAt := None);
      var shot := Shot(b, i, reason, false, t);
      shot.(marks := shot.marks + [Told(i, false, t.triggerReason)])
    case Send(_) =>
      b.(states := b.states[i := s.(report := false)],
        marks := b.marks + if s.report then [Told(i, s.canTrigger, s.triggerReason)] else [])
    case Reset(_) => Books(b.states[i := s.Cleared()], b.lists[i := []], b.marks + [Ended(i)])
  }

  ghost function Ledger(b: Books, events: seq<Event>): (r: Books)
    requires |b.states| == |b.lists| && forall k :: 0 <= k < |events| ==> events[k].index < |b.states|
    ensures |r.states| == |r.lists| == |b.states|
  {
    if events == [] then b else Entry(Ledger(b, events[..|events| - 1]), events[|events| - 1])
  }

  lemma EmptyLedger(b: Books, events: seq<Event>)
    requires |b.states| == |b.lists| && events == []
    ensures Ledger(b, events) == b
  {
  }

  lemma LedgerMore(b: Books, events: seq<Event>, k: nat)
    requires |b.states| == |b.lists| && k < |events|
    requires forall j :: 0 <= j < |events| ==> events[j].index < |b.states|
    ensures Ledger(b, events[..k + 1]) == Entry(Ledger(b, events[..k]), events[k])
  {
    assert events[..k + 1][..k] == events[..k];
  }

  /** What an event does depends on the notes only in that it adds to them. */
  lemma EntryMarks(b: Books, event: Event, marks: seq<Mark>)
    requires event.index < |b.states| == |b.lists| && b.marks == []
    ensures var r := Entry(b, event);
            Entry(b.(marks := marks), event) == r.(marks := marks + r.marks)
  {
    hide IsListed;
    assert marks + [] == marks;
  }

  /** Which notes an event can leave. */
  ghost predicate From(event: Event, mark: Mark) {
    && mark.index == event.index
    && match mark
       case Began(_, expireReason) => event.Begin? && event.expireReason == expireReason
       case Joined(_, signal) => event.Add? && event.signal == signal
       case Timed(_, clock) => event.Timeout? && event.clock == clock
       case Fired(_, reason, expired, _) =>
         if expired then event.Expire? else (event.Trip? || event.Finish?) && event.reason == reason
       case Told(_, _, _) => event.Finish? || event.Send?
       case Ended(_) => event.Reset?
  }

  /** Every event leaves only its own notes, and a start, a clear and a finish are always noted. */
  lemma LedgerNotes(b: Books, events: seq<Event>, k: nat) returns (notes: seq<Mark>)
    requires |b.states| == |b.lists| && k < |events|
    requires forall j :: 0 <= j < |events| ==> events[j].index < |b.states|
    ensures Ledger(b, events[..k + 1]).marks == Ledger(b, events[..k]).marks + notes
    ensures forall j :: 0 <= j < |notes| ==> From(events[k], notes[j])
    ensures events[k].Begin? || events[k].Reset? ==> |notes| == 1
    ensures events[k].Finish? ==> notes != [] && notes[|notes| - 1].Told?
  {
    hide IsListed;
    LedgerMore(b, events, k);
    var was := Ledger(b, events[..k]);
    EntryMarks(was.(marks := []), events[k], was.marks);
    notes := Entry(was.(marks := []), events[k]).marks;
  }

  /** The last start, trigger or clear of trsync `i`. */
  ghost function Latest(marks: seq<Mark>, i: nat): Option<Mark> {
    if marks == [] then None
    else
      var last := marks[|marks| - 1];
      if last.index == i && last.Turn() then Some(last) else Latest(marks[..|marks| - 1], i)
  }

  /** The timeout of trsync `i` set last, unless it was started or cleared since. */
  ghost function Timer(marks: seq<Mark>, i: nat): Option<uint32> {
    if marks == [] then None
    else
      var last := marks[|marks| - 1];
      if last.index == i && last.Timed? then Some(last.clock)
      else if last.index == i && (last.Began? || last.Ended?) then None
      else Timer(marks[..|marks| - 1], i)
  }

  /** The signals added to trsync `i` since its last start, trigger or clear, latest first. */
  ghost function Joiners(marks: seq<Mark>, i: nat): seq<Signal> {
    if marks == [] then []
    else
      var last := marks[|marks| - 1];
      var before := marks[..|marks| - 1];
      if last.index == i && last.Turn() then []
      else if last.index == i && last.Joined? then [last.signal] + Joiners(before, i)
      else Joiners(before, i)
  }

  /**
   One trigger per start, and its reason is the one reported: a trigger fires only if a
   start was the last thing to happen. It calls exactly the signals added since then. If it
   is a timeout, one was set since then, and the reason is the one given at the start. What
   the host is told is whether a trigger may still fire and, once one has, its reason.
   */
  ghost predicate OneShot(marks: seq<Mark>) {
    forall k :: 0 <= k < |marks| ==> Fits(marks[..k], marks[k])
  }

  ghost predicate Fits(marks: seq<Mark>, mark: Mark) {
    var latest := Latest(marks, mark.index);
    var started := latest.Some? && latest.value.Began?;
    match mark
    case Timed(i, _) => started
    case Fired(i, reason, expired, called) =>
      && started && called == Joiners(marks, i)
      && (expired ==> reason == latest.value.expireReason && Timer(marks, i).Some?)
    case Told(_, canTrigger, reason) =>
      && canTrigger == started
      && (latest.Some? ==> reason == if latest.value.Fired? then latest.value.reason else 0)
    case _ => true
  }

  /** The state, its timeout and its list are those the notes lead to. */
  ghost predicate Tracks(s: Sync, list: seq<Signal>, latest: Option<Mark>, timer: Option<uint32>, joiners: seq<Signal>) {
    && (latest.None? ==> !s.canTrigger)
    && (latest.Some? ==>
          && s.canTrigger == latest.value.Began? && list == joiners
          && s.triggerReason == (if latest.value.Fired? then latest.value.reason else 0)
          && (latest.value.Began? ==> s.expireReason == latest.value.expireReason && s.expireAt == timer))
  }

  lemma MarkAdded(marks: seq<Mark>, mark: Mark)
    requires OneShot(marks) && Fits(marks, mark)
    ensures OneShot(marks + [mark])
    ensures forall i :: Latest(marks + [mark], i) == if mark.index == i && mark.Turn() then Some(mark) else Latest(marks, i)
    ensures forall i :: Timer(marks + [mark], i) ==
              if mark.index == i && mark.Timed? then Some(mark.clock)
              else if mark.index == i && (mark.Began? || mark.Ended?) then None else Timer(marks, i)
    ensures forall i :: Joiners(marks + [mark], i) ==
              if mark.index == i && mark.Turn() then []
              else if mark.index == i && mark.Joined? then [mark.signal] + Joiners(marks, i) else Joiners(marks, i)
  {
    hide Fits;
    var longer := marks + [mark];
    assert longer[..|marks|] == marks;
    assert forall k :: 0 <= k < |marks| ==> longer[..k] == marks[..k];
  }

  ghost predicate AllTrack(b: Books) {
    |b.states| == |b.lists| &&
    forall i :: 0 <= i < |b.states| ==>
      Tracks(b.states[i], b.lists[i], Latest(b.marks, i), Timer(b.marks, i), Joiners(b.marks, i))
  }

  lemma EntryOneShot(b: Books, event: Event)
    requires event.index < |b.states| == |b.lists| && OneShot(b.marks) && AllTrack(b)
    ensures OneShot(Entry(b, event).marks) && AllTrack(Entry(b, event))
  {
    hide IsListed, OneShot, Latest, Timer, Joiners;
    var i, s := event.index, b.states[event.index];
    var r := Entry(b, event);
    assert b.marks + [] == b.marks;
    match event
    case Begin(_, _, _, reason) => MarkAdded(b.marks, Began(i, reason));
    case Reset(_) => MarkAdded(b.marks, Ended(i));
    case Expire(_) => if s.expireAt.Some? && s.canTrigger { MarkAdded(b.marks, Fired(i, s.expireReason, true, b.lists[i])); }
    case Trip(_, reason) => if s.canTrigger { MarkAdded(b.marks, Fired(i, reason, false, b.lists[i])); }
    case Finish(_, reason) =>
      var shot := Shot(b, i, reason, false, s.Triggered(reason));
      if s.canTrigger { MarkAdded(b.marks, Fired(i, reason, false, b.lists[i])); }
      MarkAdded(shot.marks, Told(i, false, s.Triggered(reason).triggerReason));
    case Send(_) => if s.report { MarkAdded(b.marks, Told(i, s.canTrigger, s.triggerReason)); }
    case Add(_, signal) => if r != b { MarkAdded(b.marks, Joined(i, signal)); }
    case Timeout(_, clock) => if s.canTrigger { MarkAdded(b.marks, Timed(i, clock)); }
    case Remind(_) =>
  }

  /**
   Over every sequence of events from a disarmed board: one trigger per start, of the
   signals added since, for the right reason, and that reason told.
   */
  lemma {:induction false} LedgerOneShot(b: Books, events: seq<Event>)
    requires |b.states| == |b.lists| && forall k :: 0 <= k < |events| ==> events[k].index < |b.states|
    requires b.marks == [] && forall i :: 0 <= i < |b.states| ==> !b.states[i].canTrigger
    ensures OneShot(Ledger(b, events).marks) && AllTrack(Ledger(b, events))
  {
    if events != [] {
      LedgerOneShot(b, events[..|events| - 1]);
      EntryOneShot(Ledger(b, events[..|events| - 1]), events[|events| - 1]);
    }
  }

  /** The last note about trsync `i`. */
  ghost function LastNote(marks: seq<Mark>, i: nat): Option<Mark> {
    if marks == [] then None
    else if marks[|marks| - 1].index == i then Some(marks[|marks| - 1])
    else LastNote(marks[..|marks| - 1], i)
  }

  /** A trigger that has not been told is due for a report. */
  ghost predicate Owing(b: Books) {
    forall i :: 0 <= i < |b.states| && LastNote(b.marks, i).Some? && LastNote(b.marks, i).value.Fired? ==>
      b.states[i].report && !b.states[i].canTrigger && b.states[i].triggerReason == LastNote(b.marks, i).value.reason
  }

  lemma NoteAdded(marks: seq<Mark>, mark: Mark)
    ensures forall i :: LastNote(marks + [mark], i) == if mark.index == i then Some(mark) else LastNote(marks, i)
  {
    assert (marks + [mark])[..|marks|] == marks;
  }

  lemma EntryOwing(b: Books, event: Event)
    requires event.index < |b.states| == |b.lists| && Owing(b)
    ensures Owing(Entry(b, event))
  {
    hide IsListed, LastNote;
    var i, s := event.index, b.states[event.index];
    var r := Entry(b, event);
    assert b.marks + [] == b.marks;
    match event
    case Begin(_, _, _, reason) => NoteAdded(b.marks, Began(i, reason));
    case Reset(_) => NoteAdded(b.marks, Ended(i));
    case Expire(_) => if s.expireAt.Some? && s.canTrigger { NoteAdded(b.marks, Fired(i, s.expireReason, true, b.lists[i])); }
    case Trip(_, reason) => if s.canTrigger { NoteAdded(b.marks, Fired(i, reason, false, b.lists[i])); }
    case Finish(_, reason) =>
      var shot := Shot(b, i, reason, false, s.Triggered(reason));
      if s.canTrigger { NoteAdded(b.marks, Fired(i, reason, false, b.lists[i])); }
      NoteAdded(shot.marks, Told(i, false, s.Triggered(reason).triggerReason));
    case Send(_) => if s.report { NoteAdded(b.marks, Told(i, s.canTrigger, s.triggerReason)); }
    case Add(_, signal) => if r != b { NoteAdded(b.marks, Joined(i, signal)); }
    case Timeout(_, clock) => if s.canTrigger { NoteAdded(b.marks, Timed(i, clock)); }
    case Remind(_) =>
  }

  lemma {:induction false} LedgerOwing(b: Books, events: seq<Event>)
    requires |b.states| == |b.lists| && forall k :: 0 <= k < |events| ==> events[k].index < |b.states|
    requires b.marks == []
    ensures Owing(Ledger(b, events))
  {
    if events != [] {
      LedgerOwing(b, events[..|events| - 1]);
      EntryOwing(Ledger(b, events[..|events| - 1]), events[|events| - 1]);
    }
  }

  /** Whatever happened before: a trigger that was the last thing noted is told when the trsync's turn comes. */
  lemma TriggerIsTold(b: Books, events: seq<Event>, i: nat)
    requires |b.states| == |b.lists| && forall k :: 0 <= k < |events| ==> events[k].index < |b.states|
    requires b.marks == [] && i < |b.states|
    requires var last := LastNote(Ledger(b, events).marks, i); last.Some? && last.value.Fired?
    ensures Ledger(b, events + [Send(i)]).marks ==
            Ledger(b, events).marks + [Told(i, false, LastNote(Ledger(b, events).marks, i).value.reason)]
  {
    LedgerOwing(b, events);
    assert (events + [Send(i)])[..|events|] == events;
  }

  /** What the host is told: `trsync_state`. */
  datatype State = State(canTrigger: bool, reason: nat)

  /** What can happen to a trsync; `Trip` stands for an endstop or any other caller of a trigger. */
  datatype Event =
    | Add(index: nat, signal: Signal)
    | Begin(index: nat, clock: uint32, ticks: uint32, expireReason: nat)
    | Timeout(index: nat, clock: uint32)
    | Remind(index: nat)
    | Expire(index: nat)
    | Trip(index: nat, reason: nat)
    | Finish(index: nat, reason: nat)
    | Send(index: nat)
    | Reset(index: nat)

  lemma OneReason(ts: Trsync)
    requires ts.Armed()
    ensures ts.fired != [] ==> ts.fired == [ts.state.triggerReason]
  {
  }

  /** The loop of `trsync_clear`. */
  method SilenceAll(head: Signal?, ghost list: seq<Signal>)
    requires Linked(head, list) && Distinct(list)
    modifies list
    ensures forall k :: 0 <= k < |list| ==> !list[k].active && list[k].next == null
  {
    var tss := head;
    ghost var k := 0;
    while tss != null
      invariant 0 <= k <= |list| && tss == (if k == |list| then null else list[k])
      invariant forall j :: 0 <= j < k ==> !list[j].active && list[j].next == null
      invariant forall j :: k <= j < |list| ==> list[j].next == old(list[j].next)
      decreases |list| - k
    {
      var next := tss.next;
      tss.active, tss.next := false, null;
      tss := next;
      k := k + 1;
    }
  }

  method Push(ts: Trsync, tss: Signal, ghost list: seq<Signal>)
    requires Linked(ts.signals, list) && tss !in list && ts.Armed()
    modifies ts`signals, tss
    ensures Linked(ts.signals, [tss] + list) && ts.Armed() && tss.active
  {
    tss.active := true;
    tss.next := ts.signals;
    ts.signals := tss;
  }
}
