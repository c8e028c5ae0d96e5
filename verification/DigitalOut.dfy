/**
 Timed digital outputs and software PWM of `src/gpiocmds.c`. The fields are those of
 `struct digital_out_s`; the ghost fields are the true times behind the wrapped ones,
 and the history of the output.
 */
module DigitalOuts {
  import opened Ticks

  datatype Func = Load | Toggle

  /** `struct digital_move`. */
  datatype Update = Update(waketime: uint32, onDuration: uint32)

  /** An update as the host meant it: at a true clock. */
  datatype Request = Request(clock: int, onDuration: uint32)

  datatype Applied = Applied(at: int, request: Request)

  ghost predicate InOrder(requests: seq<Request>) {
    forall k {:trigger requests[k]} :: 0 < k < |requests| ==>
      requests[k - 1].clock <= requests[k].clock < requests[k - 1].clock + HALF
  }

  /** The ideal pulse train: on for the first `on` ticks of every cycle since `start`. */
  predicate IdealLevel(start: int, on: int, cycle: int, u: int)
    requires cycle > 0
  {
    (u - start) % cycle < on
  }

  /** `start` is a whole number of cycles after `load`. */
  ghost predicate CycleStart(load: int, cycle: int, start: int) {
    exists periods: nat :: Whole(load, cycle, start, periods)
  }

  ghost predicate Whole(load: int, cycle: int, start: int, periods: nat) {
    start == load + periods * cycle
  }

  lemma FirstCycle(load: int, cycle: int)
    ensures CycleStart(load, cycle, load)
  {
    assert Whole(load, cycle, load, 0);
  }

  lemma NextCycle(load: int, cycle: int, start: int)
    requires CycleStart(load, cycle, start)
    ensures CycleStart(load, cycle, start + cycle)
  {
    var periods: nat :| Whole(load, cycle, start, periods);
    assert (periods + 1) * cycle == periods * cycle + cycle;
    assert Whole(load, cycle, start + cycle, periods + 1);
  }

  lemma LevelInPeriod(load: int, on: int, cycle: int, start: int, u: int)
    requires 0 < on < cycle && CycleStart(load, cycle, start) && start <= u < start + cycle
    ensures IdealLevel(load, on, cycle, u) <==> u < start + on
  {
    var periods: nat :| Whole(load, cycle, start, periods);
    var rest := u - load - periods * cycle;
    Remainder(periods, cycle, rest);
  }

  lemma Remainder(periods: nat, cycle: int, rest: int)
    requires 0 <= rest < cycle
    ensures (periods * cycle + rest) % cycle == rest
  {
    var x := periods * cycle + rest;
    Unique(periods, x / cycle, rest, x % cycle, cycle);
  }

  lemma Unique(p: int, q: int, r: int, m: int, cycle: int)
    requires p * cycle + r == q * cycle + m && 0 <= r < cycle && 0 <= m < cycle
    ensures r == m
  {
    if p < q {
      Grows(p, q, cycle);
    } else if q < p {
      Grows(q, p, cycle);
    }
  }

  lemma {:induction false} Grows(p: int, q: int, cycle: int)
    requires p < q && cycle > 0
    ensures p * cycle + cycle <= q * cycle
    decreases q - p
  {
    assert q * cycle == (q - 1) * cycle + cycle;
    if p < q - 1 {
      Grows(p, q - 1, cycle);
    }
  }

  /** The requests accepted, those still queued, and those that took effect. */
  datatype History = History(sent: seq<Request>, pending: seq<Request>, log: seq<Applied>)

  /** Requests take effect in order, each exactly at its clock. */
  ghost predicate Punctual(h: History) {
    && |h.sent| == |h.log| + |h.pending|
    && (forall k :: 0 <= k < |h.log| ==> h.log[k].request == h.sent[k] && h.log[k].at == h.sent[k].clock)
    && h.pending == h.sent[|h.log|..]
  }

  ghost predicate Queued(mq: seq<Update>, pending: seq<Request>) {
    && |mq| == |pending|
    && (forall k :: 0 <= k < |mq| ==> mq[k] == Update(Wrap(pending[k].clock), pending[k].onDuration))
  }

  datatype Flags = Flags(on: bool, toggling: bool, checkEnd: bool)

  datatype Timer = Timer(waketime: uint32, func: Func, scheduled: bool)

  /**
   The true times: of the last thing that happened, of the timer, of the end of the
   present setting, of its load and of its present cycle.
   */
  datatype Times = Times(now: int, wake: int, end: int, load: int, start: int)

  /** The present setting of an output; `pulse` and `cycle` are those of its load. */
  datatype Setting = Setting(
    pin: bool, flags: Flags, timer: Timer, endTime: uint32, onDuration: uint32, offDuration: uint32,
    pulse: uint32, cycle: uint32, times: Times)
  {
    predicate Stamps() {
      && (timer.scheduled ==> timer.waketime == Wrap(times.wake))
      && (flags.checkEnd ==> endTime == Wrap(times.end))
    }

    predicate Timing() {
      && times.load <= times.now
      && (timer.scheduled ==> times.now <= times.wake < times.now + HALF && (flags.checkEnd || timer.func == Toggle))
      && (flags.checkEnd ==> timer.scheduled && times.wake <= times.end < times.now + HALF)
      && (flags.checkEnd && timer.func == Load ==> times.wake == times.end)
      && (timer.scheduled && timer.func == Toggle ==> flags.toggling && (flags.checkEnd ==> times.wake < times.end))
    }

    /** While toggling, the pin follows the ideal pulse train up to the next event. */
    ghost predicate Pulsing() {
      && pin == flags.on
      && (flags.toggling ==>
            && timer.scheduled && 0 < pulse < cycle < HALF && CycleStart(times.load, cycle, times.start)
            && (pin ==> times.start <= times.now && times.wake <= times.start + pulse)
            && (!pin ==> times.start + pulse <= times.now && times.wake <= times.start + cycle)
            && (timer.func == Toggle ==>
                  && onDuration == pulse && offDuration == cycle - pulse
                  && times.wake == times.start + if pin then pulse else cycle))
    }

    ghost predicate Sound() {
      Stamps() && Timing() && Pulsing()
    }

    /** The next request is loaded exactly at its clock; without one, a setting ends at its limit. */
    predicate Awaits(pending: seq<Request>, maxDuration: uint32) {
      && (pending != [] ==> flags.checkEnd && pending[0].clock == times.end)
      && (pending == [] && flags.checkEnd ==> times.end == times.load + maxDuration)
    }

    predicate AtDefault(defaultOn: bool) {
      !flags.toggling && flags.on == defaultOn
    }

    /** With a limit set, an output away from its default is due for a load or a shutdown in time. */
    predicate Limited(defaultOn: bool, maxDuration: uint32) {
      maxDuration != 0 && !AtDefault(defaultOn) ==> flags.checkEnd && times.end <= times.load + maxDuration
    }

    /** The point of the limit: the output is never away from its default for longer. */
    lemma NeverTooLong(defaultOn: bool, maxDuration: uint32)
      requires Sound() && Limited(defaultOn, maxDuration) && maxDuration != 0 && !AtDefault(defaultOn)
      ensures timer.scheduled && times.now <= times.wake <= times.end <= times.load + maxDuration
    {
    }

    /** The level of the pin at every instant up to the next event. */
    lemma FollowsPulses(u: int)
      requires Sound() && flags.toggling && times.now <= u < times.wake
      ensures pin <==> IdealLevel(times.load, pulse, cycle, u)
    {
      LevelInPeriod(times.load, pulse, cycle, times.start, u);
    }

    /** The edge of a pulse, and the next event after it. */
    function AfterEdge(): Times
      requires flags.toggling
    {
      var next := times.wake + if pin then offDuration else onDuration;
      Times(times.wake, if flags.checkEnd && times.end <= next then times.end else next, times.end, times.load,
            if pin then times.start else times.start + cycle)
    }

    /** Time passes without an event. */
    lemma Later(at: int)
      requires Sound() && times.now <= at && (timer.scheduled ==> at <= times.wake)
      ensures this.(times := times.(now := at)).Sound() && times.load <= at
    {
    }

    /** The true time of the timer can be told from its wrapped one. */
    lemma TrueWake()
      requires Sound() && timer.scheduled
      ensures times.wake == times.now + Wrap(timer.waketime - Wrap(times.now)) && times.now <= times.wake
    {
      hide CycleStart, Wrap;
      WrapDifference(times.wake, times.now);
      WrapSmall(times.wake - times.now);
    }

    lemma Compares(clock: int)
      requires Sound() && times.now <= clock < times.now + HALF
      ensures flags.checkEnd ==> (IsBefore(endTime, Wrap(clock)) <==> times.end < clock)
      ensures timer.scheduled ==> (IsBefore(timer.waketime, Wrap(clock)) <==> times.wake < clock)
      ensures flags.toggling ==> timer.scheduled
    {
      hide CycleStart, IsBefore, Wrap;
      if flags.checkEnd {
        ComparesTrue(times.end, clock);
      }
      if timer.scheduled {
        ComparesTrue(times.wake, clock);
      }
    }

    /** The present setting now ends at `clock`: pulses before it stay as they are. */
    function Retargeted(clock: int): Setting {
      if flags.toggling && times.wake < clock then
        this.(endTime := Wrap(clock), flags := flags.(checkEnd := true), times := times.(end := clock))
      else
        this.(endTime := Wrap(clock), flags := flags.(checkEnd := true), times := times.(end := clock, wake := clock),
          timer := Timer(Wrap(clock), Load, true))
    }

    lemma Retargets(clock: int)
      requires Sound() && times.now <= clock < times.now + HALF && (flags.checkEnd ==> clock <= times.end)
      ensures Retargeted(clock).Sound()
    {
      hide CycleStart, Wrap;
    }

    lemma LoadTime()
      requires Sound() && timer.scheduled && timer.func == Load
      ensures timer.waketime == Wrap(times.wake) && times.wake == times.end && flags.checkEnd
    {
    }

    lemma EdgeTime()
      requires Sound() && timer.scheduled && timer.func == Toggle
      ensures var length := if pin then offDuration else onDuration;
              var wake := Wrap(timer.waketime + length);
              && wake == Wrap(times.wake + length) && length > 0
              && (flags.checkEnd ==> (IsBefore(wake, endTime) <==> times.wake + length < times.end))
      ensures pin == flags.on && flags.toggling && (flags.checkEnd ==> endTime == Wrap(times.end))
    {
      hide CycleStart;
      var length := if pin then offDuration else onDuration;
      WrapSum(times.wake, length);
      if flags.checkEnd {
        ComparesTrue(times.wake + length, times.end);
      }
    }

    lemma EdgeKeeps(timer': Timer)
      requires Sound() && timer.scheduled && timer.func == Toggle && timer'.scheduled
      requires timer'.waketime == Wrap(AfterEdge().wake)
      requires timer'.func == if flags.checkEnd && AfterEdge().wake == times.end then Load else Toggle
      ensures this.(pin := !pin, flags := flags.(on := !flags.on), timer := timer', times := AfterEdge()).Sound()
    {
      hide CycleStart, Wrap;
      NextCycle(times.load, cycle, times.start);
    }
  }

  class DigitalOut {
    const maxDuration: uint32
    const defaultOn: bool                 // DF_DEFAULT_ON
    var cycleTime: uint32
    var pin: bool
    var flags: Flags
    var timer: Timer
    var onDuration: uint32
    var offDuration: uint32
    var endTime: uint32
    var mq: seq<Update>
    var halted: bool
    ghost var times: Times
    ghost var pulse: uint32
    ghost var cycle: uint32
    ghost var history: History

    ghost function Present(): Setting
      reads this
    {
      Setting(pin, flags, timer, endTime, onDuration, offDuration, pulse, cycle, times)
    }

    ghost predicate Valid()
      reads this
    {
      && Present().Sound() && Present().Awaits(history.pending, maxDuration)
      && Punctual(history) && Queued(mq, history.pending) && InOrder(history.pending)
      && maxDuration < HALF && cycleTime < HALF
      && (halted ==> !timer.scheduled && Present().AtDefault(defaultOn))
    }

    ghost predicate Limited()
      reads this
    {
      Present().Limited(defaultOn, maxDuration)
    }

    /** What the simple output of module level is compared with. */
    ghost function Seen(): View
      reads this
    {
      View(halted, pin, flags.toggling, flags.checkEnd, pulse, cycle, cycleTime, times.load,
           history.pending, history.log)
    }

    ghost function Rules(): Config {
      Config(maxDuration, defaultOn)
    }

    /** `config_digital_out`. An output set away from its default is not limited yet. */
    constructor (value: bool, defaultValue: bool, maxDuration: uint32, ghost at: int)
      requires maxDuration < HALF
      ensures Valid() && !halted && pin == value && times.now == at && history == History([], [], [])
      ensures this.maxDuration == maxDuration && defaultOn == defaultValue
      ensures Limited() <==> (maxDuration == 0 || value == defaultValue)
      ensures Shows(Seen(), Running(at, if value then 1 else 0, 0, false, 0, [], []))
    {
      this.maxDuration, defaultOn, cycleTime := maxDuration, defaultValue, 0;
      pin, flags, timer := value, Flags(value, false, false), Timer(0, Load, false);
      onDuration, offDuration, endTime := 0, 0, 0;
      mq, halted := [], false;
      times, pulse, cycle, history := Times(at, at, at, at, at), 0, 0, History([], [], []);
    }

    /** `digital_out_shutdown`, with the timers dropped by `sched_timer_reset`. */
    method Shutdown()
      requires Punctual(history) && maxDuration < HALF && cycleTime < HALF && times.load <= times.now
      modifies this`pin, this`flags, this`timer, this`mq, this`halted, this`history
      ensures Valid() && halted && Present().AtDefault(defaultOn) && pin == defaultOn
      ensures times == old(times) && history.log == old(history.log) && history.pending == []
    {
      pin, flags := defaultOn, Flags(defaultOn, false, false);
      timer := timer.(scheduled := false);
      mq, halted := [], true;
      history := History(history.sent[..|history.log|], [], history.log);
    }

    /** `digital_toggle_event`. */
    method ToggleEvent()
      requires Valid() && timer.scheduled && timer.func == Toggle
      modifies this`pin, this`flags, this`timer, this`times
      ensures Valid() && timer.scheduled && pin == !old(pin) && flags == old(flags).(on := pin)
      ensures times.now == old(times.wake) < times.wake && times.load == old(times.load) && times.end == old(times.end)
      ensures old(Limited()) ==> Limited()
    {
      hide Wrap, IsBefore, InOrder, CycleStart, Punctual, Queued;
      hide Present().Stamps, Present().Pulsing;
      ghost var before := Present();
      before.EdgeTime();
      pin := !pin;
      flags := flags.(on := !flags.on);
      var wake := Wrap(timer.waketime + (if flags.on then onDuration else offDuration));
      var func := Toggle;
      if flags.checkEnd && !IsBefore(wake, endTime) {
        func := Load;
        wake := endTime;
      }
      timer := timer.(waketime := wake, func := func);
      times := before.AfterEdge();
      before.EdgeKeeps(timer);
    }

    /**
     The middle of `digital_load_event`: the flags and the end of the setting that is
     loaded at `t`, given what is still queued. It fails if the limit would be exceeded.
     */
    method Bounds(onTime: uint32, waketime: uint32, rest: seq<Update>, ghost t: int, ghost pending: seq<Request>)
      returns (ok: bool, toggling: bool, checkEnd: bool, end: uint32, ghost endAt: int)
      requires waketime == Wrap(t) && Queued(rest, pending) && maxDuration < HALF
      requires pending != [] ==> t <= pending[0].clock < t + HALF
      ensures toggling == (0 < onTime < cycleTime)
      ensures ok <==> !(Away(onTime) && maxDuration != 0 && pending != [] && t + maxDuration < pending[0].clock)
      ensures ok ==> checkEnd == (pending != [] || (Away(onTime) && maxDuration != 0))
      ensures ok && checkEnd ==> end == Wrap(endAt) && t <= endAt < t + HALF
      ensures ok && pending != [] ==> endAt == pending[0].clock
      ensures ok && Away(onTime) && maxDuration != 0 ==> endAt <= t + maxDuration
      ensures ok && pending == [] && checkEnd ==> endAt == t + maxDuration
    {
      end, endAt, ok := 0, t, true;
      var flag := onTime != 0;
      if !flag || onTime >= cycleTime {
        toggling, checkEnd := false, !flag != !defaultOn && maxDuration != 0;
      } else {
        toggling, checkEnd := true, maxDuration != 0;
      }
      if checkEnd {
        WrapSum(t, maxDuration);
        end, endAt := Wrap(waketime + maxDuration), t + maxDuration;
      }
      if |rest| > 0 {
        var wake := rest[0].waketime;
        ComparesTrue(endAt, pending[0].clock);
        if checkEnd && IsBefore(end, wake) {
          return false, toggling, checkEnd, end, endAt;
        }
        end, endAt, checkEnd := wake, pending[0].clock, true;
      }
    }

    /** Whether a setting is something else than constantly the default. */
    predicate Away(onTime: uint32)
      reads this`cycleTime
    {
      0 < onTime < cycleTime || (onTime != 0) != defaultOn
    }

    /** The end of `digital_load_event`: the next event of the setting loaded at `t`. */
    method Schedule(onTime: uint32, toggling: bool, checkEnd: bool, end: uint32, ghost t: int, ghost endAt: int)
      requires timer.waketime == Wrap(t) && timer.func == Load && timer.scheduled && pin == (onTime != 0)
      requires toggling == (0 < onTime < cycleTime) && cycleTime < HALF
      requires checkEnd ==> end == Wrap(endAt) && t <= endAt < t + HALF
      modifies this`flags, this`timer, this`endTime, this`onDuration, this`offDuration
      modifies this`times, this`pulse, this`cycle
      ensures Present().Sound() && flags == Flags(onTime != 0, toggling, checkEnd) && times.now == times.load == t
      ensures checkEnd ==> times.end == endAt
      ensures timer.scheduled == (toggling || checkEnd) && pulse == onTime && cycle == cycleTime
    {
      hide CycleStart, IsBefore;
      endTime, flags := end, Flags(onTime != 0, toggling, checkEnd);
      pulse, cycle := onTime, cycleTime;
      FirstCycle(t, cycleTime);
      if !toggling {
        times := Times(t, endAt, endAt, t, t);
        if !checkEnd {
          timer := timer.(scheduled := false);
          return;
        }
        timer := timer.(waketime := end);
        return;
      }
      var wake := Wrap(timer.waketime + onTime);
      WrapSum(t, onTime);
      if checkEnd {
        ComparesTrue(t + onTime, endAt);
      }
      if checkEnd && !IsBefore(wake, end) {
        timer := timer.(waketime := end);
        times := Times(t, endAt, endAt, t, t);
        return;
      }
      timer := timer.(waketime := wake, func := Toggle);
      onDuration, offDuration := onTime, cycleTime - onTime;
      times := Times(t, t + onTime, endAt, t, t);
    }

    /**
     `digital_load_event`: the next request takes effect, exactly at its clock. It fails
     with a shutdown if nothing is queued or what follows would exceed the limit.
     */
    method LoadEvent() returns (ok: bool)
      requires Valid() && timer.scheduled && timer.func == Load
      modifies this
      ensures Valid() && times.now == old(times.wake) && cycleTime == old(cycleTime) && old(history.log) <= history.log
      ensures Shrinks(old(history.pending), history.pending)
      ensures ok <==> (old(history.pending) != [] && !TooFar(old(history.pending)))
      ensures ok ==> times.load == times.now && history == Took(old(history), times.now) && !halted && Limited()
      ensures ok ==>
                var onTime := old(history.pending)[0].onDuration;
                && pin == (onTime != 0) && flags.toggling == (0 < onTime < cycleTime)
                && pulse == onTime && cycle == cycleTime
                && (history.pending == [] ==> (flags.checkEnd <==> Away(onTime) && maxDuration != 0))
      ensures !ok ==> halted && pin == defaultOn
      ensures !ok ==>
                history.log == if old(history.pending) == [] then old(history.log) else Took(old(history), times.now).log
    {
      hide Wrap, IsBefore, InOrder, CycleStart, Punctual, Queued;
      hide Present().Stamps, Present().Pulsing;
      Present().LoadTime();
      ghost var t := times.wake;
      ghost var pending := history.pending;
      NextRequest(mq, pending);
      times := times.(now := t);
      if |mq| == 0 {
        Shutdown();
        return false;
      }
      var m := mq[0];
      mq := mq[1..];
      pin := m.onDuration != 0;
      history := Took(history, t);
      Taking(old(history), t);
      var fits, toggling, checkEnd, end, endAt := Bounds(m.onDuration, timer.waketime, mq, t, pending[1..]);
      if !fits {
        Shutdown();
        return false;
      }
      Schedule(m.onDuration, toggling, checkEnd, end, t, endAt);
      return true;
    }

    /** A command can run at `at`: the timer has not fired since. */
    ghost predicate Ready(at: int)
      reads this
    {
      !halted && times.now <= at && (timer.scheduled ==> at <= times.wake)
    }

    /** `queue_digital_out`. It fails with a shutdown if the limit would be exceeded before `clock`. */
    method QueueUpdate(time: uint32, onTime: uint32, ghost at: int, ghost clock: int) returns (ok: bool)
      requires Valid() && Ready(at) && time == Wrap(clock)
      requires InOrder(history.pending + [Request(clock, onTime)])
      requires history.pending == [] ==> at <= clock < at + HALF
      modifies this
      ensures Valid() && times.now == at && cycleTime == old(cycleTime)
      ensures ok <==> !(old(history.pending) == [] && old(flags.checkEnd) && old(times.end) < clock)
      ensures ok ==> history == Sent(old(history), Request(clock, onTime)) && !halted && pin == old(pin)
      ensures ok ==> flags.toggling == old(flags.toggling) && times.load == old(times.load)
      ensures ok ==> pulse == old(pulse) && cycle == old(cycle)
      ensures ok && old(Limited()) ==> Limited()
      ensures !ok ==> halted && pin == defaultOn
      ensures history.log == old(history.log)
    {
      hide Wrap, IsBefore, InOrder, CycleStart, Punctual, Queued;
      hide Present().Stamps, Present().Pulsing, Present().Timing;
      ghost var request := Request(clock, onTime);
      ghost var before := Present();
      before.Later(at);
      times := times.(now := at);
      Sending(history, request);
      AppendUpdate(mq, history.pending, request);
      var first := |mq| == 0;
      if first {
        Present().Compares(clock);
        if flags.checkEnd && IsBefore(endTime, time) {
          Shutdown();
          return false;
        }
      }
      mq := mq + [Update(time, onTime)];
      history := Sent(history, request);
      if first {
        Retarget(time, clock);
      }
      return true;
    }

    /** The end of `queue_digital_out`, for the first update in the queue. */
    method Retarget(time: uint32, ghost clock: int)
      requires Present().Sound() && times.now <= clock < times.now + HALF && time == Wrap(clock)
      requires flags.checkEnd ==> clock <= times.end
      modifies this`endTime, this`timer, this`flags, this`times
      ensures Present() == old(Present()).Retargeted(clock) && Present().Sound()
    {
      hide Wrap, IsBefore, CycleStart;
      hide Present().Stamps, Present().Pulsing, Present().Timing;
      ghost var setting := Present();
      setting.Compares(clock);
      setting.Retargets(clock);
      endTime := time;
      if flags.toggling && IsBefore(timer.waketime, time) {
        // the toggle event schedules the load
      } else {
        timer := Timer(time, Load, true);
        times := times.(wake := clock);
      }
      flags := flags.(checkEnd := true);
      times := times.(end := clock);
    }

    /** `update_digital_out`: an immediate setting; not allowed while updates are queued. */
    method UpdateNow(value: bool, readTime: uint32, ghost at: int) returns (ok: bool)
      requires Valid() && Ready(at) && readTime == Wrap(at)
      modifies this
      ensures Valid() && times.now == at && cycleTime == old(cycleTime) && history.log == old(history.log)
      ensures ok <==> old(history.pending) == []
      ensures ok ==> history == old(history) && !halted && pin == value && !flags.toggling
      ensures ok ==> times.load == at && Limited() && flags.checkEnd == (value != defaultOn && maxDuration != 0)
      ensures !ok ==> halted && pin == defaultOn
    {
      hide Wrap, IsBefore, InOrder, CycleStart, Punctual, Queued;
      NextRequest(mq, history.pending);
      Present().Later(at);
      times := times.(now := at);
      if |mq| > 0 {
        Shutdown();
        return false;
      }
      pin := value;
      times := Times(at, at + maxDuration, at + maxDuration, at, at);
      if !value != !defaultOn && maxDuration != 0 {
        WrapSum(at, maxDuration);
        endTime := Wrap(readTime + maxDuration);
        timer := Timer(endTime, Load, true);
        flags := Flags(value, false, true);
      } else {
        timer := timer.(scheduled := false);
        flags := Flags(value, false, false);
      }
      return true;
    }

    /** `set_digital_out_pwm_cycle`: pulses under way keep their cycle. */
    method SetCycle(ticks: uint32, ghost at: int) returns (ok: bool)
      requires Valid() && Ready(at) && ticks < HALF
      modifies this
      ensures Valid() && times.now == at && history.log == old(history.log)
      ensures ok <==> old(history.pending) == []
      ensures ok ==> cycleTime == ticks && history == old(history) && !halted && pin == old(pin)
      ensures ok ==> times == old(times).(now := at) && (old(Limited()) ==> Limited())
      ensures ok ==> flags == old(flags) && pulse == old(pulse) && cycle == old(cycle)
      ensures !ok ==> halted && pin == defaultOn
    {
      hide Wrap, IsBefore, InOrder, CycleStart, Punctual;
      hide Present().Stamps, Present().Pulsing, Present().Timing;
      Present().Later(at);
      times := times.(now := at);
      if |mq| > 0 {
        Shutdown();
        return false;
      }
      cycleTime := ticks;
      return true;
    }

    // ----- whole runs ----------------------------------------------------------------------------

    /** The timer fires: an edge of a pulse, or the step of the simple output that is due. */
    method Fire(ghost sim: Sim)
      requires Valid() && timer.scheduled && !halted && Shows(Seen(), sim)
      modifies this
      ensures Valid() && times.now == old(times.wake) && (old(Limited()) ==> Limited())
      ensures old(history.log) <= history.log && Shrinks(old(history.pending), history.pending)
      ensures !halted ==> history.sent == old(history.sent)
      ensures !halted && old(timer.func) == Load ==> |mq| < |old(mq)|
      ensures !halted && old(timer.func) == Toggle ==> mq == old(mq) && timer.scheduled && old(times.wake) < times.wake
      ensures Shows(Seen(), if old(timer.func) == Load then Due(Rules(), sim) else sim)
    {
      hide InOrder, Punctual, CycleStart, Wrap;
      hide Present().Stamps, Present().Pulsing;
      if timer.func == Load {
        var _ := LoadEvent();
      } else {
        ToggleEvent();
      }
    }

    /** Time passes: the timer fires whenever it is due before `until`. */
    method Advance(from: int, until: int, ghost sim: Sim)
      requires Valid() && !halted && from == times.now <= until && Shows(Seen(), sim)
      modifies this
      ensures Valid() && times.now <= until && (halted || Ready(until)) && (old(Limited()) ==> Limited())
      ensures old(history.log) <= history.log && Shrinks(old(history.pending), history.pending)
      ensures !halted ==> history.sent == old(history.sent)
      ensures Shows(Seen(), Pass(Rules(), sim, until))
    {
      hide Valid, Limited, Wrap, Shows, Pass, Due;
      var now := from;
      ghost var at := sim;
      IfScheduled();
      ShowsHalted(Seen(), at);
      while !halted && timer.scheduled && now + Wrap(timer.waketime - Wrap(now)) < until
        invariant Valid() && now == times.now <= until && (old(Limited()) ==> Limited())
        invariant !halted && timer.scheduled ==> now <= times.wake == now + Wrap(timer.waketime - Wrap(now))
        invariant old(history.log) <= history.log && Shrinks(old(history.pending), history.pending)
        invariant !halted ==> history.sent == old(history.sent)
        invariant Shows(Seen(), at) && Pass(Rules(), at, until) == Pass(Rules(), sim, until)
        decreases if halted then 0 else |mq| + 1, until - times.wake
      {
        now := now + Wrap(timer.waketime - Wrap(now));
        if timer.func == Load {
          LoadIsDue(at, until);
        }
        ghost var load := timer.func == Load;
        Fire(at);
        at := if load then Due(Rules(), at) else at;
        IfScheduled();
      }
      NothingDue(at, until);
    }

    /** When a load event fires, the simple output has a step due. */
    lemma LoadIsDue(sim: Sim, until: int)
      requires Valid() && !halted && timer.scheduled && timer.func == Load && times.wake < until && Shows(Seen(), sim)
      ensures Pass(Rules(), Due(Rules(), sim), until) == Pass(Rules(), sim, until)
    {
      hide Present().Stamps, Present().Pulsing;
    }

    /** While the timer is not due, neither is a step of the simple output. */
    lemma NothingDue(sim: Sim, until: int)
      requires Valid() && Shows(Seen(), sim) && (!halted && timer.scheduled ==> until <= times.wake)
      ensures Pass(Rules(), sim, until) == sim
    {
      hide Present().Stamps, Present().Pulsing;
    }

    lemma IfScheduled()
      requires Valid()
      ensures timer.scheduled ==> times.wake == times.now + Wrap(timer.waketime - Wrap(times.now))
      ensures timer.scheduled ==> times.now <= times.wake
    {
      if timer.scheduled {
        Present().TrueWake();
      }
    }

    lemma FitsBehind(request: Request, at: int)
      requires Valid() && Ready(at) && at <= request.clock < at + HALF
      requires UpTo(history.pending, request.clock)
      ensures InOrder(history.pending + [request])
    {
      if history.pending != [] {
        FirstIsLeast(history.pending);
      }
    }

    /** One command, when it is due. */
    method Obey(command: Command, ghost last: int, ghost sim: Sim)
      requires Valid() && Ready(command.at) && command.Ahead(last) && UpTo(history.pending, last) && Shows(Seen(), sim)
      modifies this
      ensures Valid() && times.now == command.at && (old(Limited()) ==> Limited())
      ensures old(history.log) <= history.log && (!halted ==> UpTo(history.pending, command.Newest(last)))
      ensures !halted ==> history.sent == old(history.sent) + command.Requests()
      ensures Shows(Seen(), Do(Rules(), sim, command))
    {
      hide Valid, Wrap, InOrder;
      EndsAtLimit();
      match command.action {
        case Enqueue(clock, onTime) =>
          FitsBehind(Request(clock, onTime), command.at);
          var _ := QueueUpdate(Wrap(clock), onTime, command.at, clock);
        case Assign(value) =>
          var _ := UpdateNow(value, Wrap(command.at), command.at);
        case Recycle(ticks) =>
          var _ := SetCycle(ticks, command.at);
      }
      if halted {
        HaltedIsLimited();
      }
    }

    lemma EndsAtLimit()
      requires Valid()
      ensures history.pending == [] && flags.checkEnd ==> times.end == times.load + maxDuration
    {
    }

    lemma HaltedIsLimited()
      requires Valid() && halted
      ensures Limited()
    {
    }

    /** A request whose clock has passed has taken effect. */
    lemma NothingOverdue()
      requires Valid() && !halted
      ensures |history.log| <= |history.sent|
      ensures forall k :: |history.log| <= k < |history.sent| ==> times.now <= history.sent[k].clock
    {
      hide Present().Stamps, Present().Pulsing;
      forall k | |history.log| <= k < |history.sent|
        ensures times.now <= history.sent[k].clock
      {
        var j := k - |history.log|;
        assert history.pending[j] == history.sent[k];
        FirstIsLeast(history.pending[..j + 1]);
      }
    }

    /**
     Any run: commands at nondecreasing times, updates for nondecreasing clocks, and the
     timer firing whenever it is due. The output does what the simple output does with the
     same commands, a shutdown included. Every request sent has taken effect exactly at
     its clock if that has passed, and an output that started at its default is not away
     from it for too long.
     */
    method Run(commands: seq<Command>, now: int, ghost last: int, ghost sim: Sim)
      requires Valid() && !halted && now == times.now && UpTo(history.pending, last) && Sensible(commands, now, last)
      requires Shows(Seen(), sim)
      modifies this
      ensures Valid() && Shows(Seen(), Simulate(Rules(), sim, commands)) && old(history.log) <= history.log
      ensures !halted ==> times.now == EndTime(commands, now)
      ensures !halted ==> history.sent == old(history.sent) + RequestsOf(commands)
      ensures !halted ==> |history.log| <= |history.sent|
      ensures !halted ==> forall k :: 0 <= k < |history.sent| && history.sent[k].clock < times.now ==>
                k < |history.log| && history.log[k] == Applied(history.sent[k].clock, history.sent[k])
      ensures old(Limited()) && maxDuration != 0 && !Present().AtDefault(defaultOn) ==>
                times.now <= times.load + maxDuration
    {
      hide Valid, Limited, Shows, Simulate, UpTo, Sensible, RequestsOf;
      RunAll(commands, now, last, sim);
      if !halted {
        NothingOverdue();
        LogIsPunctual();
      }
      if old(Limited()) && maxDuration != 0 && !Present().AtDefault(defaultOn) {
        LimitKept();
      }
    }

    method RunAll(commands: seq<Command>, now: int, ghost last: int, ghost sim: Sim)
      requires Valid() && !halted && now == times.now && UpTo(history.pending, last) && Sensible(commands, now, last)
      requires Shows(Seen(), sim)
      modifies this
      ensures Valid() && Shows(Seen(), Simulate(Rules(), sim, commands)) && old(history.log) <= history.log
      ensures old(Limited()) ==> Limited()
      ensures !halted ==> times.now == EndTime(commands, now)
      ensures !halted ==> history.sent == old(history.sent) + RequestsOf(commands)
      decreases |commands|
    {
      hide Valid, Limited, Shows, Next, UpTo, Simulate, Sensible, RequestsOf;
      SimulateSteps(Rules(), sim, commands);
      ListSteps(commands, now, last, history.sent);
      if |commands| == 0 {
        return;
      }
      var command := commands[0];
      Step(command, now, last, sim);
      ghost var next := Next(Rules(), sim, command);
      if halted {
        ShowsHalted(Seen(), next);
        SimulateHalted(Rules(), next, commands[1..]);
        return;
      }
      RunAll(commands[1..], command.at, command.Newest(last), next);
    }

    /** Time passes until a command is due, and it is carried out. */
    method Step(command: Command, now: int, ghost last: int, ghost sim: Sim)
      requires Valid() && !halted && now == times.now <= command.at && UpTo(history.pending, last) && command.Ahead(last)
      requires Shows(Seen(), sim)
      modifies this
      ensures Valid() && Shows(Seen(), Next(Rules(), sim, command)) && old(history.log) <= history.log
      ensures old(Limited()) ==> Limited()
      ensures !halted ==> times.now == command.at && UpTo(history.pending, command.Newest(last))
      ensures !halted ==> history.sent == old(history.sent) + command.Requests()
    {
      hide Valid, Limited, Shows, Do, Pass;
      Advance(now, command.at, sim);
      ghost var passed := Pass(Rules(), sim, command.at);
      ShowsHalted(Seen(), passed);
      if halted {
        DoHalted(Rules(), passed, command);
      } else {
        Obey(command, last, passed);
      }
    }

    lemma LogIsPunctual()
      requires Valid()
      ensures |history.log| <= |history.sent|
      ensures forall k :: 0 <= k < |history.log| ==> history.log[k] == Applied(history.sent[k].clock, history.sent[k])
    {
    }

    lemma LimitKept()
      requires Valid() && Limited() && maxDuration != 0 && !Present().AtDefault(defaultOn)
      ensures times.now <= times.load + maxDuration
    {
      Present().NeverTooLong(defaultOn, maxDuration);
    }

    /** The request after the first would exceed the limit of the first. */
    predicate TooFar(pending: seq<Request>)
      reads this`cycleTime
    {
      && |pending| > 1 && maxDuration != 0 && Away(pending[0].onDuration)
      && pending[0].clock + maxDuration < pending[1].clock
    }
  }

  ghost predicate Shrinks(before: seq<Request>, after: seq<Request>) {
    forall r :: r in after ==> r in before
  }

  ghost predicate UpTo(requests: seq<Request>, last: int) {
    forall r :: r in requests ==> r.clock <= last
  }

  lemma {:induction false} FirstIsLeast(requests: seq<Request>)
    requires requests != [] && InOrder(requests)
    ensures requests[0].clock <= requests[|requests| - 1].clock
  {
    if |requests| > 1 {
      var front := requests[..|requests| - 1];
      FirstIsLeast(front);
    }
  }

  datatype Action = Enqueue(clock: int, onTime: uint32) | Assign(value: bool) | Recycle(ticks: uint32)

  /** A command of the host, and the time at which it is carried out. */
  datatype Command = Command(at: int, action: Action) {
    /** Updates come in time order and less than half the clock range ahead. */
    predicate Ahead(last: int) {
      && (action.Enqueue? ==> last <= action.clock && at <= action.clock < at + HALF)
      && (action.Recycle? ==> action.ticks < HALF)
    }

    function Newest(last: int): int {
      if action.Enqueue? then action.clock else last
    }

    function Requests(): seq<Request> {
      if action.Enqueue? then [Request(action.clock, action.onTime)] else []
    }
  }

  function RequestsOf(commands: seq<Command>): seq<Request> {
    if commands == [] then [] else commands[0].Requests() + RequestsOf(commands[1..])
  }

  function EndTime(commands: seq<Command>, now: int): int {
    if commands == [] then now else commands[|commands| - 1].at
  }

  // ----- the simple output -------------------------------------------------------------------------

  /** The limit and the default of an output. */
  datatype Config = Config(maxDuration: uint32, defaultOn: bool) {
    predicate Limits(onTime: uint32, cycle: uint32) {
      maxDuration != 0 && (0 < onTime < cycle || (onTime != 0) != defaultOn)
    }
  }

  /**
   An output without timers and pulse edges: a setting loaded at some time, the requests
   still to come, and whether the setting has to end after the limit.
   */
  datatype Sim =
    | Running(load: int, onTime: uint32, cycle: uint32, limited: bool, cycleTime: uint32,
              pending: seq<Request>, log: seq<Applied>)
    | Halted(log: seq<Applied>)

  /** The step that is due next: the first request, or without one the shutdown at the limit. */
  function Due(c: Config, s: Sim): Sim {
    if s.Halted? then s
    else if s.pending == [] then Halted(s.log)
    else
      var r, rest := s.pending[0], s.pending[1..];
      var log, limited := s.log + [Applied(r.clock, r)], c.Limits(r.onDuration, s.cycleTime);
      if limited && rest != [] && r.clock + c.maxDuration < rest[0].clock then Halted(log)
      else Running(r.clock, r.onDuration, s.cycleTime, limited, s.cycleTime, rest, log)
  }

  /** All steps due before `until`. */
  function Pass(c: Config, s: Sim, until: int): Sim
    decreases if s.Halted? then 0 else 1 + |s.pending|
  {
    if s.Halted? then s
    else if s.pending != [] then (if s.pending[0].clock < until then Pass(c, Due(c, s), until) else s)
    else if s.limited && s.load + c.maxDuration < until then Halted(s.log)
    else s
  }

  function Do(c: Config, s: Sim, command: Command): Sim {
    if s.Halted? then s
    else match command.action
      case Enqueue(clock, onTime) =>
        if s.pending == [] && s.limited && s.load + c.maxDuration < clock then Halted(s.log)
        else s.(pending := s.pending + [Request(clock, onTime)])
      case Assign(value) =>
        if s.pending != [] then Halted(s.log)
        else
          var onTime := if value then 1 else 0;
          Running(command.at, onTime, 0, c.Limits(onTime, 0), s.cycleTime, [], s.log)
      case Recycle(ticks) => if s.pending != [] then Halted(s.log) else s.(cycleTime := ticks)
  }

  function Simulate(c: Config, s: Sim, commands: seq<Command>): Sim
    decreases |commands|
  {
    if commands == [] then s
    else Simulate(c, Next(c, s, commands[0]), commands[1..])
  }

  function Next(c: Config, s: Sim, command: Command): Sim {
    Do(c, Pass(c, s, command.at), command)
  }

  /** The parts of a list of commands that is not empty. */
  lemma {:induction false} ListSteps(commands: seq<Command>, now: int, last: int, sent: seq<Request>)
    requires Sensible(commands, now, last)
    ensures commands == [] ==> sent + RequestsOf(commands) == sent
    ensures commands != [] ==> now <= commands[0].at && commands[0].Ahead(last)
    ensures commands != [] ==> Sensible(commands[1..], commands[0].at, commands[0].Newest(last))
    ensures commands != [] ==>
              sent + commands[0].Requests() + RequestsOf(commands[1..]) == sent + RequestsOf(commands)
  {
    if commands != [] {
      Joined(sent, commands[0].Requests(), RequestsOf(commands[1..]));
    }
  }

  lemma Joined(a: seq<Request>, b: seq<Request>, c: seq<Request>)
    ensures a + b + c == a + (b + c)
  {
  }

  lemma {:induction false} SimulateSteps(c: Config, s: Sim, commands: seq<Command>)
    ensures Simulate(c, s, commands) == if commands == [] then s else Simulate(c, Next(c, s, commands[0]), commands[1..])
  {
  }

  /** What can be seen of an output. */
  datatype View = View(halted: bool, pin: bool, toggling: bool, checkEnd: bool, pulse: uint32, cycle: uint32,
                       cycleTime: uint32, load: int, pending: seq<Request>, log: seq<Applied>)

  /** The output shows what the simple output is: its setting, what is queued and what was done. */
  ghost predicate Shows(v: View, s: Sim) {
    && v.halted == s.Halted? && v.log == s.log
    && (s.Running? ==>
          && v.load == s.load && v.cycleTime == s.cycleTime && v.pending == s.pending
          && v.toggling == (0 < s.onTime < s.cycle)
          && (v.toggling ==> v.pulse == s.onTime && v.cycle == s.cycle)
          && (!v.toggling ==> v.pin == (s.onTime != 0))
          && (v.pending == [] ==> v.checkEnd == s.limited))
  }

  lemma ShowsHalted(v: View, s: Sim)
    requires Shows(v, s)
    ensures v.halted <==> s.Halted?
  {
  }

  lemma DoHalted(c: Config, s: Sim, command: Command)
    requires s.Halted?
    ensures Do(c, s, command) == s
  {
  }

  lemma {:induction false} SimulateHalted(c: Config, s: Sim, commands: seq<Command>)
    requires s.Halted?
    ensures Simulate(c, s, commands) == s
    decreases |commands|
  {
    if commands != [] {
      SimulateHalted(c, s, commands[1..]);
    }
  }

  predicate Sensible(commands: seq<Command>, now: int, last: int) {
    commands == [] ||
    (now <= commands[0].at && commands[0].Ahead(last) &&
     Sensible(commands[1..], commands[0].at, commands[0].Newest(last)))
  }

  /** A request is accepted. */
  function Sent(h: History, request: Request): History {
    History(h.sent + [request], h.pending + [request], h.log)
  }

  lemma Sending(h: History, request: Request)
    requires Punctual(h)
    ensures Punctual(Sent(h, request))
  {
  }

  lemma AppendUpdate(mq: seq<Update>, pending: seq<Request>, request: Request)
    requires Queued(mq, pending)
    ensures |mq| == |pending| && Queued(mq + [Update(Wrap(request.clock), request.onDuration)], pending + [request])
  {
  }

  /** The first pending request takes effect, at time `at`. */
  function Took(h: History, at: int): History
    requires h.pending != []
  {
    History(h.sent, h.pending[1..], h.log + [Applied(at, h.pending[0])])
  }

  lemma Taking(h: History, at: int)
    requires h.pending != [] && Punctual(h) && at == h.pending[0].clock
    ensures Punctual(Took(h, at))
  {
    assert h.sent[|h.log|] == h.pending[0];
  }

  lemma NextRequest(mq: seq<Update>, pending: seq<Request>)
    requires Queued(mq, pending) && InOrder(pending)
    ensures |mq| == |pending|
    ensures mq != [] ==> mq[0].onDuration == pending[0].onDuration
    ensures mq != [] ==> Queued(mq[1..], pending[1..]) && InOrder(pending[1..])
    ensures |mq| > 1 ==> pending[0].clock <= pending[1].clock < pending[0].clock + HALF
  {
  }
}
