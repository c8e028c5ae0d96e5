# Verified models of Klipper (CoreXYUV fork)

Dafny models of the parts of this Klipper fork that carry most of its logic, with proofs:

- **Look-ahead planner** (`Reals.dfy`, `LookAhead.dfy`, `MoveQueue.dfy`). The plan of a path is a function of
  all its moves; the queue with its lazy flushes is proved to produce exactly that plan. The plan is
  proved continuous, drivable, the fastest drivable one, and smoothed as the documentation says.
- **Print time** (`PrintTime.dfy`). The times given to step generators, trapezoid queues and
  micro-controllers never run backward, over any sequence of operations.
- **Timer scheduler** (`Ticks.dfy`, `Sched.dfy`, `SchedRun.dfy`). The in-place timer list on the
  wrapping 32-bit clock, with its sentinel, its stand-in head and its insertion hint, proved to
  behave over any run as a plain map from timers to due times.
- **Steppers, triggers, move pool** (`Stepper.dfy`, `Trsync.dfy`, `MovePool.dfy`). Step times and
  position accounting of three event variants, one-shot triggers that stop motors, and the shared
  pool of move nodes.
- **Timed digital outputs** (`DigitalOut.dfy`). Software PWM, exact update times and the safety
  time limit.
- **Wire protocol** (`Vlq.dfy`, `Messages.dfy`, `Checksum.dfy`, `Frames.dfy`, `Receiver.dfy`).
  Variable length integers, message blocks and what their checksum detects, the resynchronising
  receiver, and delivery end to end.
- **Mutex** (`Mutex.dfy`) of the host's reactor and the **G-code rewriter** (`Rewriter.dfy`).

`dafny verify dfyconfig.toml` checks everything. Nothing was executed: the proofs are about the
models, which keep the code's branches, edge cases and constants.

Conventions. Speeds, distances and host times are exact `real` numbers. Firmware words are integers
with explicit wrap-around (`Ticks.Wrap`); a ghost time stands behind each wrapped time. Where times
are compared across a wrap-around, a precondition says that they lie within half the clock range,
which is what the firmware relies on. A step that shuts the micro-controller down is a failure
result. Clock readings, the pattern of flushes, spurious wake-ups, and the division of a byte stream
into chunks are parameters over which the results quantify.

Where the code differs from what one might expect, the exact condition is proved:

- A signed value below -2^26 that the firmware sends is read by the host as its unsigned value
  (`Vlq.SignedExactly`, `Vlq.SignedCounterexample`).
- A stepper's report is right exactly while the true position is at most 2^30 from the origin, modulo 2^32
  (`Steppers.ReportExact`); over runs it is right while the net travel stays within that range
  (`Steppers.RunAndReport`).
- A digital output configured away from its default is not limited until its first update
  (`DigitalOuts.DigitalOut.constructor`); the host refuses such a configuration.
- A G-code line without a comment keeps its last character when axes are renamed
  (`Rewriter.RenamedInFull`).

## Model

| member | source | states |
|---|---|---|
| LookAhead.GreatestProfile | klipper-master/klippy/toolhead.py:146-199 | the junction speeds of the backward pass are feasible and pointwise the largest profile that ends at rest, respects every junction limit and changes by at most delta_v2 per move |
| LookAhead.GreatestPlan | klipper-master/klippy/toolhead.py:146-199 | the plan is drivable, and no drivable choice of start, cruise and end speeds below the same peaks is faster anywhere |
| LookAhead.TrapezoidsValid | klipper-master/klippy/toolhead.py:102-118 | every planned junction can be driven within its move's length and limits, with a strictly positive cruise speed |
| LookAhead.Continuous | klipper-master/klippy/toolhead.py:146-192 | each move ends at the speed at which the next one starts, in and out of delayed blocks and across cruise peaks |
| LookAhead.RestToRest | klipper-master/klippy/toolhead.py:146-192 | a path starts and ends at speed zero |
| LookAhead.SmoothedTop | klipper-master/docs/Kinematics.md:99-127 | no move cruises above the apex, at the acceleration-to-deceleration rate, of the move that tops its rise |
| LookAhead.Pinned | klipper-master/klippy/toolhead.py:161-185 | where the smoothed profile turns, the junction is at its own limit in both profiles |
| LookAhead.CutTest | klipper-master/klippy/toolhead.py:170-178 | the lazy flush's test of peak_cruise_v2 finds exactly the cuts: a new peak with a later move that is not delayed |
| LookAhead.CommittedIsFinal | klipper-master/klippy/toolhead.py:146-199 | what is before a commit point is planned as any longer path planned at once would plan it, and the commit point stays one |
| LookAhead.FirstNotDelayed | klipper-master/klippy/toolhead.py:155-192 | the first move of a path is never delayed |
| MoveQueues.Move.constructor | klipper-master/klippy/toolhead.py:15-51 | a new move has consistent limits, with the cruise limit, the delta and the smoothed delta of the toolhead's settings; an extrude-only move ignores the toolhead's speed and acceleration limits |
| MoveQueues.Move.LimitSpeed | klipper-master/klippy/toolhead.py:52-61 | speed and acceleration limits only get tighter and stay consistent; a tighter speed raises the least duration |
| MoveQueues.Move.CalcJunction | klipper-master/klippy/toolhead.py:68-101 | if both moves are kinematic and the second is no reversal, the start limit is the least of the corner limit, both cruise limits and what the previous move reaches, and the smoothed one the least of that and what it reaches smoothed; otherwise both are zero; the other limits stay |
| MoveQueues.Move.SetJunction | klipper-master/klippy/toolhead.py:102-118 | the three distances are nonnegative, add up to the move, and connect the squared speeds at the move's acceleration |
| MoveQueues.PartTime | klipper-master/klippy/toolhead.py:112-118 | distance over mean speed is the time in which constant acceleration changes the speed |
| MoveQueues.MoveQueue.BackwardPass | klipper-master/klippy/toolhead.py:146-192 | the loop plans exactly the moves to be flushed, each once, as the whole path is planned; a lazy pass stops at the last cut |
| MoveQueues.MoveQueue.SetDelayed | klipper-master/klippy/toolhead.py:161-185 | carrying the peak forward plans each delayed move as the whole plan does |
| MoveQueues.MoveQueue.Flush | klipper-master/klippy/toolhead.py:146-199 | flushed moves have their junction set exactly once, to the plan's value, with a valid split into parts; a full flush empties the queue; a lazy one flushes all that is final |
| MoveQueues.MoveQueue.AddMove | klipper-master/klippy/toolhead.py:200-211 | the move joins the path with the limits of its corner with the last queued move; its least duration is counted, and when the counted time runs out the queue is flushed until no cut is left behind the flushed moves, which are committed and already final |
| MoveQueues.MoveQueue.Reset | klipper-master/klippy/toolhead.py:131-135 | the queue and its path are empty |
| MoveQueues.DrivePath | klipper-master/klippy/toolhead.py:146-211 | for every list of moves and every pattern of early flushes, all moves end up with the junctions of one flush over the whole list, each split into parts that are not negative and make up the move; every limit is the one of its corner, no move starts faster than its corner allows, and none starts at speed after a reversal or next to an extrude-only move |
| PrintTime.Clock.UpdateMoveTime | klipper-master/klippy/toolhead.py:305-323 | the batching loop ends at the new print time, advances the step generators by at most half a second per round and never backward; the last round generates steps up to the print time less the scan window, frees one window before that and flushes the micro-controllers move_flush_time before, none before the forced flush time |
| PrintTime.Clock.CalcPrintTime | klipper-master/klippy/toolhead.py:324-335 | print time is raised to the least time that is ahead of the micro-controller by the buffer and by the kinematic time, and of the forced flush time, by the scan window |
| PrintTime.Snapshot.EarliestIs | klipper-master/klippy/toolhead.py:324-335 | a print time is late enough exactly if it keeps all three distances |
| PrintTime.Clock.ProcessMoves | klipper-master/klippy/toolhead.py:336-367 | moves are laid out back to back from the resynchronised start time; print time ends at the end of the last and steps are generated up to there less the scan window, unless the trigger ends homing, exactly if its segments end before the moves do |
| PrintTime.Clock.FlushStepGeneration | klipper-master/klippy/toolhead.py:368-387 | the forced flush time becomes exactly the greatest of its old value, the end of the moves less the scan window and the last kinematic activity plus the window; all steps up to there have been generated, freed and sent, and print time is not before it |
| PrintTime.Clock.GetLastMoveTime | klipper-master/klippy/toolhead.py:395-401 | the time returned is the end of the queued moves while printing, and otherwise also ahead of the micro-controller |
| PrintTime.Clock.Dwell | klipper-master/klippy/toolhead.py:489-494 | print time ends the delay after the end of the queued moves, or after the resynchronised time if that is later; a negative delay counts as none; steps are generated up to there less the scan window |
| PrintTime.Clock.UpdateDripMoveTime | klipper-master/klippy/toolhead.py:514-529 | homing sends exactly the segments before the trigger, or the whole move if they reach its end |
| PrintTime.Clock.NoteScanTime | klipper-master/klippy/toolhead.py:605-615 | exactly the old window is replaced by the new one, after everything is drained, so a changed window sends nobody back in time; it fails exactly if the old window is not registered or the trigger ends homing |
| PrintTime.Clock.NoteKinematicActivity | klipper-master/klippy/toolhead.py:625-628 | the last kinematic time never decreases |
| PrintTime.Run | klipper-master/klippy/toolhead.py:305-387 | over every sequence of operations each has its effect on the state between its neighbours, the times given out are nondecreasing, nobody is told to go beyond the generated steps, and print time never decreases |
| Ticks.ComparesTrue | klipper-master/src/generic/timer_irq.c:26-30 | the wrapped comparison is the true one for instants less than half the range apart |
| Ticks.BeforeOneOf | klipper-master/src/sched.c:45-64 | any time is before the periodic timer or before the sentinel |
| Sched.Scan | klipper-master/src/sched.c:66-82 | the scan ends inside the list, at the place a scan from the head would find |
| Sched.InsertTimer | klipper-master/src/sched.c:66-82 | the list becomes the one with the timer at its place, wherever the scan starts |
| Sched.RankUnique | klipper-master/src/sched.c:66-82 | in a sorted list the insertion point does not depend on where the scan starts |
| Sched.Scheduler.AddTimer | klipper-master/src/sched.c:84-107 | the list stays acyclic, sorted and complete, and the live timers are the old ones with the new one in its place; it fails only for a time in the past at the front |
| Sched.Scheduler.DelTimer | klipper-master/src/sched.c:120-143 | the live timers are the old ones without the deleted one, also when it is the head or the hint |
| Sched.Scheduler.Dispatch | klipper-master/src/sched.c:145-179 | the head leaves or moves to its place by time, found from the hint; no timer is lost or duplicated; the result is the new head's time |
| Sched.Scheduler.Requeue | klipper-master/src/sched.c:167-176 | reinserting from the hint gives the same list as a scan from the head, even if the hint is the dispatched timer |
| Sched.Scheduler.RunPeriodic | klipper-master/src/sched.c:34-43 | the periodic timer and the sentinel move on together and stay half the clock range apart |
| Sched.Scheduler.Reset | klipper-master/src/sched.c:181-190 | in any state of the list, exactly the periodic timer is left |
| Sched.Scheduler.constructor | klipper-master/src/sched.c:20-64 | the initial list is valid and holds the periodic timer |
| SchedRuns.TickOne | klipper-master/src/sched.c:145-179 | a user timer fires exactly when it is due and none is due before it; its callback may delete other timers and set a new time |
| SchedRuns.Perform | klipper-master/src/sched.c:84-190 | every operation on the list is a step of a plain map from timers to due times; time never passes a due timer |
| SchedRuns.Run | klipper-master/src/sched.c:84-190 | after any sequence of additions, deletions, dispatches and resets the list is exactly the map that the plain scheduler arrives at with the same operations, step by step, none lost or duplicated, and timers have fired in order of time |
| SchedRuns.FireNext | klipper-master/src/sched.c:145-179 | after finitely many interrupts the earliest timer fires, at its time |
| SchedRuns.Boot | klipper-master/src/sched.c:20-64 | the scheduler starts as the empty map |
| Steppers.IdealTimes | klipper-master/src/stepper.c:63-171 | step k of a move is due at base + k*interval + add*k*(k-1)/2, modulo 2^32 |
| Steppers.Stepper.LoadNext | klipper-master/src/stepper.c:63-100 | loading a move changes neither the pulses to come nor the position of the pulses emitted |
| Steppers.Stepper.EventEdge | klipper-master/src/stepper.c:102-116 | exactly the first pulse of the plan is emitted, and the rest is left |
| Steppers.Stepper.EventAvr | klipper-master/src/stepper.c:120-138 | the same, on a 16-bit counter |
| Steppers.Stepper.EventFull | klipper-master/src/stepper.c:140-171 | the same in two events per step; after a step the pin stays for step_pulse_ticks, the next step is due at its time but not before the pulse has ended, and the machine stops exactly if a newly loaded step is further in the past than allowed |
| Steppers.Stepper.QueueStep | klipper-master/src/stepper.c:219-250 | the move's pulses go behind the plan, or it is dropped while the stepper waits for a reset |
| Steppers.Stepper.SetNextStepDir | klipper-master/src/stepper.c:254-263 | only the direction of later moves changes |
| Steppers.Stepper.ResetStepClock | klipper-master/src/stepper.c:266-278 | the next step is timed from the clock; refused while moving |
| Steppers.Stepper.GetPosition | klipper-master/src/stepper.c:281-295 | the word returned decodes the position of the pulses emitted so far, mid-move too |
| Steppers.Stepper.ReportPosition | klipper-master/src/stepper.c:297-307 | while the net travel has never been more than 2^30 steps from the origin, the report is forward minus backward pulses emitted, mid-move or after a stop |
| Steppers.ReportExact | klipper-master/src/stepper.c:281-295 | the decoded position is right modulo 2^32 if and only if it is within 2^30 of the origin, modulo 2^32 |
| Steppers.ReportInRange | klipper-master/src/stepper.c:281-307 | encoding and decoding a position is the identity within 2^30 of the origin, in both directions |
| Steppers.Stepper.Stop | klipper-master/src/stepper.c:310-328 | nothing is planned any more, and while the travel is in range the position still counts the pulses emitted |
| Steppers.Run | klipper-master/src/stepper.c:63-328 | after any commands, for all three variants, pulses made and to come, with times and directions, are those of a plain motor given the same commands |
| Steppers.RunAndReport | klipper-master/src/stepper.c:63-307 | after any commands the reported position is the net number of pulses the plain motor has made, if that never was more than 2^30 from the origin |
| Steppers.FewSteps | klipper-master/src/stepper.c:281-307 | a stepper that has made at most 2^30 steps is in that range |
| Steppers.WholePlan | klipper-master/src/stepper.c:219-250 | while neither stopped nor reset, pulses made and to come together are the pulses of all queued moves, in order |
| Steppers.StaysStopped | klipper-master/src/stepper.c:238-248 | a stopped stepper emits nothing, whatever is queued, until its clock is reset |
| Steppers.RestartsAt | klipper-master/src/stepper.c:266-278 | after a stop and a reset the next move is timed from the clock given |
| Trsyncs.DoTrigger | klipper-master/src/trsync.c:26-45 | an armed trigger calls each listed signal once, in order, records its reason and empties the list; an unarmed one changes nothing |
| Trsyncs.Board.AddSignal | klipper-master/src/trsync.c:83-95 | a signal is refused exactly if it is active already; active signals are in exactly one list |
| Trsyncs.Board.Trigger | klipper-master/src/trsync.c:26-45 | all listed steppers are stopped, the other trsyncs' lists are untouched, and only the first trigger since a start counts |
| Trsyncs.Board.ExpireEvent | klipper-master/src/trsync.c:47-54 | a timeout triggers with the reason given at the start |
| Trsyncs.Board.Clear | klipper-master/src/trsync.c:97-112 | the trsync is idle, with no reason, no timer and nothing to report, and its signals are released without being called |
| Trsyncs.Board.Start | klipper-master/src/trsync.c:114-127 | earlier signals and triggers are forgotten; one trigger may fire, the reason of a timeout is the one given, no timeout is set, and the first report comes at the clock given exactly if the interval is not zero |
| Trsyncs.Board.SetTimeout | klipper-master/src/trsync.c:132-144 | the timeout is set to the clock given, only while a trigger may fire |
| Trsyncs.Board.ReportEvent | klipper-master/src/trsync.c:56-65 | a report becomes due and the next one is scheduled report_ticks later |
| Trsyncs.Board.TriggerCommand | klipper-master/src/trsync.c:154-167 | the reason reported is that of the one trigger that fired since the start |
| Trsyncs.Board.Report | klipper-master/src/trsync.c:170-188 | a due report tells whether a trigger may still fire and the reason of the one that did |
| Trsyncs.Board.Run | klipper-master/src/trsync.c:26-199 | over every sequence of events the registry stays sound, and lists, flags, triggers with the signals they call, and what the host is told are those of plain books kept on the same events |
| Trsyncs.LedgerOneShot | klipper-master/src/trsync.c:26-199 | in the books of any sequence of events a trigger fires only if a start was the last start, trigger or clear before it, and calls exactly the signals added since, latest first; one by timeout had its timeout set since then and has the reason given at that start; what the host is told is whether one may fire and the reason of the one that did, zero before |
| Trsyncs.LedgerNotes | klipper-master/src/trsync.c:26-199 | every note in the books comes from its own event: a start notes the reason given, a trigger that is no timeout the reason of the event |
| Trsyncs.TriggerIsTold | klipper-master/src/trsync.c:170-188 | after any events, a trigger not told yet is told, with its reason, at the trsync's next turn |
| Trsyncs.Board.constructor | klipper-master/src/trsync.c:67-73 | a board starts with nothing registered |
| MovePools.Conserved | klipper-master/src/basecmd.c:73-166 | free, queued and held nodes add up to the pool |
| MovePools.MovePool.Alloc | klipper-master/src/basecmd.c:83-94 | the first free node is handed out; it fails exactly when none is free |
| MovePools.MovePool.Free | klipper-master/src/basecmd.c:73-81 | a node in hand becomes the first free one; only a node in hand can be freed |
| MovePools.MovePool.Push | klipper-master/src/basecmd.c:110-122 | the node is last in its queue, and the result tells whether the queue was empty |
| MovePools.MovePool.Pop | klipper-master/src/basecmd.c:124-131 | the first node leaves its queue; what was pushed is what was popped followed by what is queued |
| MovePools.MovePool.Arrive | klipper-master/src/stepper.c:219-250 | a move takes a free node into its queue, or gives it back while a reset is awaited |
| MovePools.MovePool.Depart | klipper-master/src/stepper.c:63-100 | the next move's node goes back to the free list |
| MovePools.MovePool.Drain | klipper-master/src/stepper.c:323-327 | a stop returns the whole queue to the pool, node by node; after a clear it changes nothing, in any state of the pool |
| MovePools.MovePool.PoolReset | klipper-master/src/basecmd.c:152-166 | the free list holds every node of the pool, whatever they were part of |
| MovePools.MovePool.StepperHalt | klipper-master/src/stepper.c:341-350 | the steppers' queues are empty and no node is freed |
| MovePools.MovePool.OutputHalt | klipper-master/src/gpiocmds.c:197-207 | the outputs' queues are empty |
| MovePools.MovePool.Shutdown | klipper-master/src/basecmd.c:152-166 | from any state and with the handlers in any order, every node is free and every queue is empty |
| MovePools.MovePool.Run | klipper-master/src/basecmd.c:73-166 | over every run the free list and the queues are what the same operations make of plain lists, they partition the pool, nothing is lost or freed twice, and queues are first in, first out |
| DigitalOuts.DigitalOut.constructor | klipper-master/src/gpiocmds.c:116-126 | a configured output is limited if and only if it has no limit or starts at its default |
| DigitalOuts.DigitalOut.ToggleEvent | klipper-master/src/gpiocmds.c:34-53 | the pin toggles, the ideal pulse train goes on, and the load at the end of the setting is not missed |
| DigitalOuts.DigitalOut.Bounds | klipper-master/src/gpiocmds.c:70-93 | the end of a setting is the next update or the limit; it fails exactly if the next update exceeds the limit |
| DigitalOuts.DigitalOut.LoadEvent | klipper-master/src/gpiocmds.c:55-114 | the first queued update takes effect exactly at its clock, with its on time and the present cycle, and the new setting is limited |
| DigitalOuts.DigitalOut.QueueUpdate | klipper-master/src/gpiocmds.c:144-173 | the update is queued for its clock, the pulses before it stay as they are; it fails exactly if the limit ends before |
| DigitalOuts.DigitalOut.UpdateNow | klipper-master/src/gpiocmds.c:177-194 | an immediate setting is limited from now on; it fails exactly if updates are queued |
| DigitalOuts.DigitalOut.SetCycle | klipper-master/src/gpiocmds.c:131-140 | pulses under way keep their cycle; it fails exactly if updates are queued |
| DigitalOuts.DigitalOut.Shutdown | klipper-master/src/gpiocmds.c:197-207 | the pin is at its default and nothing is queued |
| DigitalOuts.Setting.NeverTooLong | klipper-master/src/gpiocmds.c:67-82 | away from its default, an output has its next load or shutdown, and every event before it, at most max_duration after the last load |
| DigitalOuts.Setting.FollowsPulses | klipper-master/src/gpiocmds.c:34-53 | while toggling, the pin is on in the first on_duration ticks of each cycle since the load and off in the rest |
| DigitalOuts.DigitalOut.Run | klipper-master/src/gpiocmds.c:34-194 | over every run with updates in time order the output does what a simple output without timers and edges does with the same commands, shutdowns included; each request took effect exactly at its clock once that has passed; the limit held |
| Vlq.ParseInt | klipper-master/src/command.c:56-70 | the parser computes, modulo 2^32, the number that the bytes spell, and where it ends |
| Vlq.ParsePy | klipper-master/klippy/msgproto.py:48-60 | the host's parser computes the same number, exactly or modulo 2^32 |
| Vlq.PythonRoundTrip | klipper-master/klippy/msgproto.py:42-60 | what the host encodes is read back exactly, wherever it stands |
| Vlq.FirmwareRoundTrip | klipper-master/src/command.c:39-54 | what the firmware encodes is read back modulo 2^32, so exactly as an unsigned number |
| Vlq.Shortest | klipper-master/klippy/msgproto.py:42-47 | no list of bytes that spells a number is shorter than its encoding |
| Vlq.ShortestWord | klipper-master/src/command.c:39-54 | nor is one that spells a word shorter than what the firmware sends for it |
| Vlq.SignedExactly | klipper-master/src/command.c:39-54 | the host's signed parser reads a firmware word as its signed value if and only if that is at least -2^26 |
| Vlq.SignedCounterexample | klipper-master/src/command.c:39-54 | -2^31 arrives as 2^31 |
| Messages.EncodeMessage | klipper-master/klippy/msgproto.py:174-179 | the loop appends the command number and all encoded arguments in order |
| Messages.Arguments | klipper-master/src/command.c:72-108 | one value per parameter; every buffer lies behind the start and in front of the trailer, and parsing never ends behind the block |
| Messages.ParseArguments | klipper-master/src/command.c:72-108 | every read is inside the block, and the result is that of its specification, with the same errors |
| Messages.ArgumentsArrive | klipper-master/src/command.c:72-108 | encoded arguments, numbers and buffers, are what the firmware's parser finds |
| Messages.Dispatch | klipper-master/src/command.c:305-324 | dispatch of any accepted block ends, reads only inside it, and calls what its specification says |
| Messages.PayloadArrives | klipper-master/src/command.c:305-324 | dispatch finds exactly the encoded commands, in order, and stops at the end of the payload |
| Checksums.StepsAgree | klipper-master/klippy/msgproto.py:29-35 | one byte of the host's checksum is one byte of the firmware's |
| Checksums.CrcC | klipper-master/src/generic/crc16_ccitt.c:10-23 | the firmware's loop computes the checksum |
| Checksums.CrcPy | klipper-master/klippy/msgproto.py:29-35 | the host's loop, on wider integers, computes the same checksum |
| Checksums.StepDivides | klipper-master/src/generic/crc16_ccitt.c:14-21 | one byte of the checksum is eight steps of the bit-wise division by the CCITT polynomial, lowest bit first |
| Checksums.CrcSeesBurst | klipper-master/src/generic/crc16_ccitt.c:10-23 | the checksum changes if one byte or two adjacent ones change, wherever they are |
| Frames.AddFrame | klipper-master/src/command.c:174-184 | the buffer holds the frame around the payload that was in it, and is unchanged behind it |
| Frames.CheckPacket | klipper-master/klippy/msgproto.py:249-268 | the host classifies a buffer as the firmware does |
| Frames.GoodIsFrame | klipper-master/src/command.c:252-269 | only a frame passes the checks |
| Frames.FrameIsGood | klipper-master/src/command.c:174-184 | every frame passes them, with its exact length, whatever follows |
| Frames.FrameLayout | klipper-master/src/command.c:174-184 | byte by byte: length, sequence number, payload, checksum with its upper half first, 0x7e |
| Frames.DamageIsSeen | klipper-master/src/command.c:252-269 | a frame is rejected after damage to any one byte but the length, or to two adjacent bytes between length and checksum |
| Frames.NeedMoreIs | klipper-master/src/command.c:252-262 | more data is asked for exactly below five bytes, or below the announced length if length and destination are plausible |
| Frames.NeverGivesUp | klipper-master/src/command.c:252-303 | what can still become a frame is never called bad |
| Frames.CanComplete | klipper-master/src/command.c:252-262 | while the checksum is outstanding, what is waited for has a continuation that is a frame |
| Receivers.Progress | klipper-master/src/command.c:244-303 | a nonzero result consumes between 1 and all bytes; more data is asked for only below 64 bytes |
| Receivers.Receiver.FindBlock | klipper-master/src/command.c:244-303 | one call follows its specification, including resynchronisation and naks |
| Receivers.ChunksDoNotMatter | klipper-master/src/command.c:244-303 | draining a stream in two parts gives the same blocks, naks, state and rest as draining it at once |
| Receivers.ReceiveAll | klipper-master/src/command.c:333-344 | bytes arriving in any chunks lead to what the whole stream leads to |
| Receivers.InOrderReceipt | klipper-master/src/command.c:270-276 | over any stream, however damaged, with arrivals less than 16 off, blocks are taken in order, each exactly once |
| Receivers.TakenWhenExpected | klipper-master/src/command.c:270-276 | every intact arrival is taken if and only if it is the one expected at that point |
| Receivers.FrameRefused | klipper-master/src/command.c:270-276 | an intact block with another sequence number is consumed and answered, and the number expected stays |
| Receivers.NoiseAnsweredOnce | klipper-master/src/command.c:281-299 | over any stream a stretch of noise is answered once, and again only after an intact block |
| Receivers.Recovers | klipper-master/src/command.c:281-299 | from any state that has lost step, one SYNC byte is enough: all frames behind it are taken |
| Receivers.StreamTaken | klipper-master/src/command.c:244-303 | an intact stream in sequence is taken block by block with nothing left |
| Receivers.FindAndDispatch | klipper-master/src/command.c:333-344 | exactly the taken blocks are dispatched |
| Receivers.Deliver | klipper-master/src/command.c:244-344 | the host's messages, framed in sequence and delivered in any chunks, are dispatched as the same commands with the same arguments, in order, and nothing else is |
| Mutexes.ReactorMutex.constructor | klipper-master/klippy/reactor.py:71-80 | a mutex created locked has a holder |
| Mutexes.ReactorMutex.Enter | klipper-master/klippy/reactor.py:83-88 | the lock is got at once if and only if nobody holds it and no hand-off is pending; otherwise the task is last in the queue |
| Mutexes.ReactorMutex.Wake | klipper-master/klippy/reactor.py:89-94 | a woken task gets the lock if and only if it was handed to it |
| Mutexes.ReactorMutex.Exit | klipper-master/klippy/reactor.py:95-100 | whoever calls it, a held lock becomes free or pending for the first waiter, which is woken; otherwise nothing changes |
| Mutexes.ReactorMutex.Run | klipper-master/klippy/reactor.py:70-100 | every interleaving does what it does to a plain lock; arrivals are the tasks that asked, and they get the lock in that order |
| Mutexes.ReactorMutex.ServeAll | klipper-master/klippy/reactor.py:70-100 | as holders leave, the lock reaches all waiters, in order |
| Rewriter.EditedAt | adaptGCode.py:27-34 | in front of the first semicolon, or of the last character if there is none, X becomes U, Y becomes V and every other character stays; from there on all stay |
| Rewriter.CommentsKept | adaptGCode.py:33 | nothing changes from the first semicolon on |
| Rewriter.RenamedInFull | adaptGCode.py:33 | without a comment all axes are renamed if and only if the last character is not one |
| Rewriter.CountTools | adaptGCode.py:16-24 | the lists hold exactly the numbers of the lines that mention each tool, in order |
| Rewriter.EditLines | adaptGCode.py:26-34 | a line is edited exactly if the last line before it that mentions a tool selects the second one |
| Rewriter.InsertBlocks | adaptGCode.py:36-54 | the block goes in front of exactly the marked lines, and both lists of line numbers still point at their lines |
| Rewriter.Rewrite | adaptGCode.py:16-73 | for every input the output is one part per line, in order: the four parking moves of T1 if it contains T1, those of T0 if it contains T0, and the line itself, with the axes of the second tool if an earlier line contains T1 and none since then T0 |

## Left out

- Floating point rounding in the planner and in print time: models are exact.
- Square roots, centripetal and extruder limits inside `calc_junction`: one nonnegative corner limit stands for them.
- Kinematics, extruder and input shaper classes, and the C helpers for trapezoid queues, iterative solving and step compression: recorded calls with their time arguments where print time needs them.
- `drip_move`'s jump of freed time to the end of time after homing: a deliberate exception to monotonic time.
- The pause-and-resume timing of `_check_stall` and `_flush_handler`: depends on wall clock estimates only.
- Logging statements, configuration parsing, G-code commands and the printer object graph.
- Sched.Scheduler.Dispatch: takes the callback's own new time only; the timers it deletes are deleted just before (`SchedRuns.TickOne`), and callbacks that add timers or delete their own are not modelled.
- Sched.Scheduler.AddTimer: requires the new time to lie within half the clock range of the pending ones, as the firmware relies on.
- SchedRuns.Run: a timer is added only while it is not active and less than half the clock range ahead; other additions are skipped.
- SchedRuns.TickOne: the interrupt comes exactly when the head is due; late dispatch, and with it the "Timer too close" refusal of `AddTimer`, does not occur in a run.
- Steppers.Stepper.EventFull: the clock reading is a parameter; its relation to the schedule is not modelled.
- DigitalOuts.DigitalOut.QueueUpdate: requires an update's clock to be not in the past and less than half the clock range ahead; the scheduler's own check for late timers is part of AddTimer.
- DigitalOuts.DigitalOut.Run: the timer fires exactly when due and commands run between events; interrupt latency is not modelled.
- The link between `MovePools` queues and the queues inside `Steppers` and `DigitalOuts`: the latter keep their moves as sequences.
- Messages.Dispatch: command handlers are not run, so the skipping of commands while shut down is not modelled.
- `command_encodef` and its size clamping of strings and buffers; only its integers are modelled.
- `MessageParser.encode`, which nests the checksum list in its output; frames follow `command_add_frame`.
- Checksum strength beyond two adjacent bytes: nothing is claimed about wider damage, nor about damage to a block's length.
- Sequence byte handling in the host's serial queue, whose C code is not part of this model.
- Greenlets, timers and file descriptors of the reactor: only the mutex is modelled, at its pauses.
- File reading and writing in `adaptGCode.py`.
- Sensors, displays, buses, hardware PWM and TMC drivers: device access, or repeats of the timer and queue patterns above.
