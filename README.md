# MIDI clock to analogue sync: a verified model

This project models the core of a CircuitPython program that turns an
incoming MIDI transport clock into an analogue sync pulse for instruments
such as the Pocket Operator and Volca, with an LED that flashes along. MIDI
sends 24 Timing Clock messages (0xF8) per beat. The program has three parts:

- a transport state machine, made of the `pulsing` flag and the `clock_ticks`
  counter. Start (0xFA) resets the counter and starts pulsing, Stop (0xFC)
  stops it, and Timing Clock advances the counter;
- a tick divider. It raises the sync pin every 12 clocks, which gives 2 pulses
  per beat, and lights the LED dimly on the same clocks. Once per beat (24
  clocks) it lights the LED brighter and resets the counter;
- non-blocking pulse timers. Each pin records the time it was turned on, and
  0 means "nothing pending". A throttled poll in the main loop turns a pin
  back off once its hold time has passed.

The model has three modules:

- `SyncModel` (`model.dfy`) holds the program's state as a `State` value and
  each handler as a pure transition function. These are `Clocked`,
  `Started`, `Stopped`, `Polled`, `Dispatched` and `Stepped`, plus the four
  pin operations.
- `SyncProperties` (`properties.dfy`) proves what the program promises about
  those functions: the LED levels, the reachable-state invariant, the
  periodicity of the divider, and the reversion rule.
- `SyncDevice` (`device.dfy`) holds the class `Translator`. Its fields are the
  program's globals and pin levels, and its methods update them in place.
  Each method is proved to make exactly the transition of its `SyncModel`
  function.

Time is a parameter. `now` is the clock read by the poll, and `stamp` is the
clock read by the handlers of the message received in the same pass.

Points where the program's behaviour may be unexpected; the model follows the
program:

- Start and Stop do not reset the pins or their timers.
- Continue, SystemReset and parse errors get no handling; they fall into "other
  message".
- The counter takes values in [0, 24], not [0, 24). It reaches 24 and is reset
  only on the next clock.
- A pin reverts only when the elapsed time is strictly greater than its hold
  time, and only on a poll pass that the 5 ms throttle lets through.
- Timestamps do not wrap around.

## Model

| member | source | states |
|---|---|---|
| SyncModel.Duty | code.py:207-212 | the duty cycle is the brightness level times 65535, truncated to an integer, and stays within 0..65535 |
| SyncProperties.DutyLevels | code.py:189-201 | the half-beat level 0.001 gives duty 65 and the beat level 0.2 gives duty 13107 |
| SyncModel.Clocked | code.py:174-204 | a clock while stopped changes nothing; while running, the counter goes from c to c % 24 + 1, so it lands in 1..24; the sync pin is raised at the clock's time exactly when the input count is a multiple of 12; the LED shows the beat level when the count is a multiple of 24 (the beat level overwrites the half-beat level), the half-beat level on the other multiples of 12, and is otherwise untouched |
| SyncModel.Polled | code.py:141-151 | while stopped, only the LED changes, to the idle ramp idx % 2048; while running and less than or equal to 5 ms since the last check, nothing changes; otherwise the check time becomes now; a pin reverts (LED to duty 0, sync low, timestamp 0) if and only if the check is due, its timestamp is non-zero and more than 15 ms have passed; otherwise the pin and its timestamp are unchanged |
| SyncModel.Dispatched | code.py:153-171 | no message and unknown messages change nothing; a Timing Clock while stopped changes nothing and one while running makes the transition of Clocked; Start leaves the device running with the counter at 0; Stop leaves it stopped with the counter kept; no message except Timing Clock touches a pin or a timestamp |
| SyncModel.NextIdx | code.py:266-270 | the loop counter advances by one and wraps to 0 at 65536, so it stays in [0, 65536) |
| SyncProperties.SteppedKeepsInv | code.py:141-171 | one loop pass keeps the invariant: the counter stays within 0..24, a pending sync timer implies the sync pin is high, and the duty cycle stays within full scale |
| SyncProperties.PrestateTicks | code.py:183-204 | over any run of clocks while running, the counter before the k-th clock is (c % 24 + k - 1) % 24 + 1, and the device keeps running |
| SyncProperties.TicksFromStart | code.py:183-204 | after a Start, clock k+1 sees counter 0 for the first clock and (k-1) % 24 + 1 after that; the sync pin fires exactly on clocks 1, 13, 25, 37 and so on, and the beat flash exactly on clocks 1, 25, 49 and so on |
| SyncProperties.CountsFollowCounter | code.py:183-204 | the number of sync fires (beat flashes) over a run of clocks equals the number of multiples of 12 (24) among the counter values, counted on from the starting counter |
| SyncProperties.TwoSyncsOneBeatPer24 | code.py:183-201 | any 24 consecutive clocks while running raise the sync pin exactly twice and flash the beat level exactly once |
| SyncProperties.LedHeldForHoldTime | code.py:141-145 | while running, no sequence of polls that are all at most 15 ms after the LED was lit turns it off or restarts its timer |
| SyncProperties.SyncHeldForHoldTime | code.py:141-147 | no sequence of polls that are all at most 15 ms after the sync pin was raised pulls it low or clears its timer |
| SyncProperties.RefireRestartsWindow | code.py:225-230 | raising the sync pin again replaces the first timestamp (the last fire wins); a poll within 15 ms of the second raise leaves the pin high |
| SyncProperties.LedRefireRestartsWindow | code.py:207-213 | lighting the LED again replaces the first level and timestamp (the last fire wins); while running, a poll within 15 ms of the second lighting leaves the LED at the second level |
| SyncProperties.ZeroStampStaysHigh | code.py:146-147 | a sync pulse timestamped 0 looks like no pending pulse, so no sequence of polls ever pulls it low |
| SyncProperties.StoppedFreezesTimers | code.py:141-151 | while stopped, polling leaves the sync pin, every timestamp, the throttle and the counter unchanged, and the LED shows the idle ramp of the last pass |
| SyncDevice.Translator.constructor | code.py:51-60 | the initial globals: stopped, counter and timestamps 0, sync low, LED duty 0 |
| SyncDevice.Translator.LedPinOn | code.py:207-213 | keeps the invariant and makes exactly the transition of LedLit: sets the duty cycle for the level and the LED timestamp to now; nothing else changes |
| SyncDevice.Translator.LedPinOff | code.py:216-222 | keeps the invariant and makes exactly the transition of LedCleared: sets duty 0 and LED timestamp 0; nothing else changes |
| SyncDevice.Translator.SyncPinOn | code.py:225-230 | keeps the invariant and makes exactly the transition of SyncRaised: raises the sync pin and sets its timestamp to now; nothing else changes |
| SyncDevice.Translator.SyncPinOff | code.py:233-238 | keeps the invariant and makes exactly the transition of SyncLowered: pulls the sync pin low and sets its timestamp to 0; nothing else changes |
| SyncDevice.Translator.HandleClock | code.py:174-204 | makes exactly the transition of Clocked, keeps the invariant, and leaves the counter in 1..24 when running |
| SyncDevice.Translator.HandleStart | code.py:241-248 | keeps the invariant and makes exactly the transition of Started: counter 0 and running, whatever the state before; pins and timestamps unchanged |
| SyncDevice.Translator.HandleStop | code.py:254-258 | keeps the invariant and makes exactly the transition of Stopped: stopped; counter, pins and timestamps unchanged |
| SyncDevice.Translator.LoopStep | code.py:115-171 | makes exactly the transition of Stepped, which is the poll followed by the dispatch, and keeps the invariant |
| SyncDevice.Translator.MainIteration | code.py:266-270 | one loop pass followed by the wrapped advance of the loop counter |

## Left out

- Hardware setup (`setup`): the UART, the PWM LED, pin directions and the
  printing of channel numbers. Only its effect on the state is modelled: LED
  duty 0 and sync low.
- MIDI reception and parsing (`midi.receive()`, the message classes). These
  are replaced by an `Option<Msg>` input. All messages other than Timing
  Clock, Start and Stop become `Other`.
- Debug printing (`print_debug` and the `debug` branches). It has no effect on
  the state.
- The clock `time.monotonic() * 1000` gives floating-point milliseconds. The
  model uses whole milliseconds passed in as naturals, with no wrap-around.
  The three clock reads inside one `handle_clock` are taken as one instant,
  `stamp`.
- Floating-point LED levels: `int(65535 * level)` is computed in exact real
  arithmetic, which truncates to the same two integers (65 and 13107).
- The unused gate timer (`pulse_gate`, `pulse_gate_millis`, the gate TODO)
  and all commented-out code (dotstar, s-trig output, CV, button). None of
  them executes.
- Continue, SystemReset, parse-error handling and ignore-Stop/Reset settings.
  The program does not implement them.
- The endless `while True` of `main`. One iteration is modelled
  (`MainIteration`). The run lemmas take a finite sequence of clocks or poll
  passes.
- SyncProperties.LedHeldForHoldTime: requires the device to be running,
  because while stopped the idle ramp overwrites the LED's duty cycle on
  every pass. The LED timestamp is kept in that case as well
  (StoppedFreezesTimers).
