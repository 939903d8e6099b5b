/** The MIDI-clock-to-sync-pulse translator as a pure state machine.

    The device keeps all of its state in a handful of module-level variables:
    the clock-tick counter, the running flag, three millisecond timestamps and
    the two output levels (the sync pin and the LED's PWM duty cycle). `State`
    holds exactly those, and each handler of the program becomes a function from
    the state before it to the state after it. The class in SyncDevice performs
    the same updates in place and is proved against these functions.
 */
module SyncModel {

  datatype Option<T> = None | Some(value: T)

  /** The MIDI messages the translator tells apart; every other message is Other. */
  datatype Msg = TimingClock | Start | Stop | Other

  /** MIDI Timing Clocks per beat (quarter note). */
  const Ppqn: nat := 24
  /** MIDI Timing Clocks per sync pulse: the sync output runs at 2 pulses per beat. */
  const TicksPerHalfBeat: nat := 12
  /** Minimum milliseconds between two passes of the reversion poll. */
  const PulseCheck: nat := 5
  /** Milliseconds the LED flash is held before it may be turned off. */
  const PulseLed: nat := 15
  /** Milliseconds the sync pulse is held high before it may be pulled low. */
  const PulseSync: nat := 15
  /** Full scale of the LED's 16-bit PWM duty cycle. */
  const MaxDuty: nat := 65535
  /** While stopped the LED ramps through duty cycles below this bound. */
  const IdleDutyPeriod: nat := 2048
  /** The main loop's iteration counter wraps at this value. */
  const IdxPeriod: nat := 65536
  /** Brightness of the half-beat flash, as a fraction of full scale. */
  const HalfBeatLevel: real := 0.001
  /** Brightness of the beat flash, as a fraction of full scale. */
  const BeatLevel: real := 0.2

  /** The duty cycle written for a brightness level: the product with full
      scale, truncated toward zero as an integer conversion does. */
  function Duty(level: real): (d: nat)
    requires 0.0 <= level <= 1.0
    ensures d <= MaxDuty
    ensures d as real <= MaxDuty as real * level < d as real + 1.0
  {
    (MaxDuty as real * level).Floor
  }

  /** Everything the translator remembers between two passes of its loop. A
      timestamp of 0 means "no pulse pending". */
  datatype State = State(
    clockTicks: nat,
    pulsing: bool,
    pulseCheckMillis: nat,
    pulseLedMillis: nat,
    pulseSyncMillis: nat,
    syncValue: bool,
    ledDuty: nat)

  /** The state once the pins are configured: stopped, counter and timers at
      zero, sync low and LED dark. */
  const Boot: State := State(0, false, 0, 0, 0, false, 0)

  /** What holds of every reachable state: the tick counter never exceeds one
      beat, a pending sync timer means the sync pin is high, and the duty cycle
      is within full scale. */
  predicate Inv(s: State)
  {
    && s.clockTicks <= Ppqn
    && (s.pulseSyncMillis != 0 ==> s.syncValue)
    && s.ledDuty <= MaxDuty
  }

  /** Milliseconds from `since` to `now`; negative if `now` is earlier. */
  function Elapsed(now: nat, since: nat): int
  {
    now - since
  }

  // The four pin operations.

  /** The LED lit at `level`, its timer started at `now`. */
  function LedLit(s: State, level: real, now: nat): State
    requires 0.0 <= level <= 1.0
  {
    s.(ledDuty := Duty(level), pulseLedMillis := now)
  }

  /** The LED dark, its timer cleared. */
  function LedCleared(s: State): State
  {
    s.(ledDuty := 0, pulseLedMillis := 0)
  }

  /** The sync pin high, its timer started at `now`. */
  function SyncRaised(s: State, now: nat): State
  {
    s.(syncValue := true, pulseSyncMillis := now)
  }

  /** The sync pin low, its timer cleared. */
  function SyncLowered(s: State): State
  {
    s.(syncValue := false, pulseSyncMillis := 0)
  }

  // The tick divider.

  /** An input tick count on which a half-beat sync pulse is due. */
  predicate IsHalfBeat(ticks: nat)
  {
    ticks % TicksPerHalfBeat == 0
  }

  /** An input tick count on which a beat is due. */
  predicate IsBeat(ticks: nat)
  {
    ticks % Ppqn == 0
  }

  /** The next Timing Clock handled in state `s` raises the sync pin. */
  predicate FiresSync(s: State)
  {
    s.pulsing && IsHalfBeat(s.clockTicks)
  }

  /** The next Timing Clock handled in state `s` flashes the LED at beat level. */
  predicate FiresBeat(s: State)
  {
    s.pulsing && IsBeat(s.clockTicks)
  }

  // The transport handlers.

  /** A Timing Clock: ignored while stopped; otherwise a half-beat fires the
      LED at half-beat level and the sync pin, a beat resets the counter and
      lights the LED at beat level (so the beat level wins), and the counter
      advances. */
  function Clocked(s: State, now: nat): (t: State)
    ensures !s.pulsing ==> t == s
    ensures t.pulsing == s.pulsing && t.pulseCheckMillis == s.pulseCheckMillis
    ensures s.pulsing && s.clockTicks <= Ppqn ==> t.clockTicks == s.clockTicks % Ppqn + 1
    ensures FiresSync(s) ==> t.syncValue && t.pulseSyncMillis == now
    ensures !FiresSync(s) ==> t.syncValue == s.syncValue && t.pulseSyncMillis == s.pulseSyncMillis
    ensures t.ledDuty == if FiresBeat(s) then Duty(BeatLevel)
                         else if FiresSync(s) then Duty(HalfBeatLevel)
                         else s.ledDuty
    ensures t.pulseLedMillis == if FiresSync(s) then now else s.pulseLedMillis
  {
    if !s.pulsing then s
    else
      var afterHalf := if IsHalfBeat(s.clockTicks)
                       then SyncRaised(LedLit(s, HalfBeatLevel, now), now)
                       else s;
      var afterBeat := if IsBeat(afterHalf.clockTicks)
                       then LedLit(afterHalf.(clockTicks := 0), BeatLevel, now)
                       else afterHalf;
      afterBeat.(clockTicks := afterBeat.clockTicks + 1)
  }

  /** A Start message: running, counter at zero; pins and timers untouched. */
  function Started(s: State): State
  {
    s.(clockTicks := 0, pulsing := true)
  }

  /** A Stop message: stopped; counter, pins and timers untouched. */
  function Stopped(s: State): State
  {
    s.(pulsing := false)
  }

  // The polling half of the loop body.

  /** The throttle of the reversion poll allows a pass at `now`. */
  predicate CheckDue(s: State, now: nat)
  {
    s.pulsing && Elapsed(now, s.pulseCheckMillis) > PulseCheck
  }

  /** A poll at `now` turns the LED off: a pass is due, the LED timer is
      pending and its hold time has strictly elapsed. */
  predicate LedDue(s: State, now: nat)
  {
    CheckDue(s, now) && s.pulseLedMillis != 0 && Elapsed(now, s.pulseLedMillis) > PulseLed
  }

  /** A poll at `now` pulls the sync pin low, on the same terms as LedDue. */
  predicate SyncDue(s: State, now: nat)
  {
    CheckDue(s, now) && s.pulseSyncMillis != 0 && Elapsed(now, s.pulseSyncMillis) > PulseSync
  }

  /** The first half of one loop pass. While running, a throttled check
      reverts the pins whose hold time is over and records the time of the
      check; while stopped, the LED shows the idle ramp `idx % 2048`. */
  function Polled(s: State, idx: nat, now: nat): (t: State)
    ensures t.clockTicks == s.clockTicks && t.pulsing == s.pulsing
    ensures !s.pulsing ==> t == s.(ledDuty := idx % IdleDutyPeriod)
    ensures s.pulsing && !CheckDue(s, now) ==> t == s
    ensures t.pulseCheckMillis == if CheckDue(s, now) then now else s.pulseCheckMillis
    ensures LedDue(s, now) ==> t.ledDuty == 0 && t.pulseLedMillis == 0
    ensures s.pulsing && !LedDue(s, now) ==> t.ledDuty == s.ledDuty
    ensures !LedDue(s, now) ==> t.pulseLedMillis == s.pulseLedMillis
    ensures SyncDue(s, now) ==> !t.syncValue && t.pulseSyncMillis == 0
    ensures !SyncDue(s, now) ==> t.syncValue == s.syncValue && t.pulseSyncMillis == s.pulseSyncMillis
  {
    if s.pulsing then
      if Elapsed(now, s.pulseCheckMillis) > PulseCheck then
        var afterLed := if s.pulseLedMillis != 0 && Elapsed(now, s.pulseLedMillis) > PulseLed
                        then LedCleared(s) else s;
        var afterSync := if afterLed.pulseSyncMillis != 0 && Elapsed(now, afterLed.pulseSyncMillis) > PulseSync
                         then SyncLowered(afterLed) else afterLed;
        afterSync.(pulseCheckMillis := now)
      else s
    else s.(ledDuty := idx % IdleDutyPeriod)
  }

  /** The second half of one loop pass: a received message, if any, goes to
      its handler; a Timing Clock only while running; anything else is ignored.
      `now` is the time the handlers' pin operations read. */
  function Dispatched(s: State, msg: Option<Msg>, now: nat): (t: State)
    ensures msg == None || msg == Some(Other) ==> t == s
    ensures msg == Some(TimingClock) && !s.pulsing ==> t == s
    ensures msg == Some(TimingClock) && s.pulsing ==> t == Clocked(s, now)
    ensures msg == Some(Start) ==> t.pulsing && t.clockTicks == 0
    ensures msg == Some(Stop) ==> !t.pulsing && t.clockTicks == s.clockTicks
    ensures msg != Some(TimingClock) ==>
              t.syncValue == s.syncValue && t.ledDuty == s.ledDuty && t.pulseCheckMillis == s.pulseCheckMillis
              && t.pulseLedMillis == s.pulseLedMillis && t.pulseSyncMillis == s.pulseSyncMillis
  {
    match msg
    case None => s
    case Some(m) =>
      match m
      case TimingClock => if s.pulsing then Clocked(s, now) else s
      case Start => Started(s)
      case Stop => Stopped(s)
      case Other => s
  }

  /** One pass of the loop body: poll at `now` with loop counter `idx`, then
      dispatch the message received, with handler time `stamp`. */
  function Stepped(s: State, idx: nat, now: nat, msg: Option<Msg>, stamp: nat): State
  {
    Dispatched(Polled(s, idx, now), msg, stamp)
  }

  /** The loop counter after one iteration of the main loop: one more,
      wrapping to zero at 65536. */
  function NextIdx(idx: nat): (r: nat)
    ensures r < IdxPeriod
    ensures idx + 1 < IdxPeriod ==> r == idx + 1
    ensures idx + 1 == IdxPeriod ==> r == 0
  {
    (idx + 1) % IdxPeriod
  }
}
