/** What the translator guarantees, proved about the pure model: the LED
    levels, the reachable-state invariant, the tick divider's periodicity and
    the rules by which the pulse timers revert their pins. */
module SyncProperties {
  import opened SyncModel

  /** The two flash levels truncate to duty cycles 65 and 13107. */
  lemma DutyLevels()
    ensures Duty(HalfBeatLevel) == 65
    ensures Duty(BeatLevel) == 13107
  {
  }

  /** One loop pass keeps the reachable-state invariant. */
  lemma SteppedKeepsInv(s: State, idx: nat, now: nat, msg: Option<Msg>, stamp: nat)
    requires Inv(s)
    ensures Inv(Stepped(s, idx, now, msg, stamp))
  {
  }

  // ---------------------------------------------------------------------
  // The tick divider over a run of Timing Clocks.

  /** The states in which each of a run of Timing Clocks is handled, the
      first one in `s`; `stamps` are the times those clocks are handled at. */
  function Prestates(s: State, stamps: seq<nat>): (r: seq<State>)
    ensures |r| == |stamps|
    decreases |stamps|
  {
    if stamps == [] then [] else [s] + Prestates(Clocked(s, stamps[0]), stamps[1..])
  }

  /** While running from a counter of at most one beat, the counter before the
      k-th further clock is `c`, then runs through 1..24 from where `c` left
      off, and stays in range. */
  lemma {:induction false} PrestateTicks(s: State, stamps: seq<nat>, k: nat)
    requires s.pulsing && s.clockTicks <= Ppqn && k < |stamps|
    ensures Prestates(s, stamps)[k].pulsing
    ensures Prestates(s, stamps)[k].clockTicks
            == if k == 0 then s.clockTicks else (s.clockTicks % Ppqn + k - 1) % Ppqn + 1
    decreases k
  {
    if k > 0 {
      var next := Clocked(s, stamps[0]);
      assert Prestates(s, stamps)[k] == Prestates(next, stamps[1..])[k - 1];
      PrestateTicks(next, stamps[1..], k - 1);
      var c := s.clockTicks % Ppqn;
      assert next.clockTicks == c + 1;
      if k > 1 {
        assert (next.clockTicks % Ppqn + (k - 1) - 1) % Ppqn == (c + k - 1) % Ppqn;
      }
    }
  }

  /** After a Start, the clock handled after k earlier clocks sees counter
      (k - 1) % 24 + 1 (0 for the first), so the sync pin fires on clocks
      1, 13, 25, 37, ... and the beat flash on clocks 1, 25, 49, ... */
  lemma TicksFromStart(s: State, stamps: seq<nat>, k: nat)
    requires k < |stamps|
    ensures Prestates(Started(s), stamps)[k].pulsing
    ensures Prestates(Started(s), stamps)[k].clockTicks == if k == 0 then 0 else (k - 1) % Ppqn + 1
    ensures FiresSync(Prestates(Started(s), stamps)[k]) <==> k % TicksPerHalfBeat == 0
    ensures FiresBeat(Prestates(Started(s), stamps)[k]) <==> k % Ppqn == 0
  {
    PrestateTicks(Started(s), stamps, k);
  }

  /** How many of the states in `w` fire the sync pin on their clock. */
  function SyncCount(w: seq<State>): nat
  {
    if w == [] then 0 else (if FiresSync(w[0]) then 1 else 0) + SyncCount(w[1..])
  }

  /** How many of the states in `w` flash the beat on their clock. */
  function BeatCount(w: seq<State>): nat
  {
    if w == [] then 0 else (if FiresBeat(w[0]) then 1 else 0) + BeatCount(w[1..])
  }

  /** The two divisors of the tick divider. */
  predicate Divisor(m: nat)
  {
    m == TicksPerHalfBeat || m == Ppqn
  }

  /** How many of c, c + 1, ..., c + n - 1 are multiples of m. */
  function MultipleCount(c: nat, m: nat, n: nat): nat
    requires Divisor(m)
    decreases n
  {
    if n == 0 then 0 else (if c % m == 0 then 1 else 0) + MultipleCount(c + 1, m, n - 1)
  }

  lemma {:induction false} MultipleCountSplit(c: nat, m: nat, a: nat, b: nat)
    requires Divisor(m)
    ensures MultipleCount(c, m, a + b) == MultipleCount(c, m, a) + MultipleCount(c + a, m, b)
    decreases a
  {
    if a > 0 {
      MultipleCountSplit(c + 1, m, a - 1, b);
    }
  }

  lemma {:induction false} MultipleCountNone(c: nat, m: nat, n: nat)
    requires Divisor(m) && 0 < c && c + n <= m
    ensures MultipleCount(c, m, n) == 0
    decreases n
  {
    if n > 0 {
      MultipleCountNone(c + 1, m, n - 1);
    }
  }

  lemma {:induction false} MultipleCountShift(c: nat, m: nat, n: nat)
    requires Divisor(m)
    ensures MultipleCount(c + Ppqn, m, n) == MultipleCount(c, m, n)
    decreases n
  {
    if n > 0 {
      MultipleCountShift(c + 1, m, n - 1);
    }
  }

  lemma SamePhase(c: nat, m: nat)
    requires Divisor(m)
    ensures (c + m) % m == c % m
  {
    // Splitting on the divisor turns each case into arithmetic modulo a constant.
    if m == TicksPerHalfBeat {
    } else {
    }
  }

  /** Any m consecutive numbers hold exactly one multiple of m. */
  lemma {:induction false} MultipleCountPeriod(c: nat, m: nat)
    requires Divisor(m)
    ensures MultipleCount(c, m, m) == 1
    decreases c
  {
    if c == 0 {
      MultipleCountNone(1, m, m - 1);
    } else {
      // The window starting at c - 1 differs from the one at c only in its
      // first number, c - 1, and the new last one, c - 1 + m: both or neither
      // are multiples of m.
      MultipleCountPeriod(c - 1, m);
      MultipleCountSplit(c, m, m - 1, 1);
      assert MultipleCount(c - 1, m, m) == (if (c - 1) % m == 0 then 1 else 0) + MultipleCount(c, m, m - 1);
      assert MultipleCount(c + (m - 1), m, 1) == if (c - 1 + m) % m == 0 then 1 else 0;
      SamePhase(c - 1, m);
    }
  }

  /** Over a run of clocks while running, the sync pin fires on the clocks
      whose counter, followed on from the start, is a multiple of 12 and the
      beat on those where it is a multiple of 24. */
  lemma {:induction false} CountsFollowCounter(s: State, stamps: seq<nat>)
    requires s.pulsing && s.clockTicks <= Ppqn
    ensures SyncCount(Prestates(s, stamps)) == MultipleCount(s.clockTicks, TicksPerHalfBeat, |stamps|)
    ensures BeatCount(Prestates(s, stamps)) == MultipleCount(s.clockTicks, Ppqn, |stamps|)
    decreases |stamps|
  {
    if stamps != [] {
      var next := Clocked(s, stamps[0]);
      var rest := stamps[1..];
      assert Prestates(s, stamps) == [s] + Prestates(next, rest);
      assert Prestates(s, stamps)[1..] == Prestates(next, rest);
      CountsFollowCounter(next, rest);
      if s.clockTicks == Ppqn {
        MultipleCountShift(1, TicksPerHalfBeat, |rest|);
        MultipleCountShift(1, Ppqn, |rest|);
      }
    }
  }

  /** Sync periodicity and the beat flash: any 24 consecutive Timing Clocks
      while running raise the sync pin exactly twice and flash the LED at
      beat level exactly once. */
  lemma TwoSyncsOneBeatPer24(s: State, stamps: seq<nat>)
    requires Inv(s) && s.pulsing && |stamps| == Ppqn
    ensures SyncCount(Prestates(s, stamps)) == 2
    ensures BeatCount(Prestates(s, stamps)) == 1
  {
    CountsFollowCounter(s, stamps);
    MultipleCountSplit(s.clockTicks, TicksPerHalfBeat, TicksPerHalfBeat, TicksPerHalfBeat);
    MultipleCountPeriod(s.clockTicks, TicksPerHalfBeat);
    MultipleCountPeriod(s.clockTicks + TicksPerHalfBeat, TicksPerHalfBeat);
    MultipleCountPeriod(s.clockTicks, Ppqn);
  }

  // ---------------------------------------------------------------------
  // The pulse timers over a run of poll passes.

  /** One poll pass: the loop counter and the time read. */
  datatype Pass = Pass(idx: nat, now: nat)

  /** The state after poll passes with no message in between. */
  function PolledAll(s: State, passes: seq<Pass>): State
    decreases |passes|
  {
    if passes == [] then s else PolledAll(Polled(s, passes[0].idx, passes[0].now), passes[1..])
  }

  /** The hold time is a minimum: while running, no poll at a time less than
      or equal to 15 ms after the LED was lit turns it off. */
  lemma {:induction false} LedHeldForHoldTime(s: State, passes: seq<Pass>)
    requires s.pulsing && s.pulseLedMillis != 0
    requires forall i :: 0 <= i < |passes| ==> Elapsed(passes[i].now, s.pulseLedMillis) <= PulseLed
    ensures PolledAll(s, passes).ledDuty == s.ledDuty
    ensures PolledAll(s, passes).pulseLedMillis == s.pulseLedMillis
    decreases |passes|
  {
    if passes != [] {
      LedHeldForHoldTime(Polled(s, passes[0].idx, passes[0].now), passes[1..]);
    }
  }

  /** The hold time is a minimum: no poll at a time less than or equal to
      15 ms after the sync pin was raised pulls it low. */
  lemma {:induction false} SyncHeldForHoldTime(s: State, passes: seq<Pass>)
    requires s.syncValue && s.pulseSyncMillis != 0
    requires forall i :: 0 <= i < |passes| ==> Elapsed(passes[i].now, s.pulseSyncMillis) <= PulseSync
    ensures PolledAll(s, passes).syncValue
    ensures PolledAll(s, passes).pulseSyncMillis == s.pulseSyncMillis
    decreases |passes|
  {
    if passes != [] {
      SyncHeldForHoldTime(Polled(s, passes[0].idx, passes[0].now), passes[1..]);
    }
  }

  /** Last fire wins: raising the sync pin again restarts its window, so a
      poll within 15 ms of the second raise leaves it high. */
  lemma RefireRestartsWindow(s: State, first: nat, second: nat, idx: nat, now: nat)
    requires second != 0 && Elapsed(now, second) <= PulseSync
    ensures SyncRaised(SyncRaised(s, first), second) == SyncRaised(s, second)
    ensures Polled(SyncRaised(SyncRaised(s, first), second), idx, now).syncValue
  {
  }

  /** Last fire wins for the LED: lighting it again replaces the level and
      restarts its window, so while running a poll within 15 ms of the second
      lighting leaves it lit at the second level. */
  lemma LedRefireRestartsWindow(s: State, first: real, second: real, t1: nat, t2: nat, idx: nat, now: nat)
    requires 0.0 <= first <= 1.0 && 0.0 <= second <= 1.0
    requires s.pulsing && t2 != 0 && Elapsed(now, t2) <= PulseLed
    ensures LedLit(LedLit(s, first, t1), second, t2) == LedLit(s, second, t2)
    ensures Polled(LedLit(LedLit(s, first, t1), second, t2), idx, now).ledDuty == Duty(second)
  {
  }

  /** A sync pulse raised at time 0 is indistinguishable from no pending
      pulse: no poll ever pulls it low. */
  lemma {:induction false} ZeroStampStaysHigh(s: State, passes: seq<Pass>)
    requires s.syncValue && s.pulseSyncMillis == 0
    ensures PolledAll(s, passes).syncValue
    ensures PolledAll(s, passes).pulseSyncMillis == 0
    decreases |passes|
  {
    if passes != [] {
      ZeroStampStaysHigh(Polled(s, passes[0].idx, passes[0].now), passes[1..]);
    }
  }

  /** After a Stop, polling reverts nothing and the throttle stays where it
      was: a sync pin that is high stays high, and the counter is kept. */
  lemma {:induction false} StoppedFreezesTimers(s: State, passes: seq<Pass>)
    requires !s.pulsing
    ensures PolledAll(s, passes).syncValue == s.syncValue
    ensures PolledAll(s, passes).pulseSyncMillis == s.pulseSyncMillis
    ensures PolledAll(s, passes).pulseLedMillis == s.pulseLedMillis
    ensures PolledAll(s, passes).pulseCheckMillis == s.pulseCheckMillis
    ensures PolledAll(s, passes).clockTicks == s.clockTicks
    ensures passes != [] ==> PolledAll(s, passes).ledDuty == passes[|passes| - 1].idx % IdleDutyPeriod
    decreases |passes|
  {
    if passes != [] {
      StoppedFreezesTimers(Polled(s, passes[0].idx, passes[0].now), passes[1..]);
    }
  }
}
