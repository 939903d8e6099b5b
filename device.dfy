/** The translator as the program runs it: one object whose fields are the
    program's module-level variables and pin levels, updated in place by the
    handlers. Every method is proved to perform exactly the transition of the
    corresponding function in SyncModel. */
module SyncDevice {
  import opened SyncModel
  import SyncProperties

  class Translator {
    var clockTicks: nat
    var pulsing: bool
    var pulseCheckMillis: nat
    var pulseLedMillis: nat
    var pulseSyncMillis: nat
    /** The level of the sync output pin. */
    var syncValue: bool
    /** The duty cycle of the LED's PWM output. */
    var ledDuty: nat

    /** The fields as a value of the model. */
    function Snapshot(): State
      reads this
    {
      State(clockTicks, pulsing, pulseCheckMillis, pulseLedMillis, pulseSyncMillis, syncValue, ledDuty)
    }

    predicate Valid()
      reads this
    {
      Inv(Snapshot())
    }

    /** The variables' initial values and the pins as configured: LED duty 0,
        sync low. */
    constructor ()
      ensures Snapshot() == Boot
      ensures Valid()
    {
      clockTicks, pulsing := 0, false;
      pulseCheckMillis, pulseLedMillis, pulseSyncMillis := 0, 0, 0;
      syncValue, ledDuty := false, 0;
    }

    /** Lights the LED at `level` and starts its timer at `now`. */
    method LedPinOn(level: real, now: nat)
      requires 0.0 <= level <= 1.0
      requires Valid()
      modifies this
      ensures Valid()
      ensures Snapshot() == LedLit(old(Snapshot()), level, now)
    {
      ledDuty := Duty(level);
      pulseLedMillis := now;
    }

    /** Turns the LED off and clears its timer. */
    method LedPinOff()
      requires Valid()
      modifies this
      ensures Valid()
      ensures Snapshot() == LedCleared(old(Snapshot()))
    {
      ledDuty := 0;
      pulseLedMillis := 0;
    }

    /** Raises the sync pin and starts its timer at `now`. */
    method SyncPinOn(now: nat)
      requires Valid()
      modifies this
      ensures Valid()
      ensures Snapshot() == SyncRaised(old(Snapshot()), now)
    {
      syncValue := true;
      pulseSyncMillis := now;
    }

    /** Pulls the sync pin low and clears its timer. */
    method SyncPinOff()
      requires Valid()
      modifies this
      ensures Valid()
      ensures Snapshot() == SyncLowered(old(Snapshot()))
    {
      syncValue := false;
      pulseSyncMillis := 0;
    }

    /** A Timing Clock, handled at time `now`. */
    method HandleClock(now: nat)
      requires Valid()
      modifies this
      ensures Valid()
      ensures Snapshot() == Clocked(old(Snapshot()), now)
      ensures old(pulsing) ==> 1 <= clockTicks <= Ppqn
    {
      if !pulsing {
        return;
      }
      if IsHalfBeat(clockTicks) {
        LedPinOn(HalfBeatLevel, now);
        SyncPinOn(now);
      }
      if IsBeat(clockTicks) {
        clockTicks := 0;
        LedPinOn(BeatLevel, now);
      }
      clockTicks := clockTicks + 1;
    }

    /** A Start message: counting restarts from zero and clocks are honoured,
        whatever the state before; pins and timers are untouched. */
    method HandleStart()
      requires Valid()
      modifies this
      ensures Valid()
      ensures clockTicks == 0 && pulsing
      ensures Snapshot() == Started(old(Snapshot()))
    {
      clockTicks := 0;
      pulsing := true;
    }

    /** A Stop message: clocks are ignored until the next Start; the counter,
        pins and timers are untouched, so a high sync pin stays high. */
    method HandleStop()
      requires Valid()
      modifies this
      ensures Valid()
      ensures !pulsing
      ensures Snapshot() == Stopped(old(Snapshot()))
    {
      pulsing := false;
    }

    /** One pass of the loop body with loop counter `idx`: the throttled poll,
        reading the clock as `now`, then the dispatch of `msg`, the message
        received if any, whose handler reads the clock as `stamp`. */
    method LoopStep(idx: nat, now: nat, msg: Option<Msg>, stamp: nat)
      requires Valid()
      modifies this
      ensures Valid()
      ensures Snapshot() == Stepped(old(Snapshot()), idx, now, msg, stamp)
    {
      ghost var before := Snapshot();
      if pulsing {
        if Elapsed(now, pulseCheckMillis) > PulseCheck {
          if pulseLedMillis != 0 && Elapsed(now, pulseLedMillis) > PulseLed {
            LedPinOff();
          }
          if pulseSyncMillis != 0 && Elapsed(now, pulseSyncMillis) > PulseSync {
            SyncPinOff();
          }
          pulseCheckMillis := now;
        }
      } else {
        ledDuty := idx % IdleDutyPeriod;
      }
      assert Snapshot() == Polled(before, idx, now);
      SyncProperties.SteppedKeepsInv(before, idx, now, None, stamp);
      match msg {
        case None =>
        case Some(m) =>
          match m {
            case TimingClock =>
              if pulsing {
                HandleClock(stamp);
              }
            case Start =>
              HandleStart();
            case Stop =>
              HandleStop();
            case Other =>
          }
      }
      SyncProperties.SteppedKeepsInv(before, idx, now, msg, stamp);
    }

    /** One iteration of the main loop: a loop pass, then the loop counter
        advanced with wrap-around at 65536. */
    method MainIteration(idx: nat, now: nat, msg: Option<Msg>, stamp: nat) returns (next: nat)
      requires Valid()
      modifies this
      ensures Valid()
      ensures Snapshot() == Stepped(old(Snapshot()), idx, now, msg, stamp)
      ensures next == NextIdx(idx) && next < IdxPeriod
    {
      LoopStep(idx, now, msg, stamp);
      next := (idx + 1) % IdxPeriod;
    }
  }
}
