/**
  The running application: the module-level state of the sensor loop
  (`level`, `readLock`, the pending reset `timer`) with its three callbacks,
  each an event method here: a sample of the sensor, the debounce timeout
  and the inactivity timeout.  Each of the three sensor callbacks is proved
  against the matching step function of the Trigger module.
 */
module Lighting {
  import opened Wrappers
  import opened Waveforms
  import opened Effects
  import opened Patterns
  import opened Scenes
  import opened Trigger
  import opened Illuminations

  /** The module-level state of the application and its callbacks. */
  class Controller {
    const illumination: Illumination
    /** The PWM pins and the socket.io broadcast, as one log of effects. */
    const out: Trace
    var level: int
    var readLock: bool
    /** Whether the 20000 ms reset timeout is pending (set, and neither cleared nor fired). */
    var timerArmed: bool

    ghost function State(): TriggerState
      reads this, illumination
    {
      TriggerState(level, readLock, timerArmed, illumination.current)
    }

    /**
      The machine's invariant holds, and the current pair is started exactly
      once the level has reached 10; so the periodic patterns that run are
      exactly those of scene level / 10.
     */
    ghost predicate Valid()
      reads this, illumination, illumination.leds
    {
      illumination.Valid() && Consistent(State())
      && (illumination.started <==> Step <= level)
    }

    constructor ()
      ensures Valid() && State() == Initial && out.events == []
      ensures illumination.phases == Offsets()
      ensures fresh(illumination) && fresh(out)
      ensures forall k :: 0 <= k < |illumination.leds| ==> fresh(illumination.leds[k])
    {
      illumination := new Illumination();
      out := new Trace();
      level, readLock, timerArmed := 0, false, false;
    }

    /** The patterns that run are the periodic ones of scene level / 10, and only from level 10 on. */
    lemma RunningPatterns(k: nat)
      requires Valid() && k < |illumination.leds|
      ensures illumination.leds[k].running <==>
        Step <= level && k / 2 == level / Step && illumination.leds[k].kind.Periodic?
    {
    }

    /** illuminationStop(): notify 0, then stop the current pair. */
    method IlluminationStop()
      requires illumination.Valid()
      modifies illumination, illumination.leds, out
      ensures illumination.Valid() && illumination.current == old(illumination.current)
      ensures !illumination.started && illumination.phases == old(illumination.phases)
      ensures out.events == old(out.events) + IlluminationStopEffects(illumination.current)
    {
      out.events := out.events + [Music(0)];
      illumination.Stop(out);
    }

    /** illuminationStart(i): notify i, then start scene i. */
    method IlluminationStart(i: nat)
      requires illumination.Valid() && i < |Table| && !illumination.started
      modifies illumination, illumination.leds, out
      ensures illumination.Valid() && illumination.current == Some(i) && illumination.started
      ensures illumination.phases == StartPhases(old(illumination.phases), i)
      ensures out.events == old(out.events) + IlluminationStartEffects(i)
    {
      out.events := out.events + [Music(i)];
      illumination.Start(i, out);
    }

    /** The switch at every 10th detection: illuminationStop(), then illuminationStart(i). */
    method SwitchScene(i: nat)
      requires illumination.Valid() && i < |Table|
      modifies illumination, illumination.leds, out
      ensures illumination.Valid() && illumination.current == Some(i) && illumination.started
      ensures illumination.phases == StartPhases(old(illumination.phases), i)
      ensures out.events == old(out.events) + IlluminationStopEffects(old(illumination.current)) + IlluminationStartEffects(i)
    {
      IlluminationStop();
      IlluminationStart(i);
    }

    /** The 15 ms sampling interval fires and the sensor reads v (read only when not locked). */
    method Sample(v: int)
      requires Valid()
      modifies this, illumination, illumination.leds, out
      ensures Valid()
      ensures State() == SampleStep(old(State()), v).0
      ensures out.events == old(out.events) + SampleStep(old(State()), v).1
      ensures SampleStep(old(State()), v).1 == [] ==> illumination.phases == old(illumination.phases)
      ensures SampleStep(old(State()), v).1 != [] ==>
        illumination.phases == StartPhases(old(illumination.phases), level / Step)
    {
      SampleGuards(State(), v);
      if !readLock {
        var sensorValue := v;
        if sensorValue == 1 {
          Detected();
        }
      }
    }

    /**
      The sensor read 1 while unlocked: lock for 3000 ms, clear the pending
      reset, count the detection unless the last scene is reached, and arm a
      fresh 20000 ms reset.
     */
    method Detected()
      requires Valid() && !readLock
      modifies this, illumination, illumination.leds, out
      ensures Valid()
      ensures State() == SampleStep(old(State()), 1).0
      ensures out.events == old(out.events) + SampleStep(old(State()), 1).1
      ensures SampleStep(old(State()), 1).1 == [] ==> illumination.phases == old(illumination.phases)
      ensures SampleStep(old(State()), 1).1 != [] ==>
        illumination.phases == StartPhases(old(illumination.phases), level / Step)
    {
      ghost var s := State();
      readLock := true;
      timerArmed := false;
      CanAdvanceIff(level);
      if (level as real) / (Step as real) < (|Table| - 1) as real {
        CountingSample(s);
        Count();
      } else {
        CappedDetection(s);
      }
      timerArmed := true;
    }

    /** `level++`, and at every multiple of 10 the switch to scene level / 10. */
    method Count()
      requires illumination.Valid() && 0 <= level < MaxLevel
      requires illumination.started <==> Step <= level
      requires Step <= level ==> illumination.current == Some(level / Step)
      modifies this, illumination, illumination.leds, out
      ensures readLock == old(readLock) && timerArmed == old(timerArmed)
      ensures level == old(level) + 1 && illumination.Valid()
      ensures illumination.started <==> Step <= level
      ensures level % Step != 0 ==> illumination.current == old(illumination.current) && out.events == old(out.events)
      ensures level % Step != 0 ==> illumination.phases == old(illumination.phases)
      ensures level % Step == 0 ==> illumination.phases == StartPhases(old(illumination.phases), level / Step)
      ensures level % Step == 0 ==> illumination.current == Some(level / Step)
      ensures level % Step == 0 ==>
        out.events == old(out.events) + IlluminationStopEffects(old(illumination.current)) + IlluminationStartEffects(level / Step)
    {
      CountStep(level);
      level := level + 1;
      if level % Step == 0 {
        SwitchScene(level / Step);
      }
    }

    /** The 3000 ms debounce timeout fires: sampling resumes. */
    method UnlockFires()
      requires Valid()
      modifies this
      ensures Valid()
      ensures State() == UnlockStep(old(State())) && out.events == old(out.events)
      ensures illumination.phases == old(illumination.phases)
    {
      readLock := false;
    }

    /** The 20000 ms inactivity timeout fires: illuminationStop(), then the count restarts from 0. */
    method ResetFires()
      requires Valid() && timerArmed
      modifies this, illumination, illumination.leds, out
      ensures Valid()
      ensures State() == ResetStep(old(State())).0
      ensures out.events == old(out.events) + ResetStep(old(State())).1
      ensures forall k :: 0 <= k < |illumination.leds| ==> !illumination.leds[k].running
      ensures illumination.phases == old(illumination.phases)
    {
      IlluminationStop();
      level := 0;
      timerArmed := false;
    }

    /**
      The interval of running pattern k fires: it writes a duty cycle within
      [0, PWM_MAX] to its pin and advances its clock by 15 modulo its period;
      every other clock, and the sensor state, stay as they were.
     */
    method Tick(k: nat)
      requires Valid() && k < |illumination.leds| && illumination.leds[k].running
      modifies illumination, illumination.leds[k], out
      ensures Valid() && State() == old(State())
      ensures illumination.leds[k].kind.Periodic?
      ensures illumination.leds[k].time ==
        NextPhase(old(illumination.leds[k].time), Period(illumination.leds[k].kind.shape))
      ensures illumination.phases == old(illumination.phases)[k := illumination.leds[k].time]
      ensures out.events == old(out.events)
        + [PwmWrite(SlotPin(k), TickValue(illumination.leds[k].kind.shape, old(illumination.leds[k].time)))]
      ensures 0 <= TickValue(illumination.leds[k].kind.shape, old(illumination.leds[k].time)) <= PwmMax
    {
      illumination.Tick(k, out);
    }

    /** The SIGINT handler's illuminationStop(): on exit no pattern is left running. */
    method Shutdown()
      requires Valid()
      modifies illumination, illumination.leds, out
      ensures illumination.Valid()
      ensures out.events == old(out.events) + IlluminationStopEffects(illumination.current)
      ensures forall k :: 0 <= k < |illumination.leds| ==> !illumination.leds[k].running
      ensures illumination.phases == old(illumination.phases)
    {
      IlluminationStop();
    }
  }
}
