/**
  The sensor-sampling state machine, as pure step functions over its state:
  the detection counter `level`, the debounce `readLock`, whether the
  inactivity-reset timeout is pending, and the scene the Illumination holds as
  current.  Each step also returns the effects it causes, in order.
 */
module Trigger {
  import opened Wrappers
  import opened Waveforms
  import opened Effects
  import opened Patterns
  import opened Scenes

  /** Detections per scene. */
  const Step: int := 10
  /** The largest value `level` can reach: (illuminations.length − 1) · 10. */
  const MaxLevel: int := (|Table| - 1) * Step

  datatype TriggerState = TriggerState(level: int, readLock: bool, timerArmed: bool, scene: Option<nat>)

  /** The state at start-up: nothing counted, nothing locked, no timer, no current pair. */
  const Initial: TriggerState := TriggerState(0, false, false, None)

  /**
    The invariant of the machine: the level is capped; the reset timeout is
    pending exactly when something has been counted; the current pair, once set,
    is one of scenes 1 to 4; and from level 10 on it is scene level / 10.
   */
  predicate Consistent(s: TriggerState)
  {
    0 <= s.level <= MaxLevel
    && (s.timerArmed <==> 0 < s.level)
    && (s.scene.Some? ==> 1 <= s.scene.value < |Table|)
    && (Step <= s.level ==> s.scene == Some(s.level / Step))
  }

  /** The guard `level / 10 < illuminations.length - 1`, with JavaScript's real division. */
  predicate CanAdvance(level: int)
  {
    (level as real) / (Step as real) < (|Table| - 1) as real
  }

  /** illuminationStop(): notify 0, then stop the current pair. */
  function IlluminationStopEffects(scene: Option<nat>): seq<Event>
    requires scene.Some? ==> scene.value < |Table|
  {
    [Music(0)] + SceneStopWrites(scene)
  }

  /** illuminationStart(i): notify i, then start scene i. */
  function IlluminationStartEffects(i: nat): seq<Event>
    requires i < |Table|
  {
    [Music(i)] + SceneStartWrites(i)
  }

  /** One firing of the 15 ms sampling interval that reads the sensor value v. */
  function SampleStep(s: TriggerState, v: int): (r: (TriggerState, seq<Event>))
    requires Consistent(s)
    ensures Consistent(r.0)
  {
    if s.readLock || v != 1 then (s, [])
    else if CanAdvance(s.level) then
      var level := s.level + 1;
      if level % Step == 0 then
        (TriggerState(level, true, true, Some(level / Step)),
         IlluminationStopEffects(s.scene) + IlluminationStartEffects(level / Step))
      else
        (TriggerState(level, true, true, s.scene), [])
    else
      (s.(readLock := true, timerArmed := true), [])
  }

  /** The 3000 ms debounce timeout fires. */
  function UnlockStep(s: TriggerState): (r: TriggerState)
    ensures !r.readLock && r.level == s.level && r.scene == s.scene && r.timerArmed == s.timerArmed
  {
    s.(readLock := false)
  }

  /** The 20000 ms inactivity timeout fires: stop the current pair, notify 0, forget the count. */
  function ResetStep(s: TriggerState): (r: (TriggerState, seq<Event>))
    requires Consistent(s) && s.timerArmed
    ensures Consistent(r.0) && r.0.level == 0 && r.0.scene == s.scene && r.0.readLock == s.readLock
  {
    (s.(level := 0, timerArmed := false), IlluminationStopEffects(s.scene))
  }

  /** A detection followed by its debounce timeout, with no reset in between. */
  function Detect(s: TriggerState): (r: (TriggerState, seq<Event>))
    requires Consistent(s)
    ensures Consistent(r.0)
  {
    var a := SampleStep(s, 1);
    (UnlockStep(a.0), a.1)
  }

  /** n detections in a row, and the effects they cause in order. */
  function DetectRun(s: TriggerState, n: nat): (r: (TriggerState, seq<Event>))
    requires Consistent(s)
    ensures Consistent(r.0)
  {
    if n == 0 then (s, [])
    else
      var a := DetectRun(s, n - 1);
      var b := Detect(a.0);
      (b.0, a.1 + b.1)
  }

  /** Consecutive samples with no timeout firing in between. */
  function SampleAll(s: TriggerState, vs: seq<int>): (r: (TriggerState, seq<Event>))
    requires Consistent(s)
    ensures Consistent(r.0)
    decreases |vs|
  {
    if vs == [] then (s, [])
    else
      var a := SampleStep(s, vs[0]);
      var b := SampleAll(a.0, vs[1..]);
      (b.0, a.1 + b.1)
  }

  // ===== Lemmas =====

  /** With real division the counter advances exactly while it is below 40. */
  lemma CanAdvanceIff(level: int)
    ensures CanAdvance(level) <==> level < MaxLevel
  {
    if CanAdvance(level) {
      assert (level as real) < 40.0;
    }
  }

  /**
    While locked, or on a reading other than 1, a sample reads nothing and
    changes nothing; a reading of 1 always leaves the lock set and exactly one
    reset timeout pending.
   */
  lemma SampleGuards(s: TriggerState, v: int)
    requires Consistent(s)
    ensures s.readLock || v != 1 ==> SampleStep(s, v) == (s, [])
    ensures !s.readLock && v == 1 ==> SampleStep(s, v).0.readLock && SampleStep(s, v).0.timerArmed
    ensures s.readLock ==> SampleStep(s, v).0.readLock
  {
  }

  /**
    A sample switches scene, and emits anything at all, exactly when it counts
    a detection that makes the level a multiple of 10; the scene started is
    then level / 10, one of 1 to 4.
   */
  lemma SwitchIff(s: TriggerState, v: int)
    requires Consistent(s)
    ensures var r := SampleStep(s, v);
      (r.1 != [] <==> !s.readLock && v == 1 && s.level < MaxLevel && (s.level + 1) % Step == 0)
      && (r.1 != [] ==> r.0.level == s.level + 1 && r.0.scene == Some(r.0.level / Step) && 1 <= r.0.level / Step < |Table|)
      && (r.1 == [] ==> r.0.scene == s.scene)
  {
    CanAdvanceIff(s.level);
  }

  /**
    On a switch the effects are: notify 0, zero writes that stop the current
    pair, notify the new scene, then the new scene's start writes; nothing
    else, and nothing interleaved.
   */
  lemma SwitchStopsBeforeStarts(s: TriggerState, v: int)
    requires Consistent(s) && SampleStep(s, v).1 != []
    ensures var evs := SampleStep(s, v).1;
      var n := SampleStep(s, v).0.scene.value;
      var j := |evs| - |SceneStartWrites(n)| - 1;
      0 < j && evs[0] == Music(0) && evs[j] == Music(n)
      && (forall k :: 0 < k < j ==> evs[k].PwmWrite? && evs[k].value == 0)
      && evs[j + 1..] == SceneStartWrites(n)
      && evs[1..j] == SceneStopWrites(s.scene)
  {
    SwitchIff(s, v);
    var n := SampleStep(s, v).0.scene.value;
    var stop := SceneStopWrites(s.scene);
    var evs := SampleStep(s, v).1;
    assert evs == [Music(0)] + stop + [Music(n)] + SceneStartWrites(n);
    assert forall k :: 0 <= k < |stop| ==> stop[k].PwmWrite? && stop[k].value == 0;
  }

  /**
    Below the cap a reading of 1 counts one detection, locks, arms the reset,
    and switches scene exactly when the new level is a multiple of 10.
   */
  lemma CountingSample(s: TriggerState)
    requires Consistent(s) && !s.readLock && s.level < MaxLevel
    ensures (s.level + 1) % Step == 0 ==>
      SampleStep(s, 1) == (TriggerState(s.level + 1, true, true, Some((s.level + 1) / Step)),
                           IlluminationStopEffects(s.scene) + IlluminationStartEffects((s.level + 1) / Step))
    ensures (s.level + 1) % Step != 0 ==> SampleStep(s, 1) == (TriggerState(s.level + 1, true, true, s.scene), [])
  {
    CanAdvanceIff(s.level);
  }

  /** At the cap a detection only re-locks and re-arms the reset; nothing is counted or emitted. */
  lemma CappedDetection(s: TriggerState)
    requires Consistent(s) && s.level == MaxLevel && !s.readLock
    ensures SampleStep(s, 1) == (s.(readLock := true, timerArmed := true), [])
  {
    CanAdvanceIff(s.level);
  }

  /** A burst of samples inside the debounce window counts nothing and emits nothing. */
  lemma {:induction false} LockedBurstIgnored(s: TriggerState, vs: seq<int>)
    requires Consistent(s) && s.readLock
    ensures SampleAll(s, vs) == (s, [])
    decreases |vs|
  {
    if vs != [] {
      SampleGuards(s, vs[0]);
      LockedBurstIgnored(s, vs[1..]);
      var a := SampleStep(s, vs[0]);
      assert a == (s, []);
      var b := SampleAll(a.0, vs[1..]);
      assert b == (s, []);
      assert SampleAll(s, vs) == (b.0, a.1 + b.1);
      assert a.1 + b.1 == [];
    }
  }

  /**
    Counting one more keeps the scene index level / 10 unless the new level is
    a multiple of 10, where it moves to the next index.
   */
  lemma CountStep(level: int)
    requires 0 <= level
    ensures (level + 1) % Step != 0 ==> (level + 1) / Step == level / Step && (Step <= level + 1 <==> Step <= level)
    ensures (level + 1) % Step == 0 ==> (level + 1) / Step == level / Step + 1 && 1 <= (level + 1) / Step && Step <= level + 1
  {
    var q, r := level / Step, level % Step;
    assert level == q * Step + r;
    if r + 1 < Step {
      ModUnique(level + 1, Step, q, r + 1);
      DivExact(level + 1 - (r + 1), Step, q);
    } else {
      DivExact(level + 1, Step, q + 1);
    }
  }

  /** One detection below the cap counts one, and switches exactly when it reaches a multiple of 10. */
  lemma DetectStep(t: TriggerState)
    requires Consistent(t) && !t.readLock && t.level < MaxLevel
    ensures Detect(t).0.level == t.level + 1 && !Detect(t).0.readLock
    ensures (t.level + 1) % Step != 0 ==> Detect(t).0.scene == t.scene && Detect(t).1 == []
    ensures (t.level + 1) % Step == 0 ==>
      (Detect(t).0.scene == Some((t.level + 1) / Step)
       && Detect(t).1 == IlluminationStopEffects(t.scene) + IlluminationStartEffects((t.level + 1) / Step))
  {
    CanAdvanceIff(t.level);
  }

  /** A detection that does not complete a multiple of 10 only counts. */
  lemma SilentDetection(t: TriggerState)
    requires Consistent(t) && !t.readLock && t.level < MaxLevel && (t.level + 1) % Step != 0
    ensures Detect(t) == (TriggerState(t.level + 1, false, true, t.scene), [])
  {
    DetectStep(t);
  }

  /**
    From a level that is a multiple of 10 below the cap, fewer than 10
    detections change neither the scene nor the outputs: they only count.
   */
  lemma {:induction false} DetectionsAccumulateSilently(s: TriggerState, q: nat, n: nat)
    requires Consistent(s) && !s.readLock && s.level == q * Step && q + 1 < |Table| && n < Step
    ensures DetectRun(s, n) == (TriggerState(s.level + n, false, 0 < s.level + n, s.scene), [])
  {
    if n > 0 {
      DetectionsAccumulateSilently(s, q, n - 1);
      var a := DetectRun(s, n - 1);
      ModUnique(a.0.level + 1, Step, q, n);
      SilentDetection(a.0);
      var b := Detect(a.0);
      assert a.1 + b.1 == [];
      assert b.0 == TriggerState(s.level + n, false, true, s.scene);
      assert DetectRun(s, n) == (b.0, []);
    } else {
      assert s == TriggerState(s.level, s.readLock, s.timerArmed, s.scene);
      assert DetectRun(s, 0) == (s, []);
    }
  }

  /**
    ... and the 10th detection switches to the next scene exactly once: notify
    0, stop the current pair, notify the next scene, start it.
   */
  lemma DetectionsAdvanceOneScene(s: TriggerState, q: nat)
    requires Consistent(s) && !s.readLock && s.level == q * Step && q + 1 < |Table|
    ensures DetectRun(s, Step) ==
      (TriggerState((q + 1) * Step, false, true, Some(q + 1)),
       IlluminationStopEffects(s.scene) + IlluminationStartEffects(q + 1))
  {
    DetectionsAccumulateSilently(s, q, Step - 1);
    var a := DetectRun(s, Step - 1);
    TenthDetection(a.0, q);
    var b := Detect(a.0);
    assert a.1 + b.1 == b.1;
    assert DetectRun(s, Step) == (b.0, b.1);
  }

  /** The detection that completes a multiple of 10 switches to scene (level + 1) / 10. */
  lemma TenthDetection(t: TriggerState, q: nat)
    requires Consistent(t) && !t.readLock && t.level + 1 == (q + 1) * Step && q + 1 < |Table|
    ensures Detect(t) ==
      (TriggerState((q + 1) * Step, false, true, Some(q + 1)),
       IlluminationStopEffects(t.scene) + IlluminationStartEffects(q + 1))
  {
    DivExact(t.level + 1, Step, q + 1);
    CanAdvanceIff(t.level);
  }

  /**
    `stop()` never forgets the current pair: after a reset the old scene stays
    current, so the next switch (the 10th detection) writes 0 to both LEDs
    again before starting scene 1.
   */
  lemma ResetThenSwitchStopsAgain(s: TriggerState)
    requires Consistent(s) && s.timerArmed && !s.readLock && s.scene.Some?
    ensures var r := ResetStep(s);
      DetectRun(r.0, Step).1 == [Music(0), PwmWrite(Led1, 0), PwmWrite(Led2, 0), Music(1)]
  {
    var r := ResetStep(s).0;
    assert r.level == 0 * Step && r.scene == s.scene;
    DetectionsAdvanceOneScene(r, 0);
    var i := s.scene.value;
    SceneWrites(i);
    SceneWrites(1);
    assert IlluminationStopEffects(s.scene) == [Music(0), PwmWrite(Led1, 0), PwmWrite(Led2, 0)];
    assert IlluminationStartEffects(1) == [Music(1)];
  }
}
