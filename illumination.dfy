/**
  The Illumination object: the ten pattern instances of the scene table,
  built once, and the pair of them that is current.  `start(i)` makes scene
  i's pair current and starts it; `stop()` stops the current pair.
 */
module Illuminations {
  import opened Wrappers
  import opened Waveforms
  import opened Effects
  import opened Patterns
  import opened Scenes

  /** The Illumination class: the ten pattern instances of the table and the current pair. */
  class Illumination {
    /** The `illuminations` table flattened: leds[2·i] and leds[2·i + 1] are led1 and led2 of scene i. */
    const leds: seq<Pattern>
    /** The scene whose pair `currentLed1`/`currentLed2` hold; None while both are null. */
    var current: Option<nat>
    /** Whether the current pair has been started and not stopped since. */
    ghost var started: bool
    /** The phase clock (`time`) of every slot's pattern, in slot order. */
    ghost var phases: seq<int>

    /**
      Every slot holds the instance the table prescribes, the patterns whose
      interval runs are exactly the periodic ones of the current pair, while
      it is started, and `phases` holds every slot's clock.
     */
    ghost predicate Valid()
      reads this, leds
    {
      |leds| == Slots && |phases| == Slots
      && (current.Some? ==> current.value < |Table|)
      && forall k :: 0 <= k < |leds| ==>
           Specified(leds[k], k) && leds[k].Valid() && leds[k].time == phases[k]
           && (leds[k].running <==> started && current == Some(k / 2) && leds[k].kind.Periodic?)
    }

    /** Pattern p is the instance the constructor builds for slot k of the table. */
    static predicate Specified(p: Pattern, k: nat)
    {
      k < Slots && p.pin == SlotPin(k) && p.kind == SlotSpec(k).kind && p.offset == SlotSpec(k).offset
    }

    /** Distinct slots hold distinct instances, so stopping one pattern leaves the others alone. */
    lemma Differ(k: nat, m: nat)
      requires Valid() && k < |leds| && m < |leds| && k != m
      ensures leds[k] != leds[m]
    {
      SlotsDiffer(k, m);
    }

    /** The instances of scene i are none of the other slots' instances. */
    lemma OthersDiffer(i: nat)
      requires Valid() && i < |Table|
      ensures forall k :: 0 <= k < |leds| && k / 2 != i ==> leds[k] != leds[2 * i] && leds[k] != leds[2 * i + 1]
    {
      forall k | 0 <= k < |leds| && k / 2 != i
        ensures leds[k] != leds[2 * i] && leds[k] != leds[2 * i + 1]
      {
        Differ(k, 2 * i);
        Differ(k, 2 * i + 1);
      }
    }

    /** Builds the `illuminations` table, scene by scene; no pair is current yet. */
    constructor ()
      ensures Valid() && current == None && !started && phases == Offsets()
      ensures forall k :: 0 <= k < |leds| ==> !leds[k].running
      ensures forall k :: 0 <= k < |leds| ==> fresh(leds[k])
    {
      var t := BuildTable();
      leds := t;
      current := None;
      started := false;
      phases := Offsets();
    }

    /** The ten pattern instances of the table, each newly built, stopped and at its offset. */
    static method BuildTable() returns (t: seq<Pattern>)
      ensures |t| == Slots
      ensures forall k :: 0 <= k < |t| ==>
        Specified(t[k], k) && t[k].Valid() && !t[k].running && t[k].time == SlotSpec(k).offset
      ensures forall k :: 0 <= k < |t| ==> fresh(t[k])
    {
      t := BuildFirstScenes();
      t := AppendScene(t, 3);
      assert forall k :: 0 <= k < |t| ==> fresh(t[k]);
      t := AppendScene(t, 4);
    }

    /** The instances of scenes 0 to 2, each newly built, stopped and at its offset. */
    static method BuildFirstScenes() returns (t: seq<Pattern>)
      ensures |t| == 6
      ensures forall k :: 0 <= k < |t| ==>
        Specified(t[k], k) && t[k].Valid() && !t[k].running && t[k].time == SlotSpec(k).offset
      ensures forall k :: 0 <= k < |t| ==> fresh(t[k])
    {
      t := AppendScene([], 0);
      t := AppendScene(t, 1);
      assert forall k :: 0 <= k < |t| ==> fresh(t[k]);
      t := AppendScene(t, 2);
    }

    /**
      Appends the two new pattern instances of scene i to the first i scenes:
      its led1 pattern on LED1 and its led2 pattern on LED2, both stopped
      with their clocks at their offsets.
     */
    static method AppendScene(s: seq<Pattern>, i: nat) returns (t: seq<Pattern>)
      requires i < |Table| && |s| == 2 * i
      requires forall k :: 0 <= k < |s| ==>
        Specified(s[k], k) && s[k].Valid() && !s[k].running && s[k].time == SlotSpec(k).offset
      ensures |t| == 2 * i + 2 && t[..2 * i] == s && fresh(t[2 * i]) && fresh(t[2 * i + 1])
      ensures forall k :: 0 <= k < |s| ==> t[k] == s[k]
      ensures forall k :: 0 <= k < |t| ==>
        Specified(t[k], k) && t[k].Valid() && !t[k].running && t[k].time == SlotSpec(k).offset
    {
      SlotWellFormed(2 * i);
      SlotWellFormed(2 * i + 1);
      SceneSlots(i);
      var a := new Pattern(Led1, Table[i].led1.kind, Table[i].led1.offset);
      var b := new Pattern(Led2, Table[i].led2.kind, Table[i].led2.offset);
      t := s + [a] + [b];
    }

    /**
      `start(level)`: make scene `level` the current pair and start both of
      its patterns.  Nothing may be running yet: starting a running pattern
      would leave its first interval timer live and unreachable.
     */
    method Start(level: nat, out: Trace)
      requires Valid() && level < |Table| && !started
      modifies this, leds, out
      ensures Valid() && current == Some(level) && started
      ensures out.events == old(out.events) + SceneStartWrites(level)
      ensures phases == StartPhases(old(phases), level)
    {
      SceneSlots(level);
      var a, b := leds[2 * level], leds[2 * level + 1];
      OthersDiffer(level);
      current := Some(level);
      started := true;
      phases := StartPhases(phases, level);
      StartPair(a, b, out);
    }

    /** `currentLed1.start(); currentLed2.start();` on two distinct stopped patterns. */
    static method StartPair(a: Pattern, b: Pattern, out: Trace)
      requires a != b && a.Valid() && b.Valid() && !a.running && !b.running
      modifies a, b, out
      ensures a.Valid() && a.running == a.kind.Periodic?
      ensures b.Valid() && b.running == b.kind.Periodic?
      ensures a.time == if a.kind.Periodic? then a.offset else old(a.time)
      ensures b.time == if b.kind.Periodic? then b.offset else old(b.time)
      ensures out.events == old(out.events) + StartWrites(a.kind, a.pin) + StartWrites(b.kind, b.pin)
    {
      a.Start(out);
      b.Start(out);
    }

    /**
      `stop()`: stop both patterns of the current pair, if there is one (each
      writes 0, Off excepted, even when already stopped); the pair stays current.
     */
    method Stop(out: Trace)
      requires Valid()
      modifies this, leds, out
      ensures Valid() && current == old(current) && !started
      ensures out.events == old(out.events) + SceneStopWrites(current)
      ensures phases == old(phases)
    {
      if current.Some? {
        var i := current.value;
        SceneSlots(i);
        var a, b := leds[2 * i], leds[2 * i + 1];
        OthersDiffer(i);
        StopPair(a, b, out);
      }
      started := false;
    }

    /** `currentLed1.stop(); currentLed2.stop();` on two distinct patterns. */
    static method StopPair(a: Pattern, b: Pattern, out: Trace)
      requires a != b && a.Valid() && b.Valid()
      modifies a, b, out
      ensures a.Valid() && !a.running && a.time == old(a.time)
      ensures b.Valid() && !b.running && b.time == old(b.time)
      ensures out.events == old(out.events) + StopWrites(a.kind, a.pin) + StopWrites(b.kind, b.pin)
    {
      a.Stop(out);
      b.Stop(out);
    }

    /**
      One firing of the interval of the running pattern in slot k: it writes
      Math.round(calc(time)) to its pin and advances its clock by 15 modulo
      its period; no other slot's clock moves.
     */
    method Tick(k: nat, out: Trace)
      requires Valid() && k < |leds| && leds[k].running
      modifies this, leds[k], out
      ensures Valid() && current == old(current) && started == old(started)
      ensures leds[k].kind.Periodic?
      ensures phases == old(phases)[k := NextPhase(old(phases[k]), Period(leds[k].kind.shape))]
      ensures out.events == old(out.events) + [PwmWrite(SlotPin(k), TickValue(leds[k].kind.shape, old(phases[k])))]
      ensures 0 <= TickValue(leds[k].kind.shape, old(phases[k])) <= PwmMax
    {
      SlotWellFormed(k);
      var p := leds[k];
      p.Tick(out);
      phases := phases[k := p.time];
      forall j | 0 <= j < |leds| && j != k
        ensures leds[j] != p
      {
        Differ(j, k);
      }
    }
  }
}
