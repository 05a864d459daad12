/**
  The fixed table of illuminations: five scenes, each a pattern for LED1 and a
  pattern for LED2.  Scene 0 is dark; the trigger state machine starts scenes 1
  to 4 as the detection count grows.
 */
module Scenes {
  import opened Wrappers
  import opened Waveforms
  import opened Effects
  import opened Patterns

  /** How one LED of a scene is constructed: its pattern and the offset passed to the constructor. */
  datatype LedSpec = LedSpec(kind: Kind, offset: int)

  datatype Scene = Scene(led1: LedSpec, led2: LedSpec)

  /** The `illuminations` array built by the Illumination constructor. */
  const Table: seq<Scene> := [
    Scene(LedSpec(Off, 0), LedSpec(Off, 0)),
    Scene(LedSpec(Periodic(Parabola1(4000)), 0), LedSpec(Periodic(Parabola1(4000)), 0)),
    Scene(LedSpec(Periodic(LinearAndKeep(2000)), 0), LedSpec(Periodic(LinearAndKeep(2000)), 1000)),
    Scene(LedSpec(Periodic(Flash3(1300)), 0), LedSpec(Periodic(Flash3(1300)), 650)),
    Scene(LedSpec(Periodic(Half(100)), 0), LedSpec(Periodic(Half(100)), 50))
  ]

  /**
    The ten pattern instances of the table in one row: slot 2·i is LED1 of
    scene i and slot 2·i + 1 is its LED2.
   */
  const Slots: nat := 2 * |Table|

  function SlotSpec(k: nat): LedSpec
    requires k < Slots
  {
    if k % 2 == 0 then Table[k / 2].led1 else Table[k / 2].led2
  }

  function SlotPin(k: nat): int
  {
    if k % 2 == 0 then Led1 else Led2
  }

  /** What `Illumination.start(i)` writes: the start writes of LED1's pattern, then LED2's. */
  function SceneStartWrites(i: nat): seq<Event>
    requires i < |Table|
  {
    StartWrites(Table[i].led1.kind, Led1) + StartWrites(Table[i].led2.kind, Led2)
  }

  /** What `Illumination.stop()` writes: nothing before any start, else the stop writes of the current pair. */
  function SceneStopWrites(current: Option<nat>): seq<Event>
    requires current.Some? ==> current.value < |Table|
  {
    match current
    case None => []
    case Some(i) => StopWrites(Table[i].led1.kind, Led1) + StopWrites(Table[i].led2.kind, Led2)
  }

  /** The phase clocks right after construction: every slot's clock holds its constructor offset. */
  function Offsets(): (r: seq<int>)
    ensures |r| == Slots
  {
    seq(Slots, k requires 0 <= k < Slots => SlotSpec(k).offset)
  }

  /** The phase slot k's pattern holds once its scene is started from phase t: its offset if it is periodic, t if not. */
  function RestartPhase(k: nat, t: int): int
    requires k < Slots
  {
    if SlotSpec(k).kind.Periodic? then SlotSpec(k).offset else t
  }

  /** The phase clocks of all ten slots after `start(i)`: both patterns of scene i restart, the others keep theirs. */
  function StartPhases(ph: seq<int>, i: nat): (r: seq<int>)
    requires |ph| == Slots && i < |Table|
    ensures |r| == Slots
  {
    ph[2 * i := RestartPhase(2 * i, ph[2 * i])][2 * i + 1 := RestartPhase(2 * i + 1, ph[2 * i + 1])]
  }

  /**
    Starting scene i leaves every other slot's clock alone; scene 0 (Off/Off)
    has no clock to restart; in scenes 1 to 4 LED1 restarts at 0 and LED2 at 0
    in scene 1 and half a period later in scenes 2 to 4, out of phase with LED1.
   */
  lemma SceneStartPhases(ph: seq<int>, i: nat)
    requires |ph| == Slots && i < |Table|
    ensures forall k :: 0 <= k < Slots && k / 2 != i ==> StartPhases(ph, i)[k] == ph[k]
    ensures i == 0 ==> StartPhases(ph, i) == ph
    ensures 1 <= i ==> StartPhases(ph, i)[2 * i] == 0
    ensures i == 1 ==> StartPhases(ph, i)[2 * i + 1] == 0
    ensures 2 <= i ==> Table[i].led1.kind == Table[i].led2.kind
    ensures 2 <= i ==> 2 * StartPhases(ph, i)[2 * i + 1] == Period(Table[i].led2.kind.shape)
  {
    SceneSlots(i);
    forall k | 0 <= k < Slots && k / 2 != i
      ensures StartPhases(ph, i)[k] == ph[k]
    {
      assert k != 2 * i && k != 2 * i + 1;
    }
  }

  /** Slots 2·i and 2·i + 1 are LED1 and LED2 of scene i. */
  lemma SceneSlots(i: nat)
    requires i < |Table|
    ensures SlotSpec(2 * i) == Table[i].led1 && SlotPin(2 * i) == Led1
    ensures SlotSpec(2 * i + 1) == Table[i].led2 && SlotPin(2 * i + 1) == Led2
  {
    assert (2 * i) / 2 == i && (2 * i) % 2 == 0;
    assert (2 * i + 1) / 2 == i && (2 * i + 1) % 2 == 1;
  }

  /** No two slots of the table share both their pin and their pattern. */
  lemma SlotsDiffer(k: nat, m: nat)
    requires k < Slots && m < Slots && k != m
    ensures SlotPin(k) != SlotPin(m) || SlotSpec(k).kind != SlotSpec(m).kind
  {
    assert k in {0, 1, 2, 3, 4, 5, 6, 7, 8, 9};
    assert m in {0, 1, 2, 3, 4, 5, 6, 7, 8, 9};
  }

  /**
    Every periodic pattern of the table has a positive period and an offset
    already inside [0, period), so `offset % period` leaves it unchanged.
   */
  lemma SlotWellFormed(k: nat)
    requires k < Slots
    ensures SlotSpec(k).kind.Periodic? ==>
      WellFormed(SlotSpec(k).kind.shape) && !SlotSpec(k).kind.shape.SyncMusic?
      && 0 <= SlotSpec(k).offset < Period(SlotSpec(k).kind.shape)
    ensures !SlotSpec(k).kind.Periodic? ==> SlotSpec(k).offset == 0
  {
    assert k / 2 < |Table|;
  }

  /**
    Scene 0 is Off/Off; every other scene is two periodic patterns, so starting
    it writes nothing at once and stopping it writes one 0 to each LED.
   */
  lemma SceneWrites(i: nat)
    requires i < |Table|
    ensures i == 0 ==> SceneStartWrites(i) == [PwmWrite(Led1, 0), PwmWrite(Led2, 0)]
    ensures i == 0 ==> SceneStopWrites(Some(i)) == []
    ensures 0 < i ==> SceneStartWrites(i) == []
    ensures 0 < i ==> SceneStopWrites(Some(i)) == [PwmWrite(Led1, 0), PwmWrite(Led2, 0)]
  {
  }
}
