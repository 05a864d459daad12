/**
  Pattern instances: a waveform (or a constant On/Off) bound to a pin.  A
  periodic pattern owns an interval timer while it runs; every firing writes
  Math.round(calc(time)) to the pin and advances its phase clock by INTERVAL
  modulo the period.  Stopping clears the timer and writes 0.
 */
module Patterns {
  import opened Waveforms
  import opened Effects

  /** The two LED pins. */
  const Led1: int := 18
  const Led2: int := 13

  /** A periodic waveform (a FlashingPattern subclass), or one of the constant On and Off. */
  datatype Kind = Periodic(shape: Shape) | On | Off

  /** What `start()` writes at once: On lights the pin, Off darkens it, a periodic pattern waits for its first tick. */
  function StartWrites(kind: Kind, pin: int): seq<Event>
  {
    match kind
    case Periodic(_) => []
    case On => [PwmWrite(pin, PwmMax)]
    case Off => [PwmWrite(pin, 0)]
  }

  /** What `stop()` writes: one 0 on the pin, except for Off, whose stop does nothing. */
  function StopWrites(kind: Kind, pin: int): seq<Event>
  {
    match kind
    case Off => []
    case _ => [PwmWrite(pin, 0)]
  }

  /** The phase after one tick: (time + INTERVAL) % period, with JavaScript's `%`. */
  function NextPhase(time: int, period: int): int
    requires 0 < period
  {
    JsRem(time + Interval, period)
  }

  /** The phase clock after n ticks from the offset. */
  function PhaseAfter(offset: int, period: int, n: nat): int
    requires 0 < period
  {
    if n == 0 then offset else NextPhase(PhaseAfter(offset, period, n - 1), period)
  }

  lemma ModAdd(a: int, b: int, p: int)
    requires 0 <= a && 0 <= b && 0 < p
    ensures (a % p + b) % p == (a + b) % p
  {
    var c := a % p + b;
    assert a == (a / p) * p + a % p;
    assert c == (c / p) * p + c % p;
    assert a + b == (a / p + c / p) * p + c % p;
    ModUnique(a + b, p, a / p + c / p, c % p);
  }

  /**
    From a non-negative offset the phase clock is exactly (offset + 15·n) mod
    period, so it stays in [0, period) forever (and drifts by the remainder of
    15 into the period at every wrap when the period is not a multiple of 15).
   */
  lemma {:induction false} PhaseAfterIsModular(offset: int, period: int, n: nat)
    requires 0 <= offset < period
    ensures PhaseAfter(offset, period, n) == (offset + Interval * n) % period
    ensures 0 <= PhaseAfter(offset, period, n) < period
  {
    if n > 0 {
      PhaseAfterIsModular(offset, period, n - 1);
      var a := offset + Interval * (n - 1);
      var prev := PhaseAfter(offset, period, n - 1);
      assert prev == a % period;
      assert PhaseAfter(offset, period, n) == (prev + Interval) % period;
      ModAdd(a, Interval, period);
      assert a + Interval == offset + Interval * n;
    }
  }

  /** A phase clock started from a negative offset stays in (-period, period) and reaches [0, period) for good. */
  lemma PhaseStaysBounded(time: int, period: int)
    requires 0 < period && -period < time < period
    ensures -period < NextPhase(time, period) < period
    ensures 0 <= time ==> 0 <= NextPhase(time, period)
    ensures 0 <= time + Interval ==> 0 <= NextPhase(time, period)
  {
  }

  /** A pattern instance (FlashingPattern and its subclasses, On, Off). */
  class Pattern {
    const pin: int
    const kind: Kind
    /** The normalised offset `offset % period` (0 for On and Off). */
    const offset: int
    /** The phase clock of the running interval (the closure's `time`). */
    var time: int
    /** Whether an interval timer is live (periodic patterns only). */
    var running: bool
    /** How many times the interval has fired since the last `start()`. */
    ghost var ticks: nat

    ghost predicate Valid()
      reads this
    {
      match kind
      case Periodic(shape) =>
        WellFormed(shape)
        && -Period(shape) < offset < Period(shape)
        && -Period(shape) < time < Period(shape)
        && (0 <= offset ==> 0 <= time)
        && (0 <= offset ==> time == PhaseAfter(offset, Period(shape), ticks))
      case _ => !running
    }

    /** The constructors: a periodic pattern stores `offset % period`; SyncMusic takes a pin only (offset 0). */
    constructor (pin: int, kind: Kind, offset: int)
      requires kind.Periodic? ==> WellFormed(kind.shape) && (kind.shape.SyncMusic? ==> offset == 0)
      ensures Valid() && !running
      ensures this.pin == pin && this.kind == kind
      ensures kind.Periodic? ==> this.offset == JsRem(offset, Period(kind.shape))
      ensures time == this.offset && ticks == 0
      ensures kind.Periodic? && 0 <= offset ==> 0 <= this.offset < Period(kind.shape)
      ensures !kind.Periodic? ==> this.offset == 0
    {
      this.pin := pin;
      this.kind := kind;
      this.offset := if kind.Periodic? then JsRem(offset, Period(kind.shape)) else 0;
      time := if kind.Periodic? then JsRem(offset, Period(kind.shape)) else 0;
      running := false;
      ticks := 0;
    }

    /**
      `start()`: a periodic pattern restarts its phase clock at the offset and
      arms its interval; On writes PWM_MAX; Off writes 0.
     */
    method Start(out: Trace)
      requires Valid() && !running
      modifies this, out
      ensures Valid()
      ensures running == kind.Periodic?
      ensures time == if kind.Periodic? then offset else old(time)
      ensures kind.Periodic? ==> ticks == 0
      ensures out.events == old(out.events) + StartWrites(kind, pin)
    {
      match kind
      case Periodic(_) =>
        time := offset;
        running := true;
        ticks := 0;
      case On =>
        out.events := out.events + [PwmWrite(pin, PwmMax)];
      case Off =>
        out.events := out.events + [PwmWrite(pin, 0)];
    }

    /**
      `stop()`: clears the interval and writes 0 to the pin, also when the
      pattern is already stopped; Off's stop does nothing.
     */
    method Stop(out: Trace)
      requires Valid()
      modifies this, out
      ensures Valid() && !running && time == old(time) && ticks == old(ticks)
      ensures out.events == old(out.events) + StopWrites(kind, pin)
    {
      match kind
      case Off =>
      case _ =>
        running := false;
        out.events := out.events + [PwmWrite(pin, 0)];
    }

    /** One firing of the interval: write Math.round(calc(time)), then advance the phase. */
    method Tick(out: Trace)
      requires Valid() && running
      modifies this, out
      ensures Valid() && running
      ensures kind.Periodic?
      ensures time == NextPhase(old(time), Period(kind.shape)) && ticks == old(ticks) + 1
      ensures 0 <= offset ==> time == (offset + Interval * ticks) % Period(kind.shape)
      ensures out.events == old(out.events) + [PwmWrite(pin, TickValue(kind.shape, old(time)))]
      ensures 0 <= offset ==> 0 <= TickValue(kind.shape, old(time)) <= PwmMax
    {
      var shape := kind.shape;
      var value := Calc(shape, time);
      out.events := out.events + [PwmWrite(pin, Round(value))];
      if 0 <= offset {
        TickValueInRange(shape, time);
      }
      time := JsRem(time + Interval, Period(shape));
      ticks := ticks + 1;
      if 0 <= offset {
        PhaseAfterIsModular(offset, Period(shape), ticks);
      }
    }
  }
}
