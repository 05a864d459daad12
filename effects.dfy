/**
  What the outside world observes: duty-cycle writes to the two PWM pins
  (`hardwarePwmWrite`, always at PWM_FREQUENCY = 64 Hz) and the `music`
  notifications broadcast to web clients (`io.emit('music', n)`), in the order
  they happen.
 */
module Effects {

  datatype Event =
    | PwmWrite(pin: int, value: int)
    | Music(level: int)

  /** The single, process-wide log of observable effects. */
  class Trace {
    var events: seq<Event>

    constructor ()
      ensures events == []
    {
      events := [];
    }
  }
}
