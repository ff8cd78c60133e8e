/**
 * The digital pin collaborators the recorder, the channel selector and the
 * mode selector work through. Only their interface is modelled: the pin
 * implementation (level sampling, debounce, pulse classification and pulse
 * widths) is not part of this model.
 */
module Pins {

  /** Logical or electrical level of a pin. */
  datatype Level = Low | High

  /**
   * Pulse mode of an input pin. The firmware keeps the mode as an integer;
   * `Unrecognised` stands for any value other than the three named modes.
   */
  datatype PinMode = Idle | ShortPulse | LongPulse | Unrecognised(code: int)

  /** What an output pin was asked to do, in the order it was asked. */
  datatype PinEvent = Wrote(level: Level) | WroteLogical(level: Level) | Pulsed

  /** One outcome of polling an input pin: whether its mode changed, and the mode it now holds. */
  datatype Sample = Sample(changed: bool, mode: PinMode)

  /** A `count`-long run of pulses. */
  function Pulses(count: nat): (events: seq<PinEvent>)
    ensures |events| == count
    ensures forall i :: 0 <= i < count ==> events[i] == Pulsed
  {
    if count == 0 then [] else Pulses(count - 1) + [Pulsed]
  }

  class OutputPin {
    /** last level written with writeValue */
    var value: Level
    /** last level written with writeLogicalValue, returned by getLogicalState */
    var logicalState: Level
    /** every request made of the pin */
    var log: seq<PinEvent>

    constructor (initial: Level)
      ensures value == initial && logicalState == initial && log == []
    {
      value := initial;
      logicalState := initial;
      log := [];
    }

    method WriteValue(level: Level)
      modifies this
      ensures value == level && logicalState == old(logicalState)
      ensures log == old(log) + [Wrote(level)]
    {
      value := level;
      log := log + [Wrote(level)];
    }

    method WriteLogicalValue(level: Level)
      modifies this
      ensures logicalState == level && value == old(value)
      ensures log == old(log) + [WroteLogical(level)]
    {
      logicalState := level;
      log := log + [WroteLogical(level)];
    }

    /** One blocking pulse; its widths and the levels it passes through are not modelled. */
    method OutputPulse()
      modifies this
      ensures log == old(log) + [Pulsed]
    {
      log := log + [Pulsed];
    }
  }

  class InputPin {
    /** the pulse mode the pin currently holds */
    var mode: PinMode
    /** the hasChanged flag: whether the last poll changed the mode */
    var changed: bool
    /** outcomes of the coming polls, in order (the user's future presses) */
    var samples: seq<Sample>

    constructor (samples: seq<Sample>)
      ensures mode == Idle && !changed && this.samples == samples
    {
      mode := Idle;
      changed := false;
      this.samples := samples;
    }

    method SetCurrentPinMode(newMode: PinMode)
      modifies this
      ensures mode == newMode
      ensures changed == old(changed) && samples == old(samples)
    {
      mode := newMode;
    }

    /**
     * Polls the pin: takes the next outcome and reports whether the mode
     * changed. With no outcome left nothing is pressed: the mode is kept and
     * the change flag is cleared, since this poll changed nothing.
     */
    method ReadInputPulseMode() returns (hasChanged: bool)
      modifies this
      ensures old(samples) == [] ==> !hasChanged && mode == old(mode) && !changed && samples == []
      ensures old(samples) != [] ==>
                && hasChanged == old(samples)[0].changed
                && changed == hasChanged
                && mode == old(samples)[0].mode
                && samples == old(samples)[1..]
    {
      if samples == [] {
        hasChanged := false;
        changed := false;
      } else {
        hasChanged := samples[0].changed;
        changed := hasChanged;
        mode := samples[0].mode;
        samples := samples[1..];
      }
    }
  }
}
