/**
 * ModeSelector: the button that chooses between recording and playback.
 * The input pin's pulse mode (Idle, short press, long press) is shown on
 * two indicator pins: the short-pulse pin is High only in short-press mode,
 * the long-pulse pin only in long-press mode. The two indicator pins may be
 * one and the same pin.
 */
module Modes {
  import opened Pins

  /** The levels the short-pulse and the long-pulse indicator show. */
  datatype Indication = Indication(short: Level, long: Level)

  /**
   * The indication of `mode`: each pin is High exactly in its own mode, so
   * the two are never both High; any unrecognised mode is shown as Idle.
   */
  function Indicated(mode: PinMode): (ind: Indication)
    ensures ind.short == High <==> mode == ShortPulse
    ensures ind.long == High <==> mode == LongPulse
  {
    match mode
    case ShortPulse => Indication(High, Low)
    case LongPulse => Indication(Low, High)
    case _ => Indication(Low, Low)
  }

  /** The mode an observer reads off the two indicators. */
  function Shown(ind: Indication): PinMode {
    if ind.short == High then ShortPulse
    else if ind.long == High then LongPulse
    else Idle
  }

  predicate Recognised(mode: PinMode) {
    !mode.Unrecognised?
  }

  /** The indicators tell each recognised mode apart; any other mode looks Idle. */
  lemma IndicationShowsMode(mode: PinMode)
    ensures Recognised(mode) ==> Shown(Indicated(mode)) == mode
    ensures !Recognised(mode) ==> Indicated(mode) == Indicated(Idle)
  {
  }

  /** Different recognised modes give different indications. */
  lemma IndicationDistinguishes(a: PinMode, b: PinMode)
    requires Recognised(a) && Recognised(b) && a != b
    ensures Indicated(a) != Indicated(b)
  {
    IndicationShowsMode(a);
    IndicationShowsMode(b);
  }

  /**
   * When both indicators are one pin, assertOutputPin first writes Low and
   * then this level: High for either press, Low when Idle.
   */
  function SharedLevel(mode: PinMode): (level: Level)
    ensures level == High <==> mode == ShortPulse || mode == LongPulse
  {
    if Indicated(mode).short == High || Indicated(mode).long == High then High else Low
  }

  class ModeSelector {
    const inputPin: InputPin
    const shortPulseOutputPin: OutputPin
    const longPulseOutputPin: OutputPin

    constructor (dip: InputPin, spop: OutputPin, lpop: OutputPin)
      ensures inputPin == dip && shortPulseOutputPin == spop && longPulseOutputPin == lpop
    {
      inputPin := dip;
      shortPulseOutputPin := spop;
      longPulseOutputPin := lpop;
    }

    /**
     * The indicator pins show `mode`: with two pins, each was written once
     * with its level of Indicated(mode); with one shared pin, it was written
     * Low and then SharedLevel(mode). Logical states are left alone.
     */
    twostate predicate Indicates(mode: PinMode)
      reads shortPulseOutputPin, longPulseOutputPin
    {
      && shortPulseOutputPin.logicalState == old(shortPulseOutputPin.logicalState)
      && longPulseOutputPin.logicalState == old(longPulseOutputPin.logicalState)
      && (shortPulseOutputPin != longPulseOutputPin ==>
            && shortPulseOutputPin.value == Indicated(mode).short
            && longPulseOutputPin.value == Indicated(mode).long
            && shortPulseOutputPin.log == old(shortPulseOutputPin.log) + [Wrote(Indicated(mode).short)]
            && longPulseOutputPin.log == old(longPulseOutputPin.log) + [Wrote(Indicated(mode).long)])
      && (shortPulseOutputPin == longPulseOutputPin ==>
            && shortPulseOutputPin.value == SharedLevel(mode)
            && shortPulseOutputPin.log == old(shortPulseOutputPin.log) + [Wrote(Low), Wrote(SharedLevel(mode))])
    }

    /** Sets the indicator pins from the mode the input pin holds. */
    method AssertOutputPin()
      modifies shortPulseOutputPin, longPulseOutputPin
      ensures Indicates(inputPin.mode)
    {
      match inputPin.mode {
        case ShortPulse =>
          longPulseOutputPin.WriteValue(Low);
          shortPulseOutputPin.WriteValue(High);
        case LongPulse =>
          shortPulseOutputPin.WriteValue(Low);
          longPulseOutputPin.WriteValue(High);
        case _ =>
          shortPulseOutputPin.WriteValue(Low);
          longPulseOutputPin.WriteValue(Low);
      }
    }

    /**
     * Puts the input pin in `newMode` and shows it. The mode is meant to be
     * one of the three named ones; any other value is shown as Idle.
     */
    method ForceMode(newMode: PinMode)
      modifies inputPin, shortPulseOutputPin, longPulseOutputPin
      ensures inputPin.mode == newMode
      ensures inputPin.changed == old(inputPin.changed) && inputPin.samples == old(inputPin.samples)
      ensures Indicates(newMode)
    {
      inputPin.SetCurrentPinMode(newMode);
      AssertOutputPin();
    }

    /** Polls the input pin; true when its pulse mode changed. */
    method ReadInputPulseMode() returns (hasChanged: bool)
      modifies inputPin
      ensures old(inputPin.samples) == [] ==>
                !hasChanged && inputPin.mode == old(inputPin.mode) && !inputPin.changed
                && inputPin.samples == []
      ensures old(inputPin.samples) != [] ==>
                && hasChanged == inputPin.changed == old(inputPin.samples)[0].changed
                && inputPin.mode == old(inputPin.samples)[0].mode
                && inputPin.samples == old(inputPin.samples)[1..]
    {
      hasChanged := inputPin.ReadInputPulseMode();
    }

    /** The pulse mode the input pin holds. */
    function GetCurrentPinMode(): (mode: PinMode)
      reads this, inputPin
      ensures mode == inputPin.mode
    {
      inputPin.mode
    }
  }
}
