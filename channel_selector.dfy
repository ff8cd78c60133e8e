/**
 * ChannelSelector: the recording channel the user picks with one button.
 * A short press flashes the current channel number on the short-pulse pin;
 * a long press offers the channels one after the other on the long-pulse
 * pin, each for a window of polls, and a press during a window selects the
 * channel offered in it.
 */
module Channels {
  import opened Pins
  import opened ChannelSelection

  class ChannelSelector {
    const inputPin: InputPin
    const shortPulseOutputPin: OutputPin
    const longPulseOutputPin: OutputPin
    /** File name of each channel on the card, channel k at index k - 1. */
    const channelName: seq<string> := ["chnl1.txt", "chnl2.txt", "chnl3.txt", "chnl4.txt"]
    var currentChannel: int

    ghost predicate Valid()
      reads this
    {
      InRange(currentChannel)
    }

    constructor (dip: InputPin, sp: OutputPin, lp: OutputPin)
      ensures Valid() && currentChannel == 1
      ensures inputPin == dip && shortPulseOutputPin == sp && longPulseOutputPin == lp
    {
      inputPin := dip;
      shortPulseOutputPin := sp;
      longPulseOutputPin := lp;
      currentChannel := 1;
    }

    /** The file name of channel `ch`; the empty name for a channel out of range. */
    function GetChannelName(ch: int): (name: string)
      ensures !InRange(ch) ==> name == ""
      ensures InRange(ch) ==> name == "chnl" + [('0' as int + ch) as char] + ".txt"
    {
      if InRange(ch) then channelName[ch - 1] else ""
    }

    /** Channel names are distinct, so each channel has a file of its own. */
    lemma ChannelNamesDistinct(a: int, b: int)
      requires InRange(a) && InRange(b) && a != b
      ensures GetChannelName(a) != GetChannelName(b)
    {
      assert GetChannelName(a)[4] != GetChannelName(b)[4];
    }

    function GetCurrentChannelName(): (name: string)
      requires Valid()
      reads this
      ensures name == GetChannelName(currentChannel) && name != ""
    {
      GetChannelName(currentChannel)
    }

    function GetCurrentChannel(): (channel: int)
      requires Valid()
      reads this
      ensures channel == currentChannel && InRange(channel)
    {
      currentChannel
    }

    /** Flashes `channel` on `outputPin`: Low, then one pulse per channel number; nothing for a channel out of range. */
    method ReportChannel(channel: int, outputPin: OutputPin)
      modifies outputPin
      ensures outputPin.log == old(outputPin.log) + ReportEvents(channel)
    {
      if 0 < channel <= RecordingChannels {
        outputPin.WriteValue(Low);
        var ii := 0;
        while ii < channel
          invariant 0 <= ii <= channel
          invariant outputPin.log == old(outputPin.log) + [Wrote(Low)] + Pulses(ii)
        {
          outputPin.OutputPulse();
          ii := ii + 1;
        }
      }
    }

    method ReadInputPulseMode() returns (hasChanged: bool)
      modifies inputPin
      ensures old(inputPin.samples) == [] ==>
                !hasChanged && inputPin.mode == old(inputPin.mode) && !inputPin.changed
                && inputPin.samples == []
      ensures old(inputPin.samples) != [] ==>
                && hasChanged == inputPin.changed == old(inputPin.samples)[0].changed
                && inputPin.mode == old(inputPin.samples)[0].mode
                && inputPin.samples == old(inputPin.samples)[1..]
    {
      hasChanged := inputPin.ReadInputPulseMode();
    }

    /**
     * Acts on the mode the input pin holds when its last poll changed it.
     * A short press reports the current channel on the short pin. A long
     * press offers the candidates from the current channel on, one window
     * of InnerLoopCount polls each, on the long pin; the first poll that
     * reports a change selects the candidate of its window, which is then
     * reported on the short pin. Either press leaves the pin Idle, and so
     * does an unrecognised mode. The long press waits for the user, so it
     * needs a coming poll that reports a change.
     */
    method ProcessInputPulseMode()
      requires Valid()
      requires inputPin.changed && inputPin.mode == LongPulse ==> HasChange(inputPin.samples)
      modifies this, inputPin, shortPulseOutputPin, longPulseOutputPin
      ensures Valid()
      ensures !old(inputPin.changed) || old(inputPin.mode) == Idle ==>
                && currentChannel == old(currentChannel)
                && unchanged(inputPin, shortPulseOutputPin, longPulseOutputPin)
      ensures old(inputPin.changed) && old(inputPin.mode).Unrecognised? ==>
                && currentChannel == old(currentChannel) && inputPin.mode == Idle
                && inputPin.changed && inputPin.samples == old(inputPin.samples)
                && unchanged(shortPulseOutputPin, longPulseOutputPin)
      ensures old(inputPin.changed) && old(inputPin.mode) == ShortPulse ==>
                && currentChannel == old(currentChannel) && inputPin.mode == Idle
                && inputPin.changed && inputPin.samples == old(inputPin.samples)
                && shortPulseOutputPin.log == old(shortPulseOutputPin.log) + ReportEvents(currentChannel)
                && (longPulseOutputPin != shortPulseOutputPin ==> unchanged(longPulseOutputPin))
      ensures old(inputPin.changed) && old(inputPin.mode) == LongPulse ==>
                && inputPin.mode == Idle && inputPin.changed
                && View() == Selected(old(View()), longPulseOutputPin == shortPulseOutputPin)
    {
      if inputPin.changed {
        var pinMode := inputPin.mode;
        match pinMode {
          case ShortPulse =>
            ReportChannel(currentChannel, shortPulseOutputPin);
            inputPin.SetCurrentPinMode(Idle);
          case LongPulse =>
            SelectChannel();
          case Idle =>
          case Unrecognised(_) =>
            inputPin.SetCurrentPinMode(Idle);
        }
      }
    }

    /** What the long press reads and changes, as values. */
    function View(): (v: SelectorView)
      reads this, inputPin, shortPulseOutputPin, longPulseOutputPin
      ensures v.current == currentChannel && v.pending == inputPin.samples
      ensures v.longLog == longPulseOutputPin.log && v.shortLog == shortPulseOutputPin.log
    {
      SelectorView(currentChannel, inputPin.samples, longPulseOutputPin.log, shortPulseOutputPin.log)
    }

    /**
     * The long-press branch of processInputPulseMode: the pin is set Idle,
     * candidates are offered from the current channel on until one is
     * selected, and the pin is set Idle again.
     */
    method SelectChannel()
      requires Valid() && HasChange(inputPin.samples)
      modifies this, inputPin, shortPulseOutputPin, longPulseOutputPin
      ensures Valid()
      ensures inputPin.mode == Idle && inputPin.changed
      ensures View() == Selected(old(View()), longPulseOutputPin == shortPulseOutputPin)
    {
      ghost var start := View();
      ghost var aliased := longPulseOutputPin == shortPulseOutputPin;
      ghost var k := FirstChange(start.pending);
      var newChannel := currentChannel;
      var keepReporting := true;
      inputPin.SetCurrentPinMode(Idle);
      ghost var round := 0;
      NothingOffered(start, aliased);
      while keepReporting
        invariant Valid() && InRange(newChannel)
        invariant keepReporting ==>
                    && round * InnerLoopCount <= k
                    && newChannel == AdvanceChannel(start.current, round)
                    && View() == Offered(start, round, aliased)
        invariant !keepReporting ==> inputPin.changed && View() == Selected(start, aliased)
        decreases k + 1 - round * InnerLoopCount
      {
        if (round + 1) * InnerLoopCount <= k {
          RoundPassed(start, round, aliased);
        } else {
          RoundSelected(start, round, aliased);
        }
        var selected := OfferRound(newChannel);
        keepReporting := !selected;
        newChannel := NextChannel(newChannel);
        round := round + 1;
      }
      ghost var done := View();
      inputPin.SetCurrentPinMode(Idle);
      assert View() == done;
    }

    /**
     * One round of the long press: reports `candidate` on the long pin,
     * then offers it for one window of polls.
     */
    method OfferRound(candidate: int) returns (selected: bool)
      requires InRange(candidate) && HasChange(inputPin.samples)
      modifies this, inputPin, shortPulseOutputPin, longPulseOutputPin
      ensures selected <==> FirstChange(old(inputPin.samples)) < InnerLoopCount
      ensures selected ==> inputPin.changed
      ensures View() == Round(old(View()), candidate, selected, longPulseOutputPin == shortPulseOutputPin)
    {
      ReportChannel(candidate, longPulseOutputPin);
      selected := OfferCandidate(candidate);
    }

    /**
     * One window of the long press: polls the input pin up to
     * InnerLoopCount times; the first poll that reports a change makes
     * `candidate` the current channel and reports it on the short pin.
     */
    method OfferCandidate(candidate: int) returns (selected: bool)
      requires InRange(candidate) && HasChange(inputPin.samples)
      modifies this, inputPin, shortPulseOutputPin
      ensures var k := FirstChange(old(inputPin.samples));
              && (selected <==> k < InnerLoopCount)
              && (selected ==>
                    && currentChannel == candidate && inputPin.changed
                    && inputPin.samples == old(inputPin.samples)[k + 1..]
                    && shortPulseOutputPin.log == old(shortPulseOutputPin.log) + ReportEvents(candidate))
              && (!selected ==>
                    && currentChannel == old(currentChannel)
                    && inputPin.samples == old(inputPin.samples)[InnerLoopCount..]
                    && !inputPin.changed
                    && inputPin.mode == old(inputPin.samples)[InnerLoopCount - 1].mode
                    && unchanged(shortPulseOutputPin))
    {
      ghost var samples := inputPin.samples;
      ghost var k := FirstChange(samples);
      selected := false;
      var ii := 0;
      while ii < InnerLoopCount
        invariant 0 <= ii <= InnerLoopCount && ii <= k
        invariant inputPin.samples == samples[ii..]
        invariant currentChannel == old(currentChannel) && unchanged(shortPulseOutputPin)
        invariant 0 < ii ==> !inputPin.changed && inputPin.mode == samples[ii - 1].mode
      {
        var pressed := inputPin.ReadInputPulseMode();
        if pressed {
          currentChannel := candidate;
          ReportChannel(currentChannel, shortPulseOutputPin);
          selected := true;
          return;
        }
        ii := ii + 1;
      }
    }
  }
}
