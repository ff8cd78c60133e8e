/**
 * The values behind channel selection: the cyclic order in which a long
 * press offers the channels, what reporting a channel asks of a pin, the
 * coming input polls, and the state of a long press as it goes on.
 */
module ChannelSelection {
  import opened Pins

  /** Number of recording channels. */
  const RecordingChannels := 4
  /** Number of input polls during which one candidate channel is offered. */
  const InnerLoopCount := 20

  predicate InRange(channel: int) {
    1 <= channel <= RecordingChannels
  }

  /** The candidate after `channel`: one more, wrapping from the last channel back to 1. */
  function NextChannel(channel: int): (next: int)
    ensures InRange(channel) ==> InRange(next) && next == channel % RecordingChannels + 1
  {
    if channel + 1 <= RecordingChannels then channel + 1 else 1
  }

  /** The candidate offered `n` windows after `channel`. */
  function AdvanceChannel(channel: int, n: nat): int {
    if n == 0 then channel else NextChannel(AdvanceChannel(channel, n - 1))
  }

  /** Advancing is counting modulo the number of channels. */
  lemma {:induction false} AdvanceChannelClosedForm(channel: int, n: nat)
    requires InRange(channel)
    ensures AdvanceChannel(channel, n) == (channel - 1 + n) % RecordingChannels + 1
  {
    if n > 0 {
      AdvanceChannelClosedForm(channel, n - 1);
    }
  }

  /** After as many windows as there are channels the candidate is back where it started. */
  lemma FullCycle(channel: int, n: nat)
    requires InRange(channel)
    ensures AdvanceChannel(channel, n + RecordingChannels) == AdvanceChannel(channel, n)
  {
    AdvanceChannelClosedForm(channel, n);
    AdvanceChannelClosedForm(channel, n + RecordingChannels);
  }

  /** Every channel is offered within the first RecordingChannels windows, whatever the current channel. */
  lemma EveryChannelOffered(channel: int, target: int)
    requires InRange(channel) && InRange(target)
    ensures var n := (target - channel) % RecordingChannels;
            n < RecordingChannels && AdvanceChannel(channel, n) == target
  {
    AdvanceChannelClosedForm(channel, (target - channel) % RecordingChannels);
  }

  /** What reportChannel asks of its pin: Low, then one pulse per channel number; nothing out of range. */
  function ReportEvents(channel: int): (events: seq<PinEvent>)
    ensures !InRange(channel) <==> events == []
    ensures InRange(channel) ==>
              && |events| == channel + 1 && events[0] == Wrote(Low)
              && forall i :: 1 <= i <= channel ==> events[i] == Pulsed
  {
    if InRange(channel) then [Wrote(Low)] + Pulses(channel) else []
  }

  /** The number of pulses tells the channel: different channels are reported differently. */
  lemma ReportIdentifiesChannel(a: int, b: int)
    requires ReportEvents(a) == ReportEvents(b) && InRange(a)
    ensures a == b
  {
    assert |ReportEvents(a)| == |ReportEvents(b)|;
  }

  /** The reports of the first `n` candidates offered from `channel`, in order. */
  function CandidateReports(channel: int, n: nat): seq<PinEvent> {
    if n == 0 then [] else CandidateReports(channel, n - 1) + ReportEvents(AdvanceChannel(channel, n - 1))
  }

  /** Some coming poll reports a change: the user will press. */
  predicate HasChange(samples: seq<Sample>) {
    exists i :: 0 <= i < |samples| && samples[i].changed
  }

  /** Index of the first coming poll that reports a change. */
  function FirstChange(samples: seq<Sample>): (k: nat)
    requires HasChange(samples)
    ensures k < |samples| && samples[k].changed
    ensures forall i :: 0 <= i < k ==> !samples[i].changed
  {
    if samples[0].changed then 0
    else
      assert HasChange(samples[1..]) by {
        var i :| 0 <= i < |samples| && samples[i].changed;
        assert samples[1..][i - 1].changed;
      }
      FirstChange(samples[1..]) + 1
  }

  /** Dropping polls that report no change keeps the first change, `n` polls earlier. */
  lemma FirstChangeOfSuffix(samples: seq<Sample>, n: nat)
    requires HasChange(samples) && n <= FirstChange(samples)
    ensures HasChange(samples[n..]) && FirstChange(samples[n..]) == FirstChange(samples) - n
  {
    var k := FirstChange(samples);
    assert samples[n..][k - n].changed;
    var k' := FirstChange(samples[n..]);
    assert samples[n + k'].changed;
  }

  /** A change found within window `round` is the first change of all. */
  lemma FirstChangeWindow(samples: seq<Sample>, round: nat, k: nat)
    requires HasChange(samples) && k == FirstChange(samples)
    requires round * InnerLoopCount <= k < (round + 1) * InnerLoopCount
    ensures k / InnerLoopCount == round
  {
  }

  /**
   * The part of a channel selector and its pins the long press works on:
   * the current channel, the coming polls, and what the long and the short
   * pin were asked to do.
   */
  datatype SelectorView = SelectorView(current: int, pending: seq<Sample>, longLog: seq<PinEvent>, shortLog: seq<PinEvent>)

  /**
   * `v` after `longReports` on the long pin, then `shortReports` on the
   * short pin. When both are one pin (`aliased`), that pin gets both.
   */
  function Reported(v: SelectorView, longReports: seq<PinEvent>, shortReports: seq<PinEvent>, aliased: bool): SelectorView {
    if aliased then
      var log := v.longLog + longReports + shortReports;
      v.(longLog := log, shortLog := log)
    else v.(longLog := v.longLog + longReports, shortLog := v.shortLog + shortReports)
  }

  /**
   * One round of the long press from `v`: `candidate` is reported on the
   * long pin, then polled for one window. When the window holds a change
   * (`selected`), the first one selects the candidate, which is reported on
   * the short pin, and the polls up to it are used up; otherwise the whole
   * window is.
   */
  function Round(v: SelectorView, candidate: int, selected: bool, aliased: bool): (w: SelectorView)
    requires HasChange(v.pending) && (selected <==> FirstChange(v.pending) < InnerLoopCount)
  {
    var k := FirstChange(v.pending);
    if selected then Reported(v.(current := candidate, pending := v.pending[k + 1..]), ReportEvents(candidate), ReportEvents(candidate), aliased)
    else Reported(v.(pending := v.pending[InnerLoopCount..]), ReportEvents(candidate), [], aliased)
  }

  /** A long press from `start` still going after `rounds` windows without a change. */
  function Offered(start: SelectorView, rounds: nat, aliased: bool): SelectorView
    requires rounds * InnerLoopCount <= |start.pending|
  {
    Reported(start.(pending := start.pending[rounds * InnerLoopCount..]), CandidateReports(start.current, rounds), [], aliased)
  }

  /**
   * A long press from `start` that ends at poll `k`, in window `window`:
   * the candidate of that window is selected; every candidate up to it was
   * reported on the long pin and the selected one on the short pin, and the
   * polls up to k are used up.
   */
  function SelectionAt(start: SelectorView, window: nat, k: nat, aliased: bool): SelectorView
    requires k < |start.pending|
  {
    var chosen := AdvanceChannel(start.current, window);
    Reported(start.(current := chosen, pending := start.pending[k + 1..]),
             CandidateReports(start.current, window + 1), ReportEvents(chosen), aliased)
  }

  /**
   * A whole long press from `start`: with k the first coming poll that
   * reports a change, the long press ends in window k / InnerLoopCount.
   */
  function Selected(start: SelectorView, aliased: bool): (w: SelectorView)
    requires HasChange(start.pending)
    ensures w.current == AdvanceChannel(start.current, FirstChange(start.pending) / InnerLoopCount)
    ensures InRange(start.current) ==> InRange(w.current)
  {
    var k := FirstChange(start.pending);
    AdvanceChannelInRange(start.current, k / InnerLoopCount);
    SelectionAt(start, k / InnerLoopCount, k, aliased)
  }

  /** Advancing stays among the channels. */
  lemma AdvanceChannelInRange(channel: int, n: nat)
    ensures InRange(channel) ==> InRange(AdvanceChannel(channel, n))
  {
    if InRange(channel) {
      AdvanceChannelClosedForm(channel, n);
    }
  }

  /** Reports on the long pin alone, then more reports: the same as all of them at once. */
  lemma ReportedThen(v: SelectorView, first: seq<PinEvent>, longReports: seq<PinEvent>, shortReports: seq<PinEvent>,
                     current: int, pending: seq<Sample>, aliased: bool)
    requires aliased ==> v.shortLog == v.longLog
    ensures Reported(Reported(v, first, [], aliased).(current := current, pending := pending), longReports, shortReports, aliased)
            == Reported(v.(current := current, pending := pending), first + longReports, shortReports, aliased)
  {
    assert v.longLog + first + [] + longReports + shortReports == v.longLog + (first + longReports) + shortReports;
    assert v.longLog + first + longReports == v.longLog + (first + longReports);
    assert v.shortLog + [] + shortReports == v.shortLog + shortReports;
  }

  /** Reporting one more candidate after a window without a change: the long press as it stands one round later. */
  lemma OfferedNext(start: SelectorView, rounds: nat, aliased: bool)
    requires (rounds + 1) * InnerLoopCount <= |start.pending|
    requires aliased ==> start.shortLog == start.longLog
    ensures var v := Offered(start, rounds, aliased);
            Reported(v.(pending := v.pending[InnerLoopCount..]), ReportEvents(AdvanceChannel(start.current, rounds)), [], aliased)
            == Offered(start, rounds + 1, aliased)
  {
    var pending := start.pending[rounds * InnerLoopCount..];
    assert pending[InnerLoopCount..] == start.pending[(rounds + 1) * InnerLoopCount..];
    var candidates := CandidateReports(start.current, rounds);
    var report := ReportEvents(AdvanceChannel(start.current, rounds));
    assert CandidateReports(start.current, rounds + 1) == candidates + report;
    ReportedThen(start, candidates, report, [], start.current, pending[InnerLoopCount..], aliased);
  }

  /** A round whose window holds no change leaves the long press going, one candidate on. */
  lemma RoundPassed(start: SelectorView, rounds: nat, aliased: bool)
    requires HasChange(start.pending) && (rounds + 1) * InnerLoopCount <= FirstChange(start.pending)
    requires aliased ==> start.shortLog == start.longLog
    ensures var v := Offered(start, rounds, aliased);
            && HasChange(v.pending) && FirstChange(v.pending) >= InnerLoopCount
            && Round(v, AdvanceChannel(start.current, rounds), false, aliased) == Offered(start, rounds + 1, aliased)
  {
    FirstChangeOfSuffix(start.pending, rounds * InnerLoopCount);
    OfferedNext(start, rounds, aliased);
  }

  /** Reporting the candidate of the window that holds the first change, on both pins: the long press as it ends. */
  lemma OfferedSelect(start: SelectorView, rounds: nat, k: nat, aliased: bool)
    requires rounds * InnerLoopCount <= k < |start.pending|
    requires aliased ==> start.shortLog == start.longLog
    ensures var v := Offered(start, rounds, aliased);
            var candidate := AdvanceChannel(start.current, rounds);
            Reported(v.(current := candidate, pending := v.pending[k - rounds * InnerLoopCount + 1..]),
                     ReportEvents(candidate), ReportEvents(candidate), aliased)
            == SelectionAt(start, rounds, k, aliased)
  {
    var pending := start.pending[rounds * InnerLoopCount..];
    assert pending[k - rounds * InnerLoopCount + 1..] == start.pending[k + 1..];
    var candidate := AdvanceChannel(start.current, rounds);
    var candidates := CandidateReports(start.current, rounds);
    var report := ReportEvents(candidate);
    assert CandidateReports(start.current, rounds + 1) == candidates + report;
    ReportedThen(start, candidates, report, report, candidate, start.pending[k + 1..], aliased);
  }

  /** A round whose window holds the first change completes the long press. */
  lemma RoundSelected(start: SelectorView, rounds: nat, aliased: bool)
    requires HasChange(start.pending)
    requires rounds * InnerLoopCount <= FirstChange(start.pending) < (rounds + 1) * InnerLoopCount
    requires aliased ==> start.shortLog == start.longLog
    ensures var v := Offered(start, rounds, aliased);
            && HasChange(v.pending) && FirstChange(v.pending) < InnerLoopCount
            && Round(v, AdvanceChannel(start.current, rounds), true, aliased) == Selected(start, aliased)
  {
    var k := FirstChange(start.pending);
    FirstChangeOfSuffix(start.pending, rounds * InnerLoopCount);
    FirstChangeWindow(start.pending, rounds, k);
    OfferedSelect(start, rounds, k, aliased);
    var v := Offered(start, rounds, aliased);
    var candidate := AdvanceChannel(start.current, rounds);
    assert FirstChange(v.pending) == k - rounds * InnerLoopCount;
    assert Round(v, candidate, true, aliased)
        == Reported(v.(current := candidate, pending := v.pending[k - rounds * InnerLoopCount + 1..]),
                    ReportEvents(candidate), ReportEvents(candidate), aliased);
    assert Selected(start, aliased) == SelectionAt(start, rounds, k, aliased);
  }

  /** Before the first round the long press has changed nothing. */
  lemma NothingOffered(start: SelectorView, aliased: bool)
    requires aliased ==> start.shortLog == start.longLog
    ensures Offered(start, 0, aliased) == start
  {
    assert start.pending[0..] == start.pending;
    assert start.longLog + [] + [] == start.longLog;
    assert start.shortLog + [] == start.shortLog;
  }

  /** Counting `w` steps round the channels from `c` reaches `t` exactly when `w` is the distance from `c` to `t`, modulo their number. */
  lemma StepsToChannel(c: int, t: int, w: nat)
    requires 0 <= c < RecordingChannels && 0 <= t < RecordingChannels
    ensures (c + w) % RecordingChannels == t <==> w % RecordingChannels == (t - c) % RecordingChannels
  {
    var q, r := w / RecordingChannels, w % RecordingChannels;
    assert c + w == RecordingChannels * q + (c + r);
    assert (c + w) % RecordingChannels == (c + r) % RecordingChannels;
  }

  /**
   * Which channel a long press selects: the user gets `target` exactly when
   * the first press falls in a window whose number is, modulo the number of
   * channels, the distance from the current channel to `target`.
   */
  lemma PressSelects(start: SelectorView, target: int, aliased: bool)
    requires InRange(start.current) && InRange(target) && HasChange(start.pending)
    ensures Selected(start, aliased).current == target <==>
              (FirstChange(start.pending) / InnerLoopCount) % RecordingChannels == (target - start.current) % RecordingChannels
  {
    var window := FirstChange(start.pending) / InnerLoopCount;
    AdvanceChannelClosedForm(start.current, window);
    StepsToChannel(start.current - 1, target - 1, window);
  }
}
