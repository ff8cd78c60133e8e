/**
 * The record format of a pulse-train file: one pulse per line, start and
 * end time in decimal separated by the delimiter, each line ended by the
 * CR LF that File.println appends. This module gives the reader's
 * behaviour as specification functions and proves that reading a recorded
 * file gives back the recorded pulses.
 */
module RecordFormat {
  import opened CNumbers
  import opened Pulses

  /** A start and end time as one line of a file carries them. */
  datatype Record = Record(startTime: int, endTime: int)

  /** The recorder plays a record only when it lasts a while and does not start before time 0. */
  predicate IsValidRecord(r: Record) {
    r.endTime > r.startTime >= 0
  }

  /** What one call of readNextPulse takes from the unread text: two value fields, and how many characters it consumes. */
  datatype LineScan = LineScan(field0: string, field1: string, consumed: nat)

  /**
   * The reader's pass over `s`, one character at a time, having stored `b0`
   * and `b1` so far with `sel` delimiters seen and `n` characters taken. A
   * newline is taken and ends the pass; a delimiter is taken and moves on to
   * field 1, or ends the pass when it is the second; any other character is
   * stored in the current field. The end of the text also ends the pass.
   */
  function ScanFrom(s: string, sel: nat, b0: string, b1: string, n: nat): (r: LineScan)
    requires sel <= 1
    ensures n <= r.consumed <= n + |s| && (s != [] ==> n < r.consumed)
    ensures |b0| <= |r.field0| && |b1| <= |r.field1|
    ensures sel == 1 ==> r.field0 == b0
    decreases |s|
  {
    if s == [] then LineScan(b0, b1, n)
    else if s[0] == '\n' then LineScan(b0, b1, n + 1)
    else if s[0] == Delimiter then
      if sel == 1 then LineScan(b0, b1, n + 1) else ScanFrom(s[1..], 1, b0, b1, n + 1)
    else if sel == 0 then ScanFrom(s[1..], 0, b0 + [s[0]], b1, n + 1)
    else ScanFrom(s[1..], 1, b0, b1 + [s[0]], n + 1)
  }

  /**
   * One pass of the reader over the unread text `s`. Field 0 holds what
   * comes before the first delimiter, field 1 what comes after it, and the
   * pass stops after the newline, after a second delimiter (leaving the rest
   * of that line unread), or at the end of the text.
   */
  function ScanLine(s: string): (r: LineScan)
    requires s != []
    ensures 0 < r.consumed <= |s|
  {
    ScanFrom(s, 0, [], [], 0)
  }

  /** Both fields of the next line fit their buffers with room for the terminating NUL. */
  predicate LineFits(s: string) {
    s != [] ==> |ScanLine(s).field0| < PulseValueBufferMax && |ScanLine(s).field1| < PulseValueBufferMax
  }

  /** Before the delimiter, the reader stores a run of characters that holds no stop in field 0. */
  lemma {:induction false} ScanFirstField(a: string, rest: string, b0: string, n: nat)
    requires '\n' !in a && Delimiter !in a
    ensures ScanFrom(a + rest, 0, b0, [], n) == ScanFrom(rest, 0, b0 + a, [], n + |a|)
  {
    if a == [] {
      assert a + rest == rest && b0 + a == b0;
    } else {
      assert (a + rest)[0] == a[0] && (a + rest)[1..] == a[1..] + rest;
      assert a[0] in a;
      ScanFirstField(a[1..], rest, b0 + [a[0]], n + 1);
      assert b0 + [a[0]] + a[1..] == b0 + a;
    }
  }

  /** After the delimiter, the reader stores a run of characters that holds no stop in field 1. */
  lemma {:induction false} ScanSecondField(a: string, rest: string, b0: string, b1: string, n: nat)
    requires '\n' !in a && Delimiter !in a
    ensures ScanFrom(a + rest, 1, b0, b1, n) == ScanFrom(rest, 1, b0, b1 + a, n + |a|)
  {
    if a == [] {
      assert a + rest == rest && b1 + a == b1;
    } else {
      assert (a + rest)[0] == a[0] && (a + rest)[1..] == a[1..] + rest;
      assert a[0] in a;
      ScanSecondField(a[1..], rest, b0, b1 + [a[0]], n + 1);
      assert b1 + [a[0]] + a[1..] == b1 + a;
    }
  }

  /**
   * The reader keeps two value buffers only: a second delimiter on a line
   * ends the pass, and nothing after it is stored.
   */
  lemma SecondDelimiterStops(a: string, b: string, rest: string)
    requires '\n' !in a && Delimiter !in a
    requires '\n' !in b && Delimiter !in b
    ensures ScanLine(a + ([Delimiter] + (b + ([Delimiter] + rest)))) == LineScan(a, b, |a| + |b| + 2)
  {
    ScanFirstField(a, [Delimiter] + (b + ([Delimiter] + rest)), [], 0);
    assert [] + a == a;
    assert ([Delimiter] + (b + ([Delimiter] + rest)))[1..] == b + ([Delimiter] + rest);
    ScanSecondField(b, [Delimiter] + rest, a, [], |a| + 1);
    assert [] + b == b;
  }

  /** The record readNextPulse converts the next line of `s` into with atol. */
  function ParseRecord(s: string): Record
    requires s != []
  {
    var scan := ScanLine(s);
    Record(Atol(scan.field0), Atol(scan.field1))
  }

  /**
   * An empty line parses to the pulse (0, 0), which is not valid, so it
   * stops playback; a line that starts with the delimiter has start time 0.
   */
  lemma ParseRecordEdges(s: string)
    requires s != []
    ensures s[0] == '\n' ==> ParseRecord(s) == Record(0, 0) && !IsValidRecord(ParseRecord(s))
    ensures s[0] == Delimiter ==> ParseRecord(s).startTime == 0
  {
  }

  /** The line recordPulse writes for a pulse that is valid. */
  function RecordLine(r: Record): string {
    Description(true, r.startTime, r.endTime)
  }

  /** The text of a file: each line followed by the CR LF that println appends. */
  function FileText(lines: seq<string>): (text: string)
    ensures lines == [] <==> text == []
  {
    if lines == [] then [] else lines[0] + "\r\n" + FileText(lines[1..])
  }

  /** The lines a recording session writes for a sequence of valid pulses. */
  function RecordLines(rs: seq<Record>): (lines: seq<string>)
    ensures |lines| == |rs|
    ensures forall i :: 0 <= i < |rs| ==> lines[i] == RecordLine(rs[i])
  {
    if rs == [] then [] else [RecordLine(rs[0])] + RecordLines(rs[1..])
  }

  /**
   * The records a playback session plays from `text`, in order: playback
   * stops at the end of the text or at the first record that is not valid.
   */
  function Playback(text: string): (rs: seq<Record>)
    ensures forall i :: 0 <= i < |rs| ==> IsValidRecord(rs[i])
    decreases |text|
  {
    if text == [] then []
    else
      var r := ParseRecord(text);
      if IsValidRecord(r) then [r] + Playback(text[ScanLine(text).consumed..]) else []
  }

  /** Every line that playing `text` reads fits the reader's buffers. */
  predicate PlaybackFits(text: string)
    decreases |text|
  {
    text != [] ==>
      && LineFits(text)
      && (IsValidRecord(ParseRecord(text)) ==> PlaybackFits(text[ScanLine(text).consumed..]))
  }

  /** Both values of a record, the second followed by the CR, fit the reader's buffers. */
  predicate RecordFits(r: Record) {
    |Ltoa(r.startTime)| < PulseValueBufferMax && |Ltoa(r.endTime)| + 1 < PulseValueBufferMax
  }

  /** A line made of two fields free of stops around one delimiter, ended by a newline, scans into exactly those fields. */
  lemma ScanTwoFields(a: string, b: string, rest: string)
    requires '\n' !in a && Delimiter !in a
    requires '\n' !in b && Delimiter !in b
    ensures ScanLine(a + ([Delimiter] + (b + ("\n" + rest)))) == LineScan(a, b, |a| + |b| + 2)
  {
    var afterB := "\n" + rest;
    var afterA := [Delimiter] + (b + afterB);
    ScanFirstField(a, afterA, [], 0);
    assert [] + a == a;
    assert ScanFrom(afterA, 0, a, [], |a|) == ScanFrom(b + afterB, 1, a, [], |a| + 1) by {
      assert afterA[1..] == b + afterB;
    }
    ScanSecondField(b, afterB, a, [], |a| + 1);
    assert [] + b == b;
  }

  /** A recorded line followed by more text, as the fields the reader sees: start time, delimiter, end time and CR, newline. */
  lemma RecordLineParts(r: Record, rest: string)
    ensures RecordLine(r) + "\r\n" + rest
            == Ltoa(r.startTime) + ([Delimiter] + ((Ltoa(r.endTime) + "\r") + ("\n" + rest)))
  {
    assert RecordLine(r) == Ltoa(r.startTime) + [Delimiter] + Ltoa(r.endTime);
  }

  /** atol gives back both recorded values: the end time despite the CR behind it. */
  lemma AtolOfRecordFields(r: Record)
    ensures Atol(Ltoa(r.startTime)) == r.startTime
    ensures Atol(Ltoa(r.endTime) + "\r") == r.endTime
  {
    AtolOfLtoa(r.startTime, []);
    assert Ltoa(r.startTime) + [] == Ltoa(r.startTime);
    AtolOfLtoa(r.endTime, "\r");
  }

  /**
   * Reading one recorded line: field 0 is the start time, field 1 the end
   * time followed by the CR (which atol ignores), and the reader stops just
   * after the newline.
   */
  lemma ScanRecordLine(r: Record, rest: string)
    ensures var line := RecordLine(r) + "\r\n" + rest;
            && ScanLine(line) == LineScan(Ltoa(r.startTime), Ltoa(r.endTime) + "\r", |RecordLine(r)| + 2)
            && ParseRecord(line) == r
  {
    RecordLineParts(r, rest);
    LtoaHasNoSeparator(r.startTime);
    LtoaHasNoSeparator(r.endTime);
    ScanTwoFields(Ltoa(r.startTime), Ltoa(r.endTime) + "\r", rest);
    AtolOfRecordFields(r);
  }

  /** The text of a recording splits into its first line, read by one pass of the reader, and the text of the others. */
  lemma FirstRecordLine(rs: seq<Record>)
    requires rs != []
    ensures var text := FileText(RecordLines(rs));
            && text != []
            && ScanLine(text).field0 == Ltoa(rs[0].startTime)
            && ScanLine(text).field1 == Ltoa(rs[0].endTime) + "\r"
            && ParseRecord(text) == rs[0]
            && text[ScanLine(text).consumed..] == FileText(RecordLines(rs[1..]))
  {
    var lines := RecordLines(rs);
    var rest := FileText(lines[1..]);
    assert lines[1..] == RecordLines(rs[1..]);
    assert FileText(lines) == RecordLine(rs[0]) + "\r\n" + rest;
    ScanRecordLine(rs[0], rest);
  }

  /**
   * Round trip of the record format: playing back a file recorded from
   * valid pulses gives the same pulses, in order.
   */
  lemma {:induction false} PlaybackOfRecording(rs: seq<Record>)
    requires forall i :: 0 <= i < |rs| ==> IsValidRecord(rs[i])
    ensures Playback(FileText(RecordLines(rs))) == rs
  {
    if rs != [] {
      var text := FileText(RecordLines(rs));
      FirstRecordLine(rs);
      assert IsValidRecord(ParseRecord(text)) by {
        assert IsValidRecord(rs[0]);
      }
      assert Playback(text) == [rs[0]] + Playback(FileText(RecordLines(rs[1..])));
      PlaybackOfRecording(rs[1..]);
      assert [rs[0]] + rs[1..] == rs;
    }
  }

  /** Every line that playing a recording reads fits the reader's buffers when the recorded values do. */
  lemma {:induction false} RecordingFits(rs: seq<Record>)
    requires forall i :: 0 <= i < |rs| ==> IsValidRecord(rs[i]) && RecordFits(rs[i])
    ensures PlaybackFits(FileText(RecordLines(rs)))
  {
    if rs != [] {
      FirstRecordLine(rs);
      RecordingFits(rs[1..]);
    }
  }

  /** Serialising what the reader parsed from a serialised pulse gives the same text. */
  lemma DescriptionIsStable(r: Record, rest: string)
    ensures var line := RecordLine(r) + "\r\n" + rest;
            RecordLine(ParseRecord(line)) == RecordLine(r)
  {
    ScanRecordLine(r, rest);
  }
}
