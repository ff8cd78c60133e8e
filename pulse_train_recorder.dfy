/**
 * PulseTrainRecorder: records a keyed pulse train to a file on the SD card,
 * one line per pulse, and plays a recorded file back on a keying pin and a
 * sidetone pin with timing rebuilt from two anchors.
 *
 * The SD card is replaced by the `file` field: nothing open, a file open
 * for reading (its text and a read cursor), or a file open for writing (the
 * lines written so far). Whether SD.open succeeds, and what a file read back
 * holds, are parameters of the open methods; the clock (millis) is the
 * parameter `now`.
 */
module Recorder {
  import opened Pins
  import opened CNumbers
  import opened Pulses
  import opened RecordFormat

  /** Size of the file-name buffer, terminating NUL included. */
  const ChannelFilenameMax := 16
  /** Number of value fields in one record. */
  const PulseValueBufferCount := 2
  /** Time between opening a file for playback and the first key-down, in ms. */
  const PlaybackDelayMils := 100

  datatype Option<T> = None | Some(value: T)

  /** The file handle PTRFile. */
  datatype SdFile = Closed | Reading(text: string, cursor: nat) | Writing(lines: seq<string>)

  /**
   * What strncpy(buffer, fn, room) leaves in a zeroed buffer: the C string
   * `fn` (up to its first NUL), cut to `room` characters.
   */
  function CopyName(fn: string, room: nat): (name: string)
    ensures name <= fn && |name| <= room && '\0' !in name
    ensures |name| < room ==> |name| == |fn| || fn[|name|] == '\0'
  {
    if fn == [] || fn[0] == '\0' || room == 0 then [] else [fn[0]] + CopyName(fn[1..], room - 1)
  }

  /** Level of the keying output: High from key-down up to (not including) key-up. */
  function KeyLevel(keyStartTime: int, keyEndTime: int, now: int): (level: Level)
    ensures level == High <==> keyStartTime <= now < keyEndTime
  {
    if now >= keyEndTime then Low
    else if now >= keyStartTime then High
    else Low
  }

  /** Key-down or key-up time of a recorded instant: the playback anchor plus its offset from the first pulse. */
  function PlaybackTime(playbackStartTime: int, pulseTrainStartTime: int, recorded: int): (t: int)
    ensures recorded == pulseTrainStartTime ==> t == playbackStartTime
  {
    playbackStartTime + recorded - pulseTrainStartTime
  }

  /** Playback keeps the recorded spacing: two instants are as far apart when played as when recorded. */
  lemma PlaybackKeepsSpacing(playbackStartTime: int, pulseTrainStartTime: int, a: int, b: int)
    ensures PlaybackTime(playbackStartTime, pulseTrainStartTime, b) - PlaybackTime(playbackStartTime, pulseTrainStartTime, a) == b - a
  {
  }

  /** The instants in [lo, hi). */
  function Interval(lo: int, hi: int): set<int>
    decreases hi - lo
  {
    if lo >= hi then {} else Interval(lo, hi - 1) + {hi - 1}
  }

  lemma {:induction false} IntervalSize(lo: int, hi: int)
    requires lo <= hi
    ensures |Interval(lo, hi)| == hi - lo
    ensures forall t :: t in Interval(lo, hi) <==> lo <= t < hi
    decreases hi - lo
  {
    if lo < hi {
      IntervalSize(lo, hi - 1);
    }
  }

  /**
   * Drift-free timing: the keying output of a record is High exactly on an
   * interval as long as the recorded pulse, shifted by the anchors, whatever
   * the instants at which it is polled.
   */
  lemma HighWindow(playbackStartTime: int, pulseTrainStartTime: int, pulse: Record)
    requires pulse.endTime >= pulse.startTime
    ensures var keyStart := PlaybackTime(playbackStartTime, pulseTrainStartTime, pulse.startTime);
            var keyEnd := PlaybackTime(playbackStartTime, pulseTrainStartTime, pulse.endTime);
            && (forall t :: KeyLevel(keyStart, keyEnd, t) == High <==> t in Interval(keyStart, keyEnd))
            && |Interval(keyStart, keyEnd)| == pulse.endTime - pulse.startTime
  {
    var keyStart := PlaybackTime(playbackStartTime, pulseTrainStartTime, pulse.startTime);
    var keyEnd := PlaybackTime(playbackStartTime, pulseTrainStartTime, pulse.endTime);
    IntervalSize(keyStart, keyEnd);
  }

  /**
   * The character loop of readNextPulse over the unread text `rest`:
   * characters go into the current field until a newline (taken), the end of
   * the text, or a second delimiter (taken); a delimiter moves on to the next
   * field. It also stops when the current field's buffer is full, which the
   * requirement that the line fits rules out.
   */
  method ReadLine(rest: string) returns (field0: string, field1: string, consumed: nat)
    requires rest != [] && LineFits(rest)
    ensures ScanLine(rest) == LineScan(field0, field1, consumed)
  {
    field0, field1 := [], [];
    var bufSel := 0;
    var pos := 0;
    var lineEnded := false;
    while !lineEnded && pos < |rest| && bufSel < PulseValueBufferCount
          && (if bufSel == 0 then |field0| else |field1|) < PulseValueBufferMax
      invariant pos <= |rest| && bufSel <= 2
      invariant !lineEnded && bufSel <= 1 ==> ScanFrom(rest[pos..], bufSel, field0, field1, pos) == ScanLine(rest)
      invariant lineEnded || bufSel == 2 ==> LineScan(field0, field1, pos) == ScanLine(rest)
      decreases |rest| - pos, if lineEnded then 0 else 1
    {
      var inputChar := rest[pos];
      assert rest[pos..][0] == inputChar && rest[pos..][1..] == rest[pos + 1..];
      pos := pos + 1;
      if inputChar == '\n' {
        lineEnded := true;
      } else if inputChar == Delimiter {
        bufSel := bufSel + 1;
      } else if bufSel == 0 {
        field0 := field0 + [inputChar];
      } else {
        field1 := field1 + [inputChar];
      }
    }
    consumed := pos;
  }

  /** The state of a recorder session as a value. */
  datatype Session = Session(
    name: string, playbackStartTime: int, pulseTrainStartTime: int,
    pulseStartTime: int, pulseEndTime: int,
    openForRead: bool, openForWrite: bool, playbackActive: bool, file: SdFile)

  /** There is unread text in a file open for reading: readNextPulse has a line to read. */
  predicate HasNextLine(v: Session) {
    v.openForRead && v.file.Reading? && v.file.cursor < |v.file.text|
  }

  /**
   * What readNextPulse does to a session. With unread text in a file open
   * for reading, the next line is scanned, both fields are converted with
   * atol, the cursor moves past what was scanned, and playback stays active
   * exactly when the record is valid. Otherwise playback stops and nothing
   * else changes.
   */
  function ReadNext(v: Session): (w: Session)
    ensures w.name == v.name && w.openForRead == v.openForRead && w.openForWrite == v.openForWrite
    ensures w.playbackStartTime == v.playbackStartTime && w.pulseTrainStartTime == v.pulseTrainStartTime
    ensures w.playbackActive ==> HasNextLine(v) && IsValidRecord(Record(w.pulseStartTime, w.pulseEndTime))
    ensures !HasNextLine(v) ==> w == v.(playbackActive := false)
  {
    if HasNextLine(v) then
      var rest := v.file.text[v.file.cursor..];
      var pulse := ParseRecord(rest);
      v.(pulseStartTime := pulse.startTime, pulseEndTime := pulse.endTime,
         file := Reading(v.file.text, v.file.cursor + ScanLine(rest).consumed),
         playbackActive := IsValidRecord(pulse))
    else v.(playbackActive := false)
  }

  /**
   * One step of Playback from position `c` of `text`: with `r` the record
   * of the line there and `next` the position past that line, Playback
   * plays something exactly when `r` is valid, and then plays `r` followed
   * by Playback from `next`.
   */
  lemma PlaybackStep(text: string, c: nat, r: Record, next: nat, valid: bool)
    requires c < |text|
    requires r == ParseRecord(text[c..]) && next == c + ScanLine(text[c..]).consumed
    requires valid == IsValidRecord(r)
    ensures next <= |text|
    ensures valid <==> Playback(text[c..]) != []
    ensures valid ==> Playback(text[c..]) == [r] + Playback(text[next..])
  {
    var rest := text[c..];
    assert rest[ScanLine(rest).consumed..] == text[next..];
  }

  /**
   * Reading goes through the file as Playback does: with unread text, the
   * session stays active exactly when Playback plays a first record from
   * the cursor, and then holds that record, and Playback from the new
   * cursor plays the rest.
   */
  lemma ReadNextFollowsPlayback(v: Session)
    requires HasNextLine(v)
    ensures var rest := v.file.text[v.file.cursor..];
            var w := ReadNext(v);
            && (w.playbackActive <==> Playback(rest) != [])
            && (w.playbackActive ==>
                  && w.file.Reading? && w.file.cursor <= |w.file.text|
                  && Playback(rest) == [Record(w.pulseStartTime, w.pulseEndTime)] + Playback(w.file.text[w.file.cursor..]))
  {
    var text, cursor := v.file.text, v.file.cursor;
    var w := ReadNext(v);
    PlaybackStep(text, cursor, Record(w.pulseStartTime, w.pulseEndTime), w.file.cursor, w.playbackActive);
  }

  /**
   * Reading a line that recordPulse wrote for a valid pulse gives that
   * pulse back, keeps playback active and moves the cursor just past the
   * line's CR LF.
   */
  lemma ReadNextOfRecordLine(v: Session, r: Record, rest: string)
    requires v.openForRead && v.file.Reading? && v.file.cursor <= |v.file.text|
    requires v.file.text[v.file.cursor..] == RecordLine(r) + "\r\n" + rest
    requires IsValidRecord(r)
    ensures var w := ReadNext(v);
            && w.playbackActive
            && Record(w.pulseStartTime, w.pulseEndTime) == r
            && w.file == Reading(v.file.text, v.file.cursor + |RecordLine(r)| + 2)
  {
    var line := v.file.text[v.file.cursor..];
    ScanRecordLine(r, rest);
    assert |line| > 0;
    assert HasNextLine(v);
    assert ParseRecord(line) == r && ScanLine(line).consumed == |RecordLine(r)| + 2;
  }

  /** What close does to a session: every flag cleared, the name emptied, the file closed; the times stay. */
  function Closing(v: Session): (w: Session)
    ensures !w.openForRead && !w.openForWrite && !w.playbackActive && w.name == [] && w.file == Closed
    ensures w.playbackStartTime == v.playbackStartTime && w.pulseTrainStartTime == v.pulseTrainStartTime
    ensures w.pulseStartTime == v.pulseStartTime && w.pulseEndTime == v.pulseEndTime
  {
    v.(name := [], openForRead := false, openForWrite := false, playbackActive := false, file := Closed)
  }

  /** Closing twice is closing once. */
  lemma ClosingIsIdempotent(v: Session)
    ensures Closing(Closing(v)) == Closing(v)
  {
  }

  /** What openForRecording does to a session: close it, keep the name, and open an empty file when the open succeeds. */
  function OpenedForRecording(v: Session, fn: string, success: bool): (w: Session)
    ensures !w.openForRead && !w.playbackActive && w.openForWrite == success
    ensures w.name == CopyName(fn, ChannelFilenameMax - 1)
    ensures w.file == if success then Writing([]) else Closed
    ensures Closing(w) == Closing(v)
  {
    Closing(v).(name := CopyName(fn, ChannelFilenameMax - 1), openForWrite := success,
                file := if success then Writing([]) else Closed)
  }

  /** What recordPulse does to a session: in a write session, a valid pulse adds its line; otherwise nothing changes. */
  function Recorded(v: Session, isValid: bool, pulse: Record): (w: Session)
    ensures w.(file := v.file) == v
    ensures w.file != v.file <==> v.openForWrite && v.file.Writing? && isValid
    ensures w.file != v.file ==> w.file == Writing(v.file.lines + [RecordLine(pulse)])
  {
    if v.openForWrite && v.file.Writing? && isValid then v.(file := Writing(v.file.lines + [RecordLine(pulse)])) else v
  }

  /** A session after recordPulse is called with each of `rs`, as valid pulses, in order. */
  function RecordedAll(v: Session, rs: seq<Record>): Session
    decreases |rs|
  {
    if rs == [] then v else RecordedAll(Recorded(v, true, rs[0]), rs[1..])
  }

  /** The lines of a recording: those of its first pulse, then those of the rest. */
  lemma AppendRecordLines(lines: seq<string>, rs: seq<Record>)
    requires rs != []
    ensures lines + [RecordLine(rs[0])] + RecordLines(rs[1..]) == lines + RecordLines(rs)
  {
    assert RecordLines(rs) == [RecordLine(rs[0])] + RecordLines(rs[1..]);
  }

  /** In a write session, recording valid pulses appends their lines, in order. */
  lemma {:induction false} RecordedAllAppends(v: Session, rs: seq<Record>)
    requires v.openForWrite && v.file.Writing?
    ensures RecordedAll(v, rs) == v.(file := Writing(v.file.lines + RecordLines(rs)))
    decreases |rs|
  {
    if rs == [] {
      assert v.file.lines + [] == v.file.lines;
    } else {
      var u := Recorded(v, true, rs[0]);
      RecordedAllAppends(u, rs[1..]);
      AppendRecordLines(v.file.lines, rs);
    }
  }

  /**
   * A recording session end to end: after a successful openForRecording
   * and recordPulse for each of the valid pulses `rs`, the file holds
   * exactly their lines, and playing that file back gives `rs` again.
   */
  lemma RecordingSession(v: Session, fn: string, rs: seq<Record>)
    requires forall i :: 0 <= i < |rs| ==> IsValidRecord(rs[i])
    ensures var w := RecordedAll(OpenedForRecording(v, fn, true), rs);
            && w.file == Writing(RecordLines(rs))
            && Playback(FileText(w.file.lines)) == rs
  {
    var u := OpenedForRecording(v, fn, true);
    RecordedAllAppends(u, rs);
    assert [] + RecordLines(rs) == RecordLines(rs);
    PlaybackOfRecording(rs);
  }

  class PulseTrainRecorder {
    var currentFileName: string
    /** time playback started, ms */
    var playbackStartTime: int
    /** start time of the first pulse of the file being played */
    var pulseTrainStartTime: int
    /** start and end time of the pulse being played */
    var currentPulseStartTime: int
    var currentPulseEndTime: int
    var isOpenForRead: bool
    var isOpenForWrite: bool
    var isPlaybackActive: bool
    var file: SdFile

    /** The session invariant: the flags say what the handle is, and playback needs a file open for reading. */
    ghost predicate Valid()
      reads this
    {
      && (isOpenForRead <==> file.Reading?)
      && (isOpenForWrite <==> file.Writing?)
      && (isPlaybackActive ==> isOpenForRead)
      && |currentFileName| < ChannelFilenameMax
      && (file.Reading? ==> file.cursor <= |file.text|)
    }

    /** Both fields of the line the next readNextPulse would read fit their buffers. */
    ghost predicate NextLineFits()
      reads this
    {
      file.Reading? && file.cursor <= |file.text| ==> LineFits(file.text[file.cursor..])
    }

    function KeyStartTime(): int
      reads this
    {
      PlaybackTime(playbackStartTime, pulseTrainStartTime, currentPulseStartTime)
    }

    function KeyEndTime(): int
      reads this
    {
      PlaybackTime(playbackStartTime, pulseTrainStartTime, currentPulseEndTime)
    }

    /** The current pulse is over at `now`: querying the output state reads the next one. */
    predicate PulseElapsed(now: int)
      reads this
    {
      isPlaybackActive && now >= KeyEndTime()
    }

    /** The keying output the session calls for at `now`. */
    function PlaybackLevel(now: int): (level: Level)
      reads this
      ensures level == High <==> isPlaybackActive && KeyStartTime() <= now < KeyEndTime()
    {
      if isPlaybackActive then KeyLevel(KeyStartTime(), KeyEndTime(), now) else Low
    }

    function View(): Session
      reads this
    {
      Session(currentFileName, playbackStartTime, pulseTrainStartTime, currentPulseStartTime, currentPulseEndTime,
              isOpenForRead, isOpenForWrite, isPlaybackActive, file)
    }

    constructor ()
      ensures Valid()
      ensures !isOpenForRead && !isOpenForWrite && !isPlaybackActive
      ensures playbackStartTime == 0 && pulseTrainStartTime == 0
      ensures currentPulseStartTime == 0 && currentPulseEndTime == 0
      ensures currentFileName == [] && file == Closed
    {
      isOpenForRead := false;
      isOpenForWrite := false;
      playbackStartTime := 0;
      pulseTrainStartTime := 0;
      currentPulseStartTime := 0;
      currentPulseEndTime := 0;
      isPlaybackActive := false;
      currentFileName := [];
      file := Closed;
    }

    function PlaybackActive(): (active: bool)
      reads this
      ensures active == isPlaybackActive
    {
      isPlaybackActive
    }

    /**
     * Closes whatever file is open and clears the name and the flags; the
     * times are left alone. The new state does not depend on the old flags,
     * name or handle, so closing twice is closing once.
     */
    method Close()
      requires Valid()
      modifies this
      ensures Valid()
      ensures View() == Closing(old(View()))
    {
      if isOpenForWrite || isOpenForRead {
        file := Closed;
      }
      currentFileName := [];
      isOpenForWrite := false;
      isOpenForRead := false;
      isPlaybackActive := false;
    }

    /**
     * Closes the session, keeps the name (cut to 15 characters) and opens
     * that file for writing. `success` is whether SD.open succeeds. The write
     * mode is defined locally to create and truncate, so an opened file
     * starts empty. The result is whether a write session is now open.
     */
    method OpenForRecording(fn: string, success: bool) returns (ok: bool)
      requires Valid()
      modifies this
      ensures Valid()
      ensures ok == success
      ensures View() == OpenedForRecording(old(View()), fn, success)
    {
      Close();
      currentFileName := CopyName(fn, ChannelFilenameMax - 1);
      if success {
        file := Writing([]);
        isOpenForWrite := true;
      } else {
        isOpenForWrite := false;
      }
      ok := isOpenForWrite;
    }

    /**
     * Writes the description of a valid pulse as one line. The pulse is
     * passed by value, so its description is produced on a copy. The result
     * is whether a write session is open; an invalid pulse writes nothing.
     */
    method RecordPulse(dp: DigitalPulse) returns (ok: bool)
      requires Valid()
      modifies this
      ensures Valid()
      ensures ok == old(isOpenForWrite)
      ensures ok && dp.isValid ==> file == Writing(old(file).lines + [RecordLine(Record(dp.startTime, dp.endTime))])
      ensures !(ok && dp.isValid) ==> file == old(file)
      ensures currentFileName == old(currentFileName)
      ensures isOpenForRead == old(isOpenForRead) && isOpenForWrite == old(isOpenForWrite)
      ensures isPlaybackActive == old(isPlaybackActive)
      ensures playbackStartTime == old(playbackStartTime) && pulseTrainStartTime == old(pulseTrainStartTime)
      ensures currentPulseStartTime == old(currentPulseStartTime) && currentPulseEndTime == old(currentPulseEndTime)
      ensures View() == Recorded(old(View()), dp.isValid, Record(dp.startTime, dp.endTime))
    {
      ok := false;
      if isOpenForWrite && file.Writing? {
        if dp.isValid {
          var copy := new DigitalPulse(dp.isValid, dp.startTime, dp.endTime);
          var line := copy.GetDescription();
          file := Writing(file.lines + [line]);
        }
        ok := true;
      }
    }

    /**
     * Reads the next line of the file into the current pulse. A line is
     * split into two fields at the delimiter and each is converted with
     * atol; playback stays active only for a valid record.
     */
    method ReadNextPulse() returns (active: bool)
      requires Valid()
      requires NextLineFits()
      modifies this
      ensures Valid()
      ensures active == isPlaybackActive
      ensures View() == ReadNext(old(View()))
    {
      if isOpenForRead && file.Reading? && file.cursor < |file.text| {
        var text, cursor := file.text, file.cursor;
        var field0, field1, consumed := ReadLine(text[cursor..]);
        var startTime, endTime := Atol(field0), Atol(field1);
        file, currentPulseStartTime, currentPulseEndTime, isPlaybackActive :=
          Reading(text, cursor + consumed), startTime, endTime, endTime > startTime && startTime >= 0;
      } else {
        isPlaybackActive := false;
      }
      active := isPlaybackActive;
    }

    /**
     * Closes the session, keeps the name and opens that file for reading
     * (`contents` is None when SD.open fails), then reads the first record.
     * Playback starts PlaybackDelayMils after `now`, anchored so that the
     * first pulse goes down at the playback start time. The file stays open
     * even when its first record cannot be played.
     */
    method OpenForPlayback(fn: string, contents: Option<string>, now: int) returns (ok: bool)
      requires Valid()
      requires contents.Some? ==> LineFits(contents.value)
      modifies this
      ensures Valid()
      ensures currentFileName == CopyName(fn, ChannelFilenameMax - 1)
      ensures !isOpenForWrite && isOpenForRead == contents.Some?
      ensures ok == isPlaybackActive
      ensures ok <==> contents.Some? && contents.value != [] && IsValidRecord(ParseRecord(contents.value))
      ensures contents.Some? && contents.value != [] ==>
                && Record(currentPulseStartTime, currentPulseEndTime) == ParseRecord(contents.value)
                && file == Reading(contents.value, ScanLine(contents.value).consumed)
      ensures contents.Some? && contents.value == [] ==> file == Reading([], 0)
      ensures ok ==> playbackStartTime == now + PlaybackDelayMils && pulseTrainStartTime == currentPulseStartTime
      ensures ok ==> KeyStartTime() == playbackStartTime
      ensures !ok ==> playbackStartTime == old(playbackStartTime) && pulseTrainStartTime == old(pulseTrainStartTime)
      ensures !(contents.Some? && contents.value != []) ==>
                currentPulseStartTime == old(currentPulseStartTime) && currentPulseEndTime == old(currentPulseEndTime)
    {
      Close();
      currentFileName := CopyName(fn, ChannelFilenameMax - 1);
      if contents.Some? {
        file := Reading(contents.value, 0);
        isOpenForRead := true;
        var first := ReadNextPulse();
        if first {
          playbackStartTime := now + PlaybackDelayMils;
          pulseTrainStartTime := currentPulseStartTime;
          isPlaybackActive := true;
        } else {
          isPlaybackActive := false;
        }
      } else {
        isOpenForRead := false;
      }
      ok := isOpenForRead && isPlaybackActive;
    }

    /**
     * The keying output at `now`: Low when playback is inactive, otherwise
     * High exactly between key-down and key-up of the current pulse. Once the
     * pulse is over the next record is read; only then does the state change.
     */
    method GetPlaybackLogicalState(now: int) returns (level: Level)
      requires Valid()
      requires PulseElapsed(now) ==> NextLineFits()
      modifies this
      ensures Valid()
      ensures level == old(PlaybackLevel(now))
      ensures level == High <==> old(isPlaybackActive) && old(KeyStartTime()) <= now < old(KeyEndTime())
      ensures old(PulseElapsed(now)) ==> View() == ReadNext(old(View()))
      ensures !old(PulseElapsed(now)) ==> unchanged(this)
    {
      level := Low;
      if isPlaybackActive {
        var keyStartTime := playbackStartTime + currentPulseStartTime - pulseTrainStartTime;
        var keyEndTime := playbackStartTime + currentPulseEndTime - pulseTrainStartTime;
        if now >= keyEndTime {
          level := Low;
          var _ := ReadNextPulse();
        } else if now >= keyStartTime {
          level := High;
        } else {
          level := Low;
        }
      }
    }

    /**
     * Drives the keying pin and the sidetone pin in lockstep: when the
     * keying pin's logical state differs from the one playback calls for,
     * both are written with it. The result is whether they were written.
     */
    method PlayBackKeying(keyingPin: OutputPin, sideTonePin: OutputPin, now: int) returns (changed: bool)
      requires Valid()
      requires PulseElapsed(now) ==> NextLineFits()
      modifies this, keyingPin, sideTonePin
      ensures Valid()
      ensures changed == (old(keyingPin.logicalState) != old(PlaybackLevel(now)))
      ensures changed ==> keyingPin.logicalState == sideTonePin.logicalState == old(PlaybackLevel(now))
      ensures changed && keyingPin != sideTonePin ==>
                && keyingPin.log == old(keyingPin.log) + [WroteLogical(old(PlaybackLevel(now)))]
                && sideTonePin.log == old(sideTonePin.log) + [WroteLogical(old(PlaybackLevel(now)))]
      ensures changed && keyingPin == sideTonePin ==>
                keyingPin.log == old(keyingPin.log) + [WroteLogical(old(PlaybackLevel(now))), WroteLogical(old(PlaybackLevel(now)))]
      ensures !changed ==> unchanged(keyingPin, sideTonePin)
      ensures old(PulseElapsed(now)) ==> View() == ReadNext(old(View()))
      ensures !old(PulseElapsed(now)) ==> unchanged(this)
    {
      changed := false;
      var currentKeyingState := keyingPin.logicalState;
      var nextKeyingState := GetPlaybackLogicalState(now);
      if currentKeyingState != nextKeyingState {
        keyingPin.WriteLogicalValue(nextKeyingState);
        sideTonePin.WriteLogicalValue(nextKeyingState);
        changed := true;
      }
    }
  }
}
