# Digital fist recorder: a Dafny model of its core

The digital fist recorder is Arduino firmware for Morse keying. It records
the pulses an operator keys, with their timing, to a file on an SD card, one
file per recording channel. It can play a recorded file back on a keying
output and a sidetone output. Two one-button controls drive it:
- the mode selector shows whether the button is idle, in a short press or in
  a long press;
- the channel selector reports the current channel on a short press, and on a
  long press offers the channels in turn until the user selects one.

The model covers these parts of the firmware:
- **Recording and playback sessions** (`Recorder`, `pulse_train_recorder.dfy`).
  - The `PulseTrainRecorder` class has the firmware's fields. The SD file
    handle becomes a field `file`: nothing open, a file open for reading (its
    text and a read cursor), or a file open for writing (its lines).
  - Every session operation is a method proved against value functions:
    `ReadNext` for readNextPulse and `Closing` for close.
  - The character loop of readNextPulse is the method `ReadLine`. It is proved
    equal to the specification function `RecordFormat.ScanLine`.
- **Record format** (`RecordFormat`, `record_format.dfy`): one line per pulse,
  start time, delimiter, end time, then the CR LF that println appends. The
  main result is a round trip: playing back a recording of valid pulses gives
  the same pulses, in order.
- **The C number conversions** the format relies on (`CNumbers`,
  `cnumbers.dfy`): `ltoa` and `atol`, and the fact that atol reads back what
  ltoa wrote.
- **Pulse description** (`Pulses`, `digital_pulse.dfy`): getDescription, and
  the abstract delimiter and buffer-size constants.
- **Channel selection** (`ChannelSelection`, `channel_selection.dfy`, and
  `Channels`, `channel_selector.dfy`).
  - The class `ChannelSelector` has the loops of the firmware.
  - Its long press is specified by the value function `Selected` over a
    `SelectorView`: the current channel, the coming input polls, and the logs
    of the two output pins.
  - A lemma states which channel a long press selects, given when the user
    presses.
- **Mode selection** (`Modes`, `mode_selector.dfy`): a total map from the pulse
  mode to the two indicator outputs.
- **Pin collaborators** (`Pins`, `pins.dfy`). Output pins log what they are
  asked to do. An input pin draws its poll outcomes from a sequence that
  stands for the user's future presses.

The clock (`millis()`) is a parameter `now`. Whether `SD.open` succeeds, and
what an opened file holds, are parameters of the open methods.

The constants that live in headers outside this model are abstract:
- `PULSE_DESCRIPTION_VALUE_DELIMITER` is `Pulses.Delimiter`. It is assumed to
  be neither a digit nor `'-'`, and not CR, LF or NUL.
- `PULSE_VALUE_BUFFER_MAX` is `Pulses.PulseValueBufferMax`.

The recorder defines its write mode locally to create and truncate the file,
so a recording session always starts from an empty file.

## Model

| member | source | states |
|---|---|---|
| Recorder.PulseTrainRecorder.constructor | libraries/PulseTrainRecorder/PulseTrainRecorder.h:108-119 | A new recorder is not open for reading or writing, playback is inactive, all four times are 0, the name is empty and no file is open; the session invariant holds |
| Recorder.PulseTrainRecorder.PlaybackActive | libraries/PulseTrainRecorder/PulseTrainRecorder.h:175-177 | Returns the playback flag and reads nothing else |
| Recorder.Closing | libraries/PulseTrainRecorder/PulseTrainRecorder.cpp:144-157 | Closing a session clears all three flags, empties the name and closes the file, and keeps the four times |
| Recorder.ClosingIsIdempotent | libraries/PulseTrainRecorder/PulseTrainRecorder.cpp:144-157 | Closing twice gives the same session as closing once |
| Recorder.PulseTrainRecorder.Close | libraries/PulseTrainRecorder/PulseTrainRecorder.cpp:144-157 | The new session is `Closing` of the old one, and the session invariant is kept |
| Recorder.CopyName | libraries/PulseTrainRecorder/PulseTrainRecorder.cpp:75-76 | strncpy into a zeroed buffer keeps a prefix of the name with no NUL, at most `room` characters long; when shorter, it stopped at the end of the name or at its NUL |
| Recorder.OpenedForRecording | libraries/PulseTrainRecorder/PulseTrainRecorder.cpp:70-91 | openForRecording on a session value, with the write mode defined at lines 42-43. It closes first, so reading and playback are off. The name is cut to 15 characters. The write flag is set exactly when the open succeeds, and the file is then empty (the write mode truncates). Everything close keeps is kept |
| Recorder.PulseTrainRecorder.OpenForRecording | libraries/PulseTrainRecorder/PulseTrainRecorder.cpp:70-91 | The result is whether the open succeeded, and the new session is `OpenedForRecording` of the old one |
| Recorder.Recorded | libraries/PulseTrainRecorder/PulseTrainRecorder.cpp:164-177 | recordPulse on a session value. Only the file may change. It changes exactly when a write session is open and the pulse is valid, and then gains exactly one line, the pulse's description |
| Recorder.PulseTrainRecorder.RecordPulse | libraries/PulseTrainRecorder/PulseTrainRecorder.cpp:164-177 | Returns true exactly when a write session is open, and the new session is `Recorded` of the old one: a valid pulse adds exactly one line, its description; an invalid pulse, or a closed session, adds nothing |
| Recorder.RecordedAllAppends | libraries/PulseTrainRecorder/PulseTrainRecorder.cpp:164-177 | In a write session, recording valid pulses one after another appends their lines, in order |
| Recorder.RecordingSession | libraries/PulseTrainRecorder/PulseTrainRecorder.cpp:164-177 | After a successful openForRecording and a recordPulse for each of some valid pulses, the file holds exactly their lines, and playing it back gives the same pulses |
| Recorder.ReadLine | libraries/PulseTrainRecorder/PulseTrainRecorder.cpp:186-212 | The character loop gives the two fields and the number of characters consumed that the specification `ScanLine` gives |
| Recorder.ReadNext | libraries/PulseTrainRecorder/PulseTrainRecorder.cpp:184-235 | readNextPulse on a session value. It keeps the name, the open flags and the anchors. Playback stays active only when a line was there and its record is valid. With no open file or no unread text, playback stops and nothing else changes |
| Recorder.PulseTrainRecorder.ReadNextPulse | libraries/PulseTrainRecorder/PulseTrainRecorder.cpp:184-235 | The new session is `ReadNext` of the old one, the result is the new playback flag, and the session invariant is kept |
| Recorder.ReadNextFollowsPlayback | libraries/PulseTrainRecorder/PulseTrainRecorder.cpp:184-235 | With unread text, readNextPulse stays active exactly when `Playback` from the cursor plays a first record. The record read is that one, and `Playback` from the new cursor plays the rest |
| Recorder.ReadNextOfRecordLine | libraries/PulseTrainRecorder/PulseTrainRecorder.cpp:194-219 | Reading a line written for a valid pulse gives that pulse back and keeps playback active. The cursor moves just past the line's CR LF |
| Recorder.PulseTrainRecorder.OpenForPlayback | libraries/PulseTrainRecorder/PulseTrainRecorder.cpp:99-138 | Closes first and keeps the name cut to 15 characters. The read flag is set exactly when the open succeeds. The result is true exactly when the file opened and its first record is valid; that record is loaded and the cursor is past its line. On success, playback starts PLAYBACK_DELAY_MILS after `now` and the first key-down is at the playback start. On failure the anchors are kept; when no line was read (open failed or empty file) the current pulse times are kept too |
| Recorder.PlaybackTime | libraries/PulseTrainRecorder/PulseTrainRecorder.cpp:251-259 | The first recorded pulse start is played exactly at the playback start time |
| Recorder.PlaybackKeepsSpacing | libraries/PulseTrainRecorder/PulseTrainRecorder.cpp:251-259 | Two recorded instants are as far apart when played as when recorded |
| Recorder.KeyLevel | libraries/PulseTrainRecorder/PulseTrainRecorder.cpp:265-277 | The keying level is High exactly when key-down <= now < key-up |
| Recorder.PulseTrainRecorder.PlaybackLevel | libraries/PulseTrainRecorder/PulseTrainRecorder.cpp:244-281 | The level playback calls for is High exactly when playback is active and now lies between the current pulse's key-down and key-up times |
| Recorder.HighWindow | libraries/PulseTrainRecorder/PulseTrainRecorder.cpp:251-259 | The High window of a pulse is the interval of instants between its anchored key-down and key-up, and its length is the recorded length end - start, whenever it is polled |
| Recorder.PulseTrainRecorder.GetPlaybackLogicalState | libraries/PulseTrainRecorder/PulseTrainRecorder.cpp:244-281 | Returns Low when inactive, else High exactly when key-down <= now < key-up. When the pulse is over, the new session is `ReadNext` of the old one; otherwise nothing changes |
| Recorder.PulseTrainRecorder.PlayBackKeying | libraries/PulseTrainRecorder/PulseTrainRecorder.cpp:288-307 | Returns true exactly when the keying pin's logical state differs from the playback level. Both pins then hold that level: two distinct pins are each written once, and one pin serving as both is written twice. Otherwise neither pin is touched. The session evolves as in getPlaybackLogicalState |
| CNumbers.Ltoa | libraries/DigitalPulse/DigitalPulse.cpp:47 | ltoa base 10 writes digits, with a leading '-' exactly for a negative value |
| CNumbers.AtolReading | libraries/PulseTrainRecorder/PulseTrainRecorder.cpp:214-215 | atol after leading white space: a negative result needs a '-' sign, and text that starts with neither a digit nor a sign reads as 0 |
| CNumbers.AtolOfLtoa | libraries/PulseTrainRecorder/PulseTrainRecorder.cpp:214-215 | atol reads back what ltoa wrote, whatever follows that does not start with a digit |
| Pulses.Description | libraries/DigitalPulse/DigitalPulse.cpp:40-62 | The description is empty exactly for an invalid pulse |
| Pulses.DescriptionIsOneLine | libraries/DigitalPulse/DigitalPulse.cpp:47-58 | A valid description holds exactly one delimiter, and no description holds CR or LF |
| Pulses.DigitalPulse.GetDescription | libraries/DigitalPulse/DigitalPulse.cpp:40-62 | Clears the buffer and fills it with `Description` of the three fields, so the text depends on those alone and repeated calls agree |
| RecordFormat.ScanFrom | libraries/PulseTrainRecorder/PulseTrainRecorder.cpp:194-212 | The loop from any point consumes at least one more character when text remains and never more than remains; fields only grow; once past the delimiter, field 0 is final |
| RecordFormat.ScanLine | libraries/PulseTrainRecorder/PulseTrainRecorder.cpp:194-212 | One pass of the parser consumes at least one character and no more than the unread text |
| RecordFormat.ScanFirstField | libraries/PulseTrainRecorder/PulseTrainRecorder.cpp:199-211 | Before the first delimiter, characters other than LF and the delimiter all go into field 0 |
| RecordFormat.ScanSecondField | libraries/PulseTrainRecorder/PulseTrainRecorder.cpp:199-211 | After the delimiter, characters other than LF and the delimiter all go into field 1 |
| RecordFormat.ScanTwoFields | libraries/PulseTrainRecorder/PulseTrainRecorder.cpp:194-212 | A line `a DELIM b LF` scans into fields a and b and consumes the cursor exactly through the LF |
| RecordFormat.SecondDelimiterStops | libraries/PulseTrainRecorder/PulseTrainRecorder.cpp:194-212 | With two value buffers only, a line `a DELIM b DELIM …` scans into fields a and b and stops right after the second delimiter, leaving the rest of the line unread |
| RecordFormat.ScanRecordLine | libraries/PulseTrainRecorder/PulseTrainRecorder.cpp:194-219 | A recorded line scans into the start time and the end time (with the CR, which atol ignores), and parses back to the recorded pulse |
| RecordFormat.FirstRecordLine | libraries/PulseTrainRecorder/PulseTrainRecorder.cpp:184-219 | One read of a recording's text takes exactly its first line and gives its first pulse; the rest of the text is the recording of the other pulses |
| RecordFormat.ParseRecordEdges | libraries/PulseTrainRecorder/PulseTrainRecorder.cpp:194-219 | An empty line parses to the pulse (0, 0), which is not valid and so stops playback; a line that starts with the delimiter has start time 0 |
| RecordFormat.FileText | libraries/PulseTrainRecorder/PulseTrainRecorder.cpp:169 | A file with no lines is the empty text, and only that file is |
| RecordFormat.RecordLines | libraries/PulseTrainRecorder/PulseTrainRecorder.cpp:164-177 | Recording writes one line per pulse, each its description |
| RecordFormat.Playback | libraries/PulseTrainRecorder/PulseTrainRecorder.cpp:184-235 | Every record playback plays is valid |
| RecordFormat.PlaybackOfRecording | libraries/PulseTrainRecorder/PulseTrainRecorder.cpp:164-235 | Round trip: playing back the recording of valid pulses gives the same pulses, in order |
| RecordFormat.RecordingFits | libraries/PulseTrainRecorder/PulseTrainRecorder.cpp:194-196 | When the recorded values fit the value buffers, every line playing the recording reads fits them |
| RecordFormat.DescriptionIsStable | libraries/DigitalPulse/DigitalPulse.cpp:47-58 | Describing the pulse parsed from a description gives the same description |
| ChannelSelection.NextChannel | libraries/ChannelSelector/ChannelSelector.cpp:120 | The next candidate stays in range and is the channel plus one modulo RECORDING_CHANNELS, wrapping 4 back to 1 |
| ChannelSelection.AdvanceChannelClosedForm | libraries/ChannelSelector/ChannelSelector.cpp:120 | The candidate n windows on is (channel - 1 + n) mod 4, plus 1 |
| ChannelSelection.FullCycle | libraries/ChannelSelector/ChannelSelector.cpp:120 | After RECORDING_CHANNELS more windows the candidate is back where it was |
| ChannelSelection.EveryChannelOffered | libraries/ChannelSelector/ChannelSelector.cpp:99-121 | Every channel is offered within the first four windows of a long press, whatever the current channel |
| ChannelSelection.ReportEvents | libraries/ChannelSelector/ChannelSelector.cpp:45-55 | Reporting a channel out of range does nothing; otherwise it writes Low and then exactly `channel` pulses |
| ChannelSelection.ReportIdentifiesChannel | libraries/ChannelSelector/ChannelSelector.cpp:45-55 | Different channels are reported differently |
| ChannelSelection.FirstChange | libraries/ChannelSelector/ChannelSelector.cpp:104-116 | The first coming poll that reports a change does report one, and no earlier poll does |
| ChannelSelection.FirstChangeOfSuffix | libraries/ChannelSelector/ChannelSelector.cpp:104-117 | Polls that report no change, once used up, leave the first change n polls earlier |
| ChannelSelection.ReportedThen | libraries/ChannelSelector/ChannelSelector.cpp:99-114 | Candidate reports on the long pin followed by further reports give the same pin logs as all of them made at once, whether or not the two pins are one |
| ChannelSelection.Selected | libraries/ChannelSelector/ChannelSelector.cpp:92-124 | A whole long press selects the candidate offered in the window of the first press, and from a channel in range it selects a channel in range |
| ChannelSelection.NothingOffered | libraries/ChannelSelector/ChannelSelector.cpp:93-97 | Before the first window the long press has changed nothing |
| ChannelSelection.RoundPassed | libraries/ChannelSelector/ChannelSelector.cpp:99-121 | A window without a change reports its candidate on the long pin, uses up its 20 polls, and moves on to the next candidate |
| ChannelSelection.RoundSelected | libraries/ChannelSelector/ChannelSelector.cpp:104-117 | The window that holds the first change ends the long press as `Selected` says: its candidate becomes current and is reported on the short pin |
| ChannelSelection.PressSelects | libraries/ChannelSelector/ChannelSelector.cpp:92-124 | A long press selects `target` exactly when the window of the first press is, modulo 4, the distance from the current channel to `target` |
| Channels.ChannelSelector.constructor | libraries/ChannelSelector/ChannelSelector.h:113-125 | Binds the three pins and starts on channel 1 |
| Channels.ChannelSelector.GetChannelName | libraries/ChannelSelector/ChannelSelector.cpp:145-152 | Out of range the name is empty; channel k in range has the name "chnl<k>.txt" |
| Channels.ChannelSelector.ChannelNamesDistinct | libraries/ChannelSelector/ChannelSelector.h:121-124 | Different channels have different file names |
| Channels.ChannelSelector.GetCurrentChannelName | libraries/ChannelSelector/ChannelSelector.h:150-152 | The name of the current channel, never empty while the channel is in range |
| Channels.ChannelSelector.GetCurrentChannel | libraries/ChannelSelector/ChannelSelector.h:177-179 | Returns the current channel, which is in range, and changes nothing |
| Channels.ChannelSelector.ReportChannel | libraries/ChannelSelector/ChannelSelector.cpp:45-55 | The pin receives exactly `ReportEvents(channel)`: nothing out of range, otherwise Low and `channel` pulses |
| Channels.ChannelSelector.ReadInputPulseMode | libraries/ChannelSelector/ChannelSelector.cpp:65-68 | Returns the input pin's poll result, with its effect on the pin |
| Channels.ChannelSelector.ProcessInputPulseMode | libraries/ChannelSelector/ChannelSelector.cpp:73-134 | Does nothing when the pin has not changed or is Idle. An unrecognised mode is reset to Idle. A short press reports the current channel on the short pin and resets to Idle. A long press leaves the pin Idle with the selector as `Selected` says. The channel stays in range |
| Channels.ChannelSelector.SelectChannel | libraries/ChannelSelector/ChannelSelector.cpp:92-124 | The long-press loop ends with the selector as `Selected` says, with the pin Idle |
| Channels.ChannelSelector.OfferRound | libraries/ChannelSelector/ChannelSelector.cpp:99-117 | One round reports the candidate and offers it for a window, as `Round` says; it selects exactly when the first change falls in the window |
| Channels.ChannelSelector.OfferCandidate | libraries/ChannelSelector/ChannelSelector.cpp:104-117 | The candidate becomes current, and is reported on the short pin, exactly when a change comes within 20 polls; it then stops just after that poll. Otherwise all 20 polls are used, the current channel and the short pin are unchanged, and the input pin holds the mode of the 20th poll with its change flag clear |
| Modes.Indicated | libraries/ModeSelector/ModeSelector.cpp:43-61 | The short indicator is High exactly in a short press and the long one exactly in a long press, so they are never both High; any other mode shows both Low |
| Modes.IndicationShowsMode | libraries/ModeSelector/ModeSelector.cpp:43-61 | The indication tells each recognised mode apart; an unrecognised mode looks Idle |
| Modes.IndicationDistinguishes | libraries/ModeSelector/ModeSelector.cpp:43-61 | Different recognised modes give different indications |
| Modes.SharedLevel | libraries/ModeSelector/ModeSelector.cpp:43-61 | When the two indicators are one pin, it ends High exactly in a short or a long press |
| Modes.ModeSelector.constructor | libraries/ModeSelector/ModeSelector.h:95-102 | Binds the three pin references, the class's only state |
| Modes.ModeSelector.AssertOutputPin | libraries/ModeSelector/ModeSelector.cpp:43-61 | The indicator pins show the input pin's mode, each written once (Low then the level when they are one pin). The input pin is not modified |
| Modes.ModeSelector.ForceMode | libraries/ModeSelector/ModeSelector.cpp:70-74 | The input pin holds the new mode, with its change flag and coming polls kept, and the indicators show that mode |
| Modes.ModeSelector.ReadInputPulseMode | libraries/ModeSelector/ModeSelector.cpp:81-84 | Returns the input pin's poll result, with its effect on the pin |
| Modes.ModeSelector.GetCurrentPinMode | libraries/ModeSelector/ModeSelector.h:135-137 | Returns the input pin's mode and changes nothing |

## Left out

- `PulseTrainRecorder::initialize` (pin set-up and `SD.begin`) is hardware bring-up and is not modelled.
- The SD library is replaced by the `file` field. Open success and file contents are parameters. Closing and flushing have no modelled effect: durability after a reset is not captured.
- `Serial` diagnostics and every `delay(...)` call are left out; they change no modelled state.
- The output pulse of `outputPulse` is one `Pulsed` event; its widths and intermediate levels are not modelled.
- The digital pin implementation (sampling, debounce, pulse classification) is not part of this model. The input pin is an interface whose poll outcomes come from a given sequence. The model assumes `setCurrentPinMode` leaves the change flag alone, that `writeValue` leaves the logical state alone, and that `writeLogicalValue` leaves the written value alone.
- Integers are unbounded. Overflow of a 32-bit `long` and the wrap-around of `millis()` are not modelled.
- Recorder.ReadLine: requires the line's fields to fit their buffers. A field that fills its buffer leaves it unterminated, so atol reads past it (undefined behaviour in C).
- Recorder.PulseTrainRecorder.ReadNextPulse: requires the next line to fit the buffers, for the same reason as ReadLine.
- Recorder.PulseTrainRecorder.OpenForPlayback: requires the first line to fit the buffers, for the same reason.
- Recorder.PulseTrainRecorder.GetPlaybackLogicalState: requires, when the pulse is over, the next line to fit the buffers, for the same reason.
- Recorder.PulseTrainRecorder.PlayBackKeying: requires, when the pulse is over, the next line to fit the buffers, for the same reason.
- Pulses.DigitalPulse.GetDescription: assumes both decimal values fit `PULSE_VALUE_BUFFER_MAX` and the whole text fits `PULSE_DESCRIPTION_MAX`; beyond that the firmware overflows its buffers (strncat's bound limits what it copies from the value buffer, not the length of the description). DigitalPulse.h is not part of this model.
- Pulses.Delimiter and Pulses.PulseValueBufferMax are abstract: their values are set in DigitalPulse.h, which is not part of this model.
- Channels.ChannelSelector.ProcessInputPulseMode: a long press requires that some coming poll reports a change. The firmware waits for the user without end, and a press that never comes is not modelled.
- Channels.ChannelSelector.SelectChannel, OfferRound and OfferCandidate split the long-press branch of processInputPulseMode into its rounds and windows; they are not functions of the firmware.
- Channels.ChannelSelector.GetChannelName: takes an `int` where the firmware takes `unsigned int`. A negative argument converts to a large unsigned value that is also out of range, so the result is the same.
- The pin modes are a datatype. An integer other than the three named modes is `Unrecognised`.
