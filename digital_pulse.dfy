/**
 * A pulse read from an input pin (DigitalPulse) and the text line that
 * describes it on the recording card.
 */
module Pulses {
  import opened CNumbers

  /**
   * The character that separates the two values of a record. Its value is
   * set in DigitalPulse.h, which is not part of this model; the model only
   * assumes it is neither a digit, nor '-', nor a line-end character, nor NUL.
   */
  type DelimiterChar = c: char | !IsDigit(c) && c != '-' && c != '\n' && c != '\r' && c != '\0'
    witness ','

  const Delimiter: DelimiterChar

  /** Size of the character buffer one value is read into or written from (also set in DigitalPulse.h). */
  const PulseValueBufferMax: nat

  /**
   * The text getDescription yields for a pulse: nothing for an invalid
   * pulse; otherwise start and end time in decimal around one delimiter.
   */
  function Description(isValid: bool, startTime: int, endTime: int): (d: string)
    ensures !isValid <==> d == []
  {
    if isValid then Ltoa(startTime) + [Delimiter] + Ltoa(endTime) else []
  }

  /**
   * A description holds exactly one delimiter, and no line-end character,
   * so it fills one line and splits into two values.
   */
  lemma DescriptionIsOneLine(isValid: bool, startTime: int, endTime: int)
    ensures var d := Description(isValid, startTime, endTime);
            && (isValid ==> multiset(d)[Delimiter] == 1)
            && '\n' !in d && '\r' !in d
  {
    LtoaHasNoSeparator(startTime);
    LtoaHasNoSeparator(endTime);
  }

  /** A decimal number never contains the delimiter or a line-end character. */
  lemma LtoaHasNoSeparator(n: int)
    ensures Delimiter !in Ltoa(n) && '\n' !in Ltoa(n) && '\r' !in Ltoa(n)
    ensures multiset(Ltoa(n))[Delimiter] == 0
  {
    var s := Ltoa(n);
    forall i | 0 <= i < |s| ensures s[i] != Delimiter && s[i] != '\n' && s[i] != '\r' {
    }
  }

  class DigitalPulse {
    var isValid: bool
    var startTime: int
    var endTime: int
    /** the buffer getDescription fills */
    var pulseDescription: string

    constructor (isValid: bool, startTime: int, endTime: int)
      ensures this.isValid == isValid && this.startTime == startTime && this.endTime == endTime
      ensures pulseDescription == []
    {
      this.isValid := isValid;
      this.startTime := startTime;
      this.endTime := endTime;
      pulseDescription := [];
    }

    /**
     * Clears the description buffer, then fills it for a valid pulse. The
     * text depends only on the three fields, so repeated calls agree.
     */
    method GetDescription() returns (d: string)
      modifies this`pulseDescription
      ensures d == pulseDescription == Description(isValid, startTime, endTime)
    {
      pulseDescription := [];
      if isValid {
        pulseDescription := pulseDescription + Ltoa(startTime);
        pulseDescription := pulseDescription + [Delimiter];
        pulseDescription := pulseDescription + Ltoa(endTime);
      }
      d := pulseDescription;
    }
  }
}
