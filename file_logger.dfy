/**
 * The run log: `FileLogger` opens `upgrade_log.txt` in the chosen folder in
 * append mode with AutoFlush on, and writes one `[yyyy-MM-dd HH:mm:ss] message`
 * line per call to `Log`. The clock (`DateTime.Now`) is a parameter.
 */
module Logging {
  import opened Wrappers
  import opened Decimal
  import Paths

  const LogFileName := "upgrade_log.txt"

  /** A calendar reading as `DateTime` holds it (years 1 to 9999). */
  datatype Instant = Instant(year: nat, month: nat, day: nat, hour: nat, minute: nat, second: nat)

  type DateTime = d: Instant |
    1 <= d.year <= 9999 && 1 <= d.month <= 12 && 1 <= d.day <= 31 &&
    d.hour < 24 && d.minute < 60 && d.second < 60
    witness Instant(1, 1, 1, 0, 0, 0)

  /** The shape of a `yyyy-MM-dd HH:mm:ss` text: 19 characters, digits and fixed punctuation. */
  predicate IsTimestampText(s: string) {
    |s| == 19 &&
    AllDigits(s[0..4]) && s[4] == '-' && AllDigits(s[5..7]) && s[7] == '-' &&
    AllDigits(s[8..10]) && s[10] == ' ' && AllDigits(s[11..13]) && s[13] == ':' &&
    AllDigits(s[14..16]) && s[16] == ':' && AllDigits(s[17..19])
  }

  /** `DateTime.ToString("yyyy-MM-dd HH:mm:ss")`. */
  function Timestamp(d: DateTime): (s: string)
    ensures IsTimestampText(s)
  {
    var year, month, day := ShowPadded(d.year, 4), ShowPadded(d.month, 2), ShowPadded(d.day, 2);
    var hour, minute, second := ShowPadded(d.hour, 2), ShowPadded(d.minute, 2), ShowPadded(d.second, 2);
    var s := year + "-" + month + "-" + day + " " + hour + ":" + minute + ":" + second;
    assert s[0..4] == year && s[5..7] == month && s[8..10] == day;
    assert s[11..13] == hour && s[14..16] == minute && s[17..19] == second;
    s
  }

  /** Reads the fields back out of a timestamp text. */
  function ParseTimestamp(s: string): Instant
    requires IsTimestampText(s)
  {
    Instant(ValueOf(s[0..4]), ValueOf(s[5..7]), ValueOf(s[8..10]),
            ValueOf(s[11..13]), ValueOf(s[14..16]), ValueOf(s[17..19]))
  }

  /** The timestamp text loses nothing: every field is read back as it was. */
  lemma TimestampRoundTrip(d: DateTime)
    ensures ParseTimestamp(Timestamp(d)) == d
  {
    var s := Timestamp(d);
    assert s[0..4] == ShowPadded(d.year, 4);
    assert s[5..7] == ShowPadded(d.month, 2);
    assert s[8..10] == ShowPadded(d.day, 2);
    assert s[11..13] == ShowPadded(d.hour, 2);
    assert s[14..16] == ShowPadded(d.minute, 2);
    assert s[17..19] == ShowPadded(d.second, 2);
    ShowPaddedRoundTrip(d.year, 4);
    ShowPaddedRoundTrip(d.month, 2);
    ShowPaddedRoundTrip(d.day, 2);
    ShowPaddedRoundTrip(d.hour, 2);
    ShowPaddedRoundTrip(d.minute, 2);
    ShowPaddedRoundTrip(d.second, 2);
  }

  /** The line `Log` writes: `[` timestamp `] ` message. */
  function FormatLine(timestamp: string, message: string): string {
    "[" + timestamp + "] " + message
  }

  /** Splits a log line into its timestamp and message, if it has the shape `FormatLine` gives. */
  function ParseLine(line: string): (r: Option<(string, string)>)
    ensures r.Some? ==> IsTimestampText(r.value.0) && line == FormatLine(r.value.0, r.value.1)
  {
    if |line| >= 22 && line[0] == '[' && IsTimestampText(line[1..20]) && line[20] == ']' && line[21] == ' '
    then
      assert line == "[" + line[1..20] + "] " + line[22..];
      Some((line[1..20], line[22..]))
    else None
  }

  /** Every line `Log` writes is read back as the timestamp and the message it was given. */
  lemma ParseFormatLine(timestamp: string, message: string)
    requires IsTimestampText(timestamp)
    ensures ParseLine(FormatLine(timestamp, message)) == Some((timestamp, message))
  {
    var line := FormatLine(timestamp, message);
    assert line[1..20] == timestamp;
    assert line[22..] == message;
  }

  /** The lines written for `messages` when the k-th line is stamped with `clock(k)`. */
  function Stamp(messages: seq<string>, clock: nat -> DateTime): (lines: seq<string>)
    ensures |lines| == |messages|
  {
    seq(|messages|, k requires 0 <= k < |messages| => FormatLine(Timestamp(clock(k)), messages[k]))
  }

  /** Each stamped line reads back as its own clock reading and its own message. */
  lemma StampedLinesParse(messages: seq<string>, clock: nat -> DateTime)
    ensures forall k :: 0 <= k < |messages| ==>
      ParseLine(Stamp(messages, clock)[k]) == Some((Timestamp(clock(k)), messages[k]))
  {
    forall k | 0 <= k < |messages|
      ensures ParseLine(Stamp(messages, clock)[k]) == Some((Timestamp(clock(k)), messages[k]))
    {
      ParseFormatLine(Timestamp(clock(k)), messages[k]);
    }
  }

  lemma StampAppend(messages: seq<string>, m: string, clock: nat -> DateTime)
    ensures Stamp(messages + [m], clock) ==
            Stamp(messages, clock) + [FormatLine(Timestamp(clock(|messages|)), m)]
  {
    var a := Stamp(messages + [m], clock);
    var b := Stamp(messages, clock) + [FormatLine(Timestamp(clock(|messages|)), m)];
    assert |a| == |b|;
    forall k | 0 <= k < |a| ensures a[k] == b[k] {
    }
  }

  /** `Path.Combine(folderPath, "upgrade_log.txt")`. */
  function LogFilePath(folderPath: string): (p: string)
    ensures Paths.FileName(p) == LogFileName
    ensures |p| > |folderPath| && p[..|folderPath|] == folderPath
    ensures |folderPath| + |LogFileName| <= |p| <= |folderPath| + |LogFileName| + 1
    ensures p[|p| - |LogFileName|..] == LogFileName
    ensures |p| == |folderPath| + |LogFileName| + 1 ==> Paths.IsSeparator(p[|folderPath|])
  {
    assert !Paths.IsRooted(LogFileName);
    Paths.FileNameOfCombine(folderPath, LogFileName);
    Paths.Combine(folderPath, LogFileName)
  }

  /**
   * A logger over one log file. `prior` are the lines the file held when it was
   * opened (append mode keeps them); `entries` are the lines this logger wrote,
   * in call order. With AutoFlush there is no buffer: `Contents()` is what the
   * file holds after every call.
   */
  class FileLogger {
    const path: string
    const prior: seq<string>
    var entries: seq<string>
    var closed: bool

    function Contents(): (c: seq<string>)
      reads this
      ensures |c| == |prior| + |entries|
    {
      prior + entries
    }

    /** Opens `upgrade_log.txt` in `folderPath`, whose current lines are `existing`. */
    constructor (folderPath: string, existing: seq<string>)
      ensures path == LogFilePath(folderPath)
      ensures prior == existing && entries == [] && !closed
      ensures Contents() == existing
    {
      path := LogFilePath(folderPath);
      prior := existing;
      entries := [];
      closed := false;
    }

    /** Appends one timestamped line; earlier lines stay as they were. */
    method Log(now: DateTime, message: string)
      requires !closed
      modifies this
      ensures entries == old(entries) + [FormatLine(Timestamp(now), message)]
      ensures Contents() == old(Contents()) + [FormatLine(Timestamp(now), message)]
      ensures !closed
    {
      entries := entries + [FormatLine(Timestamp(now), message)];
    }

    /** Closes the writer; writes nothing, and may be called again. */
    method Dispose()
      modifies this
      ensures closed
      ensures entries == old(entries)
    {
      closed := true;
    }
  }
}
