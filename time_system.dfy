/**
 * src/system/time.ts: the second copy of the time helpers. Its timestamp puts the date first,
 * `DD-MM-YYYY_HH:MM:SS`; its duration format is the same `HH:MM:SS` as src/utils/time.ts.
 */
module SystemTime {
  import opened Wrappers
  import opened Builtins
  import UtilsTime

  type DateFields = UtilsTime.DateFields

  /** `getTimestamp()`: `DD-MM-YYYY_HH:MM:SS`, two-digit fields, month as getMonth() + 1, year unpadded. */
  function GetTimestamp(d: DateFields): string {
    DatePart(d) + "_" + TimePart(d)
  }

  /** `${day}-${month}-${year}` */
  function DatePart(d: DateFields): string {
    UtilsTime.Fields3(Pad(d.day), Pad(d.month + 1), NatToString(d.year), '-')
  }

  /** `${hours}:${minutes}:${seconds}` */
  function TimePart(d: DateFields): string {
    UtilsTime.Fields3(Pad(d.hours), Pad(d.minutes), Pad(d.seconds), ':')
  }

  /** Reads a timestamp of this layout back into date fields; a month field of 0 is no month. */
  function ParseTimestamp(s: string): Option<DateFields> {
    match SplitFirst(s, '_')
    case None => None
    case Some(halves) =>
      match UtilsTime.ParseThree(halves.0, '-')
      case None => None
      case Some(date) =>
        match UtilsTime.ParseThree(halves.1, ':')
        case None => None
        case Some(time) =>
          if date.1 == 0 then None
          else Some(UtilsTime.DateFields(date.2, date.1 - 1, date.0, time.0, time.1, time.2))
  }

  /** ParseTimestamp once the halves and their fields are known. */
  lemma ParseTimestampOf(s: string, date: string, time: string, dt: (nat, nat, nat), t: (nat, nat, nat))
    requires SplitFirst(s, '_') == Some((date, time))
    requires UtilsTime.ParseThree(date, '-') == Some(dt) && UtilsTime.ParseThree(time, ':') == Some(t) && dt.1 != 0
    ensures ParseTimestamp(s) == Some(UtilsTime.DateFields(dt.2, dt.1 - 1, dt.0, t.0, t.1, t.2))
  {
    var halves := SplitFirst(s, '_').value;
    assert halves.0 == date && halves.1 == time;
  }

  lemma DatePartReadsBack(d: DateFields)
    ensures UtilsTime.ParseThree(DatePart(d), '-') == Some((d.day, d.month + 1, d.year))
  {
    UtilsTime.DateFieldsRead(d.day, d.month + 1, d.year);
  }

  lemma TimePartReadsBack(d: DateFields)
    ensures UtilsTime.ParseThree(TimePart(d), ':') == Some((d.hours, d.minutes, d.seconds))
  {
    UtilsTime.ThreeFields(Pad(d.hours), Pad(d.minutes), Pad(d.seconds), ':');
  }

  lemma TimestampHalves(d: DateFields)
    ensures SplitFirst(GetTimestamp(d), '_') == Some((DatePart(d), TimePart(d)))
  {
    UtilsTime.FieldsLack(Pad(d.day), Pad(d.month + 1), NatToString(d.year), '-', '_');
    SplitFirstAt(DatePart(d), '_', TimePart(d));
  }

  /** Splitting the timestamp recovers every field it prints. */
  lemma TimestampRoundTrip(d: DateFields)
    ensures ParseTimestamp(GetTimestamp(d)) == Some(d)
  {
    TimestampHalves(d);
    DatePartReadsBack(d);
    TimePartReadsBack(d);
    ParseTimestampOf(GetTimestamp(d), DatePart(d), TimePart(d), (d.day, d.month + 1, d.year), (d.hours, d.minutes, d.seconds));
  }

  /** For in-range fields and a four-digit year this timestamp is 19 characters long too. */
  lemma TimestampLength(d: DateFields)
    requires UtilsTime.InRange(d)
    ensures |GetTimestamp(d)| == 19
  {
    FourDigitLength(d.year);
  }

  /** The two layouts put the same two halves in opposite order, the time half differing only in its separator. */
  lemma LayoutsSwapHalves(d: DateFields)
    ensures GetTimestamp(d) == UtilsTime.DatePart(d) + "_" + TimePart(d)
    ensures UtilsTime.GetTimestamp(d) == UtilsTime.TimePart(d) + "_" + DatePart(d)
    ensures |TimePart(d)| == |UtilsTime.TimePart(d)|
  {
  }

  /** `formatDuration(ms)` of this file: the same arithmetic, written out again. */
  function FormatDuration(ms: nat): (r: string)
    ensures r == UtilsTime.FormatDuration(ms)
  {
    var totalSeconds := ms / 1000;
    var hours := totalSeconds / 3600;
    var minutes := (totalSeconds % 3600) / 60;
    var seconds := totalSeconds % 60;
    UtilsTime.Fields3(Pad(hours), Pad(minutes), Pad(seconds), ':')
  }

  /** The fields printed are a decomposition of the whole seconds, minutes and seconds below 60. */
  lemma DurationFields(ms: nat)
    ensures UtilsTime.ParseDuration(FormatDuration(ms)) == Some(UtilsTime.Decompose(ms))
    ensures UtilsTime.Decompose(ms).minutes < 60 && UtilsTime.Decompose(ms).seconds < 60
    ensures UtilsTime.Decompose(ms).hours * 3600 + UtilsTime.Decompose(ms).minutes * 60 + UtilsTime.Decompose(ms).seconds == ms / 1000
  {
    UtilsTime.DurationRoundTrip(ms);
  }
}
