/**
 * src/utils/time.ts: the run timestamp `HH-MM-SS_DD-MM-YYYY` and the duration format `HH:MM:SS`.
 * The clock is not modelled: the timestamp is a function of the date fields it reads, and the
 * duration a function of a whole number of milliseconds.
 */
module UtilsTime {
  import opened Wrappers
  import opened Builtins

  /** The fields of a `Date` the formatters read; `month` is `getMonth()`, counted from 0. */
  datatype DateFields = DateFields(year: nat, month: nat, day: nat, hours: nat, minutes: nat, seconds: nat)

  /** The ranges a calendar date has, with a four-digit year. */
  predicate InRange(d: DateFields) {
    1000 <= d.year <= 9999 && d.month < 12 && 1 <= d.day <= 31
    && d.hours < 24 && d.minutes < 60 && d.seconds < 60
  }

  /** `getTimestamp()`: `HH-MM-SS_DD-MM-YYYY`, two-digit fields, month as getMonth() + 1, year unpadded. */
  function GetTimestamp(d: DateFields): string {
    TimePart(d) + "_" + DatePart(d)
  }

  /** `${hours}-${minutes}-${seconds}` */
  function TimePart(d: DateFields): string {
    Fields3(Pad(d.hours), Pad(d.minutes), Pad(d.seconds), '-')
  }

  /** `${day}-${month}-${year}` */
  function DatePart(d: DateFields): string {
    Fields3(Pad(d.day), Pad(d.month + 1), NatToString(d.year), '-')
  }

  /** Three fields joined by a separator. */
  function Fields3(a: string, b: string, c: string, sep: char): string {
    a + [sep] + b + [sep] + c
  }

  /** Reads three digit fields separated by `sep`; the last field runs to the end and must be digits too. */
  function ParseThree(s: string, sep: char): Option<(nat, nat, nat)> {
    match SplitFirst(s, sep)
    case None => None
    case Some(p) =>
      match SplitFirst(p.1, sep)
      case None => None
      case Some(q) =>
        if AllDigits(p.0) && AllDigits(q.0) && AllDigits(q.1)
        then Some((DigitsValue(p.0), DigitsValue(q.0), DigitsValue(q.1)))
        else None
  }

  /** Reads a timestamp of this layout back into date fields; a month field of 0 is no month. */
  function ParseTimestamp(s: string): Option<DateFields> {
    match SplitFirst(s, '_')
    case None => None
    case Some(halves) =>
      match ParseThree(halves.0, '-')
      case None => None
      case Some(time) =>
        match ParseThree(halves.1, '-')
        case None => None
        case Some(date) =>
          if date.1 == 0 then None else Some(DateFields(date.2, date.1 - 1, date.0, time.0, time.1, time.2))
  }

  /** Three digit strings joined by `sep`, which is no digit, read back as their values. */
  lemma ThreeFields(a: string, b: string, c: string, sep: char)
    requires AllDigits(a) && AllDigits(b) && AllDigits(c) && !IsDigit(sep)
    ensures ParseThree(Fields3(a, b, c, sep), sep) == Some((DigitsValue(a), DigitsValue(b), DigitsValue(c)))
  {
    DigitsHaveNo(a, sep);
    DigitsHaveNo(b, sep);
    SplitFirstAt(a, sep, b + [sep] + c);
    assert Fields3(a, b, c, sep) == a + [sep] + (b + [sep] + c);
    SplitFirstAt(b, sep, c);
  }

  /** Three digit strings of known values joined by `sep` read back as those values. */
  lemma ThreeValues(a: string, b: string, c: string, sep: char, x: nat, y: nat, z: nat)
    requires AllDigits(a) && AllDigits(b) && AllDigits(c) && !IsDigit(sep)
    requires DigitsValue(a) == x && DigitsValue(b) == y && DigitsValue(c) == z
    ensures ParseThree(Fields3(a, b, c, sep), sep) == Some((x, y, z))
  {
    ThreeFields(a, b, c, sep);
  }

  /** Fields3 of digit strings lacks any character that is neither a digit nor `sep`. */
  lemma FieldsLack(a: string, b: string, c: string, sep: char, other: char)
    requires AllDigits(a) && AllDigits(b) && AllDigits(c) && !IsDigit(other) && other != sep
    ensures other !in Fields3(a, b, c, sep)
  {
    DigitsHaveNo(a, other);
    DigitsHaveNo(b, other);
    DigitsHaveNo(c, other);
  }

  /** Fields3 of digit strings has no character but digits and `sep`. */
  lemma FieldsAlphabet(a: string, b: string, c: string, sep: char)
    requires AllDigits(a) && AllDigits(b) && AllDigits(c)
    ensures forall x :: x in Fields3(a, b, c, sep) ==> IsDigit(x) || x == sep
  {
  }

  /** ParseTimestamp once the halves and their fields are known. */
  lemma ParseTimestampOf(s: string, time: string, date: string, t: (nat, nat, nat), dt: (nat, nat, nat))
    requires SplitFirst(s, '_') == Some((time, date))
    requires ParseThree(time, '-') == Some(t) && ParseThree(date, '-') == Some(dt) && dt.1 != 0
    ensures ParseTimestamp(s) == Some(DateFields(dt.2, dt.1 - 1, dt.0, t.0, t.1, t.2))
  {
    var halves := SplitFirst(s, '_').value;
    assert halves.0 == time && halves.1 == date;
  }

  lemma TimePartReadsBack(d: DateFields)
    ensures ParseThree(TimePart(d), '-') == Some((d.hours, d.minutes, d.seconds))
  {
    ThreeFields(Pad(d.hours), Pad(d.minutes), Pad(d.seconds), '-');
  }

  /** A padded day and month and an unpadded year, joined by '-', read back as their values. */
  lemma DateFieldsRead(day: nat, month: nat, year: nat)
    ensures ParseThree(Fields3(Pad(day), Pad(month), NatToString(year), '-'), '-') == Some((day, month, year))
  {
    DigitsValueOfNatToString(year);
    ThreeValues(Pad(day), Pad(month), NatToString(year), '-', day, month, year);
  }

  lemma DatePartReadsBack(d: DateFields)
    ensures ParseThree(DatePart(d), '-') == Some((d.day, d.month + 1, d.year))
  {
    DateFieldsRead(d.day, d.month + 1, d.year);
  }

  lemma TimestampHalves(d: DateFields)
    ensures SplitFirst(GetTimestamp(d), '_') == Some((TimePart(d), DatePart(d)))
  {
    FieldsLack(Pad(d.hours), Pad(d.minutes), Pad(d.seconds), '-', '_');
    SplitFirstAt(TimePart(d), '_', DatePart(d));
  }

  /** Splitting the timestamp recovers every field it prints: the layout loses nothing. */
  lemma TimestampRoundTrip(d: DateFields)
    ensures ParseTimestamp(GetTimestamp(d)) == Some(d)
  {
    TimestampHalves(d);
    TimePartReadsBack(d);
    DatePartReadsBack(d);
    ParseTimestampOf(GetTimestamp(d), TimePart(d), DatePart(d), (d.hours, d.minutes, d.seconds), (d.day, d.month + 1, d.year));
  }

  /** For in-range fields and a four-digit year the timestamp is 19 characters long. */
  lemma TimestampLength(d: DateFields)
    requires InRange(d)
    ensures |GetTimestamp(d)| == 19
  {
    FourDigitLength(d.year);
  }

  /** `HH-MM-SS_DD-MM-YYYY` holds only digits, '-' and '_'. */
  lemma TimestampAlphabet(d: DateFields)
    ensures forall c :: c in GetTimestamp(d) ==> IsDigit(c) || c == '-' || c == '_'
  {
    FieldsAlphabet(Pad(d.hours), Pad(d.minutes), Pad(d.seconds), '-');
    FieldsAlphabet(Pad(d.day), Pad(d.month + 1), NatToString(d.year), '-');
    assert GetTimestamp(d) == TimePart(d) + "_" + DatePart(d);
  }

  // ---------------------------------------------------------------------------------------------
  // formatDuration

  /** Hours, minutes and seconds of a duration. */
  datatype Hms = Hms(hours: nat, minutes: nat, seconds: nat)

  /**
   * The whole seconds of `ms`, split as formatDuration splits them: hours = t / 3600,
   * minutes = (t % 3600) / 60, seconds = t % 60, which recombine to t with minutes and
   * seconds below 60.
   */
  function Decompose(ms: nat): (t: Hms)
    ensures t.minutes < 60 && t.seconds < 60
    ensures t.hours * 3600 + t.minutes * 60 + t.seconds == ms / 1000
  {
    var total := ms / 1000;
    var rest := total % 3600;
    assert total == total / 3600 * 3600 + rest;
    assert rest == rest / 60 * 60 + rest % 60;
    assert total % 60 == rest % 60 by {
      assert total == (total / 3600 * 60) * 60 + rest;
    }
    Hms(total / 3600, rest / 60, total % 60)
  }

  /** The decomposition is the only one with minutes and seconds below 60. */
  lemma DecomposeUnique(ms: nat, t: Hms)
    requires t.minutes < 60 && t.seconds < 60
    requires t.hours * 3600 + t.minutes * 60 + t.seconds == ms / 1000
    ensures t == Decompose(ms)
  {
    var u := Decompose(ms);
    assert t.hours * 3600 + (t.minutes * 60 + t.seconds) == u.hours * 3600 + (u.minutes * 60 + u.seconds);
  }

  /** `formatDuration(ms)`: `HH:MM:SS`, each field padded to two digits and never truncated. */
  function FormatDuration(ms: nat): string {
    var t := Decompose(ms);
    Fields3(Pad(t.hours), Pad(t.minutes), Pad(t.seconds), ':')
  }

  /** Reads `HH:MM:SS` back. */
  function ParseDuration(s: string): Option<Hms> {
    match ParseThree(s, ':')
    case Some(f) => Some(Hms(f.0, f.1, f.2))
    case None => None
  }

  /** The printed duration reads back as the decomposition of `ms`. */
  lemma DurationRoundTrip(ms: nat)
    ensures ParseDuration(FormatDuration(ms)) == Some(Decompose(ms))
  {
    var t := Decompose(ms);
    ThreeFields(Pad(t.hours), Pad(t.minutes), Pad(t.seconds), ':');
  }

  /** Any duration under a second prints as 00:00:00. */
  lemma DurationUnderASecond(ms: nat)
    requires ms < 1000
    ensures FormatDuration(ms) == "00:00:00"
  {
    assert Decompose(ms) == Hms(0, 0, 0);
    assert Pad(0) == "00";
  }

  /** The output has exactly eight characters iff the hours stay below 100; beyond that the hours keep all their digits. */
  lemma DurationLength(ms: nat)
    ensures |FormatDuration(ms)| == 8 <==> Decompose(ms).hours < 100
    ensures Decompose(ms).hours >= 100 ==> FormatDuration(ms)[..|NatToString(Decompose(ms).hours)|] == NatToString(Decompose(ms).hours)
  {
    var t := Decompose(ms);
    FieldsShape(Pad(t.hours), Pad(t.minutes), Pad(t.seconds), ':');
  }

  /** The length of three joined fields, and the first field at its head. */
  lemma FieldsShape(a: string, b: string, c: string, sep: char)
    ensures |Fields3(a, b, c, sep)| == |a| + |b| + |c| + 2
    ensures Fields3(a, b, c, sep)[..|a|] == a
  {
    assert Fields3(a, b, c, sep) == a + ([sep] + b + [sep] + c);
  }
}
