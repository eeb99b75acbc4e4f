/**
 * src/log.ts: a logger with a fixed level. Each of its four methods emits at most one line, on the
 * console channel of its own severity, exactly when the message's severity is at most the level.
 * Effectful members elsewhere in the model return the `Call`s they make on a logger, in order;
 * `Log.Emit` says what the console then shows for each of them.
 */
module Logging {
  import opened Wrappers
  import opened Builtins
  import opened Constants

  /** One call `log.error(message)`, `log.warn(message)`, `log.info(message)` or `log.debug(message)`. */
  datatype Call = Call(level: Level, message: string)

  /** The console method a line goes to: console.error, console.warn, console.log, console.debug. */
  datatype Channel = ConsoleError | ConsoleWarn | ConsoleLog | ConsoleDebug

  /** One line written to the console. */
  datatype Line = Line(channel: Channel, text: string)

  /** The tag `format` puts between brackets. */
  function Tag(level: Level): string {
    match level
    case ERROR => "ERROR"
    case WARN => "WARN"
    case INFO => "INFO"
    case DEBUG => "DEBUG"
  }

  function ChannelOf(level: Level): Channel {
    match level
    case ERROR => ConsoleError
    case WARN => ConsoleWarn
    case INFO => ConsoleLog
    case DEBUG => ConsoleDebug
  }

  /** `format(level, message)` with the timestamp it reads: `[<timestamp>] [<TAG>] <message>`. */
  function Format(timestamp: string, tag: string, message: string): string {
    "[" + timestamp + "] [" + tag + "] " + message
  }

  /** A logger; `level` is fixed at construction. */
  datatype Log = Log(level: Level) {

    /** `shouldLog(l)`: `l <= this.level` on the enum's numbers. */
    predicate ShouldLog(l: Level) {
      l.Severity() <= level.Severity()
    }

    /**
     * What one call prints when the clock reads `timestamp`: nothing when the level filters it
     * out, otherwise one line on the call's own channel carrying its tag and its message.
     */
    function Emit(timestamp: string, call: Call): (r: Option<Line>)
      ensures r.Some? <==> call.level.Severity() <= level.Severity()
      ensures r.Some? ==> r.value.channel == ChannelOf(call.level)
      ensures r.Some? ==> StartsWith(r.value.text, "[" + timestamp + "] [")
      ensures r.Some? ==> EndsWith(r.value.text, call.message)
    {
      if ShouldLog(call.level) then
        var text := Format(timestamp, Tag(call.level), call.message);
        assert text[..|timestamp| + 4] == "[" + timestamp + "] [";
        assert text[|text| - |call.message|..] == call.message;
        Some(Line(ChannelOf(call.level), text))
      else None
    }

    /** The lines a sequence of calls prints, each call stamped with its own time. */
    function Render(timestamps: seq<string>, calls: seq<Call>): (lines: seq<Line>)
      requires |timestamps| == |calls|
      ensures |lines| <= |calls|
      decreases |calls|
    {
      if calls == [] then []
      else
        var n := |calls| - 1;
        var last := match Emit(timestamps[n], calls[n]) case Some(l) => [l] case None => [];
        Render(timestamps[..n], calls[..n]) + last
    }

    /** The positions of the calls the level lets through, in call order (see `ShownPassesLevel`, `ShownCoversLevel` and `ShownIncreasing`). */
    function Shown(calls: seq<Call>): (idx: seq<nat>)
      ensures forall j :: 0 <= j < |idx| ==> idx[j] < |calls|
      decreases |calls|
    {
      if calls == [] then []
      else
        var n := |calls| - 1;
        Shown(calls[..n]) + (if ShouldLog(calls[n].level) then [n] else [])
    }
  }

  /** `new Log()`: the default level is INFO. */
  const DefaultLog := Log(INFO)

  /** Severities are ordered ERROR < WARN < INFO < DEBUG, so each level enables itself and all below. */
  lemma SeverityOrder()
    ensures ERROR.Severity() < WARN.Severity() < INFO.Severity() < DEBUG.Severity()
  {
  }

  /** A message is emitted iff its severity does not exceed the logger's level. */
  lemma EmitIff(log: Log, timestamp: string, call: Call)
    ensures log.Emit(timestamp, call).Some? <==> call.level.Severity() <= log.level.Severity()
  {
  }

  /** `error` emits at every logger level. */
  lemma ErrorAlwaysEmitted(log: Log, timestamp: string, message: string)
    ensures log.Emit(timestamp, Call(ERROR, message)) == Some(Line(ConsoleError, Format(timestamp, "ERROR", message)))
  {
  }

  /** At the default level debug is suppressed while error, warn and info are emitted. */
  lemma DefaultLevelFilters(timestamp: string, message: string)
    ensures DefaultLog.Emit(timestamp, Call(DEBUG, message)).None?
    ensures DefaultLog.Emit(timestamp, Call(ERROR, message)).Some?
    ensures DefaultLog.Emit(timestamp, Call(WARN, message)).Some?
    ensures DefaultLog.Emit(timestamp, Call(INFO, message)) == Some(Line(ConsoleLog, Format(timestamp, "INFO", message)))
  {
  }

  /** Raising the level never suppresses a line a lower level emitted, and the line is the same. */
  lemma EmitMonotone(low: Log, high: Log, timestamp: string, call: Call)
    requires low.level.Severity() <= high.level.Severity()
    ensures low.Emit(timestamp, call).Some? ==> high.Emit(timestamp, call) == low.Emit(timestamp, call)
  {
  }

  /** `a` is `b` with some elements left out, the rest kept in order. */
  predicate Subsequence<T(==)>(a: seq<T>, b: seq<T>)
    decreases |b|
  {
    if a == [] then true
    else if b == [] then false
    else (a[|a| - 1] == b[|b| - 1] && Subsequence(a[..|a| - 1], b[..|b| - 1])) || Subsequence(a, b[..|b| - 1])
  }

  /** Every position in `Shown` is that of a call the level lets through. */
  lemma {:induction false} ShownPassesLevel(log: Log, calls: seq<Call>)
    ensures forall j :: 0 <= j < |log.Shown(calls)| ==> log.ShouldLog(calls[log.Shown(calls)[j]].level)
    decreases |calls|
  {
    if calls != [] {
      var n := |calls| - 1;
      var cs := calls[..n];
      ShownPassesLevel(log, cs);
      var init, idx := log.Shown(cs), log.Shown(calls);
      forall j | 0 <= j < |idx|
        ensures log.ShouldLog(calls[idx[j]].level)
      {
        if j < |init| {
          assert idx[j] == init[j];
          assert log.ShouldLog(cs[init[j]].level);
          assert cs[init[j]] == calls[init[j]];
        } else {
          assert idx == init + [n];
        }
      }
    }
  }

  /** Every call the level lets through has its position in `Shown`. */
  lemma {:induction false} ShownCoversLevel(log: Log, calls: seq<Call>)
    ensures forall k :: 0 <= k < |calls| && log.ShouldLog(calls[k].level) ==> k in log.Shown(calls)
    decreases |calls|
  {
    if calls != [] {
      var n := |calls| - 1;
      var cs := calls[..n];
      ShownCoversLevel(log, cs);
      var init, idx := log.Shown(cs), log.Shown(calls);
      forall k | 0 <= k < |calls| && log.ShouldLog(calls[k].level)
        ensures k in idx
      {
        if k < n {
          assert cs[k] == calls[k];
          assert k in init;
        } else {
          assert idx == init + [n];
        }
      }
    }
  }

  /** The positions in `Shown` are strictly increasing: the lines keep the call order. */
  lemma {:induction false} ShownIncreasing(log: Log, calls: seq<Call>)
    ensures forall i, j :: 0 <= i < j < |log.Shown(calls)| ==> log.Shown(calls)[i] < log.Shown(calls)[j]
    decreases |calls|
  {
    if calls != [] {
      var n := |calls| - 1;
      var cs := calls[..n];
      ShownIncreasing(log, cs);
      var init, idx := log.Shown(cs), log.Shown(calls);
      assert idx == init + (if log.ShouldLog(calls[n].level) then [n] else []);
      forall i, j | 0 <= i < j < |idx|
        ensures idx[i] < idx[j]
      {
        if j < |init| {
          assert idx[i] == init[i] && idx[j] == init[j];
        } else {
          assert idx[i] == init[i] && init[i] < n;
        }
      }
    }
  }

  /** The printed lines are exactly the emitted lines of the calls the level lets through, in call order. */
  lemma {:induction false} RenderIsShown(log: Log, timestamps: seq<string>, calls: seq<Call>)
    requires |timestamps| == |calls|
    ensures |log.Render(timestamps, calls)| == |log.Shown(calls)|
    ensures var lines, idx := log.Render(timestamps, calls), log.Shown(calls);
      forall j :: 0 <= j < |idx| ==> Some(lines[j]) == log.Emit(timestamps[idx[j]], calls[idx[j]])
    decreases |calls|
  {
    if calls != [] {
      var n := |calls| - 1;
      var ts, cs := timestamps[..n], calls[..n];
      RenderIsShown(log, ts, cs);
      var init, initIdx := log.Render(ts, cs), log.Shown(cs);
      var lines, idx := log.Render(timestamps, calls), log.Shown(calls);
      forall j | 0 <= j < |idx|
        ensures Some(lines[j]) == log.Emit(timestamps[idx[j]], calls[idx[j]])
      {
        if j < |initIdx| {
          assert idx[j] == initIdx[j] && lines[j] == init[j];
          assert ts[initIdx[j]] == timestamps[initIdx[j]] && cs[initIdx[j]] == calls[initIdx[j]];
        } else {
          assert idx == initIdx + [n] && lines == init + [log.Emit(timestamps[n], calls[n]).value];
        }
      }
    }
  }

  /** When every call passes the level, line k is call k's emitted line. */
  lemma {:induction false} RenderAllShown(log: Log, timestamps: seq<string>, calls: seq<Call>)
    requires |timestamps| == |calls|
    requires forall k :: 0 <= k < |calls| ==> calls[k].level.Severity() <= log.level.Severity()
    ensures |log.Render(timestamps, calls)| == |calls|
    ensures forall k :: 0 <= k < |calls| ==> Some(log.Render(timestamps, calls)[k]) == log.Emit(timestamps[k], calls[k])
    decreases |calls|
  {
    if calls != [] {
      var n := |calls| - 1;
      RenderAllShown(log, timestamps[..n], calls[..n]);
    }
  }

  /** A subsequence of b is one of b with an element appended. */
  lemma SubsequenceExtend<T>(a: seq<T>, b: seq<T>, x: T)
    requires Subsequence(a, b)
    ensures Subsequence(a, b + [x])
  {
    assert (b + [x])[..|b + [x]| - 1] == b;
  }

  /** Raising the level never loses a line: the lower level's output is a subsequence of the higher level's. */
  lemma {:induction false} RenderMonotone(low: Log, high: Log, timestamps: seq<string>, calls: seq<Call>)
    requires low.level.Severity() <= high.level.Severity()
    requires |timestamps| == |calls|
    ensures Subsequence(low.Render(timestamps, calls), high.Render(timestamps, calls))
    decreases |calls|
  {
    if calls != [] {
      var n := |calls| - 1;
      var lo, hi := low.Render(timestamps[..n], calls[..n]), high.Render(timestamps[..n], calls[..n]);
      RenderMonotone(low, high, timestamps[..n], calls[..n]);
      EmitMonotone(low, high, timestamps[n], calls[n]);
      match low.Emit(timestamps[n], calls[n])
      case Some(l) =>
        assert (lo + [l])[..|lo + [l]| - 1] == lo;
        assert (hi + [l])[..|hi + [l]| - 1] == hi;
      case None =>
        match high.Emit(timestamps[n], calls[n])
        case Some(h) =>
          SubsequenceExtend(lo, hi, h);
        case None =>
          assert hi + [] == hi && lo + [] == lo;
    }
  }

  /** At level DEBUG every call prints exactly one line, and line k is call k's formatted line on its own channel. */
  lemma RenderAtDebug(timestamps: seq<string>, calls: seq<Call>)
    requires |timestamps| == |calls|
    ensures |Log(DEBUG).Render(timestamps, calls)| == |calls|
    ensures forall k :: 0 <= k < |calls| ==>
      Log(DEBUG).Render(timestamps, calls)[k] == Line(ChannelOf(calls[k].level), Format(timestamps[k], Tag(calls[k].level), calls[k].message))
  {
    RenderAllShown(Log(DEBUG), timestamps, calls);
  }

  // ---------------------------------------------------------------------------------------------
  // Reading a formatted line back

  /** Splits `[<ts>] [<tag>] <message>` into its three parts; the inverse of Format. */
  function ParseLine(text: string): Option<(string, string, string)> {
    if !StartsWith(text, "[") then None
    else match SplitFirst(text[1..], ']')
      case None => None
      case Some(p) => ParseTagged(p.0, p.1)
  }

  /** The rest of a line after its timestamp: ` [<tag>] <message>`. */
  function ParseTagged(timestamp: string, rest: string): Option<(string, string, string)> {
    if !StartsWith(rest, " [") then None
    else match SplitFirst(rest[2..], ']')
      case None => None
      case Some(q) =>
        if !StartsWith(q.1, " ") then None else Some((timestamp, q.0, q.1[1..]))
  }

  /** The part after the timestamp reads back as its tag and message. */
  lemma TaggedRoundTrip(timestamp: string, tag: string, message: string)
    requires ']' !in tag
    ensures ParseTagged(timestamp, " [" + tag + "] " + message) == Some((timestamp, tag, message))
  {
    var rest := " [" + tag + "] " + message;
    assert rest[2..] == tag + [']'] + (" " + message);
    SplitFirstAt(tag, ']', " " + message);
    assert (" " + message)[1..] == message;
  }

  /** A line carries its timestamp, tag and message recoverably, when the timestamp has no ']'. */
  lemma FormatRoundTrip(timestamp: string, tag: string, message: string)
    requires ']' !in timestamp && ']' !in tag
    ensures ParseLine(Format(timestamp, tag, message)) == Some((timestamp, tag, message))
  {
    var rest := " [" + tag + "] " + message;
    assert Format(timestamp, tag, message)[1..] == timestamp + [']'] + rest;
    SplitFirstAt(timestamp, ']', rest);
    TaggedRoundTrip(timestamp, tag, message);
  }

  /** Every emitted line reads back as the call's own tag and message. */
  lemma EmittedLineReadsBack(log: Log, timestamp: string, call: Call)
    requires ']' !in timestamp
    requires log.Emit(timestamp, call).Some?
    ensures ParseLine(log.Emit(timestamp, call).value.text) == Some((timestamp, Tag(call.level), call.message))
  {
    FormatRoundTrip(timestamp, Tag(call.level), call.message);
  }
}
