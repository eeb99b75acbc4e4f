/**
 * src/system/commands.ts: running a child process and classifying how it ended.
 *
 * The child is not spawned here. What spawn would deliver is an input: the list of events the
 * child emits, in order (a stdout chunk, a stderr chunk, `close` with its exit code or null, or
 * `error`). `ExecuteCommand` folds over that list exactly as the listeners do: each chunk is
 * appended to its own buffer and, when mirroring is on, written to the parent's stream of the
 * same name; the first `close` or `error` settles the promise and later ones change nothing.
 *
 * Callers in the rest of the model do not replay events: a `Host` gives, for each invocation,
 * the settlement it reaches.
 */
module Commands {
  import opened Wrappers
  import opened Builtins
  import opened Constants
  import opened Logging

  /** `CommandResult`: what a successful run resolves with. */
  datatype CommandResult = CommandResult(stdout: string, stderr: string, code: int)

  /** `CommandError`: an Error with the buffers and the exit code of the failed run. */
  datatype CommandError = CommandError(message: string, stdout: string, stderr: string, code: int)

  /** A value a promise is rejected with: a CommandError, or any other Error, of which only the message is read. */
  datatype Thrown = Command(error: CommandError) | Plain(message: string)

  /** How a promise for a command settled. */
  datatype Settlement = Resolved(result: CommandResult) | Rejected(error: Thrown)
  /** One event the child emits; a chunk is its decoded text, `data.toString()`. */
  /** One event the child emits. */
  datatype Event = StdoutData(chunk: string) | StderrData(chunk: string) | Close(code: Option<int>) | SpawnError(message: string)

  /** The parent's output streams chunks are mirrored to. */
  datatype Stream = ParentStdout | ParentStderr

  /** One `process.stdout.write(data)` or `process.stderr.write(data)`. */
  datatype Write = Write(stream: Stream, chunk: string)

  /** `close` and `error` are the events that settle the promise. */
  predicate Terminal(e: Event) {
    e.Close? || e.SpawnError?
  }

  /** The stdout buffer after the events: its own chunks, in order. */
  function StdoutOf(events: seq<Event>): string
    decreases |events|
  {
    if events == [] then ""
    else StdoutOf(events[..|events| - 1]) + (match events[|events| - 1] case StdoutData(c) => c case _ => "")
  }

  /** The stderr buffer after the events: its own chunks, in order. */
  function StderrOf(events: seq<Event>): string
    decreases |events|
  {
    if events == [] then ""
    else StderrOf(events[..|events| - 1]) + (match events[|events| - 1] case StderrData(c) => c case _ => "")
  }

  /**
   * How a terminal event settles the promise, given the buffers at that moment: `close` with 0
   * resolves; any other `close` rejects with "Process failed" and the code, 1 when it is null;
   * `error` rejects with the error's message and code 1. A rejection never carries code 0.
   */
  function Settle(e: Event, stdout: string, stderr: string): (s: Settlement)
    requires Terminal(e)
    ensures s.Resolved? <==> e == Close(Some(0))
    ensures s.Resolved? ==> s.result == CommandResult(stdout, stderr, 0)
    ensures s.Rejected? ==> s.error.Command? && s.error.error.stdout == stdout && s.error.error.stderr == stderr
    ensures s.Rejected? ==> s.error.error.code != 0
  {
    match e
    case Close(code) =>
      if code == Some(0) then Resolved(CommandResult(stdout, stderr, 0))
      else Rejected(Command(CommandError("Process failed", stdout, stderr, code.GetOr(1))))
    case SpawnError(message) => Rejected(Command(CommandError(message, stdout, stderr, 1)))
  }

  /** The settlement after the events, None while no terminal event has arrived. */
  function OutcomeOf(events: seq<Event>): Option<Settlement>
    decreases |events|
  {
    if events == [] then None
    else
      var prefix := events[..|events| - 1];
      var last := events[|events| - 1];
      if OutcomeOf(prefix).Some? then OutcomeOf(prefix)
      else if Terminal(last) then Some(Settle(last, StdoutOf(prefix), StderrOf(prefix)))
      else None
  }

  /** The writes to the parent's streams the events cause when mirroring is `log`. */
  function Mirrored(events: seq<Event>, log: bool): seq<Write>
    decreases |events|
  {
    if events == [] then []
    else
      var prefix := Mirrored(events[..|events| - 1], log);
      match events[|events| - 1]
      case StdoutData(c) => if log then prefix + [Write(ParentStdout, c)] else prefix
      case StderrData(c) => if log then prefix + [Write(ParentStderr, c)] else prefix
      case _ => prefix
  }

  /** All chunks written to one stream, in order. */
  function Written(writes: seq<Write>, stream: Stream): string
    decreases |writes|
  {
    if writes == [] then ""
    else
      var last := writes[|writes| - 1];
      Written(writes[..|writes| - 1], stream) + (if last.stream == stream then last.chunk else "")
  }

  /**
   * `executeCommand(cmd, args, { log })` on a child that emits `events`: the buffers grow by
   * `+=` per chunk, the first terminal event settles, and chunks are mirrored iff `log`, which
   * defaults to true.
   */
  method ExecuteCommand(events: seq<Event>, log: Option<bool>) returns (outcome: Option<Settlement>, writes: seq<Write>)
    ensures outcome == OutcomeOf(events)
    ensures writes == Mirrored(events, log.GetOr(true))
  {
    var mirror := log.GetOr(true);
    var stdout, stderr := "", "";
    outcome, writes := None, [];
    var i := 0;
    while i < |events|
      invariant 0 <= i <= |events|
      invariant stdout == StdoutOf(events[..i]) && stderr == StderrOf(events[..i])
      invariant outcome == OutcomeOf(events[..i])
      invariant writes == Mirrored(events[..i], mirror)
    {
      assert events[..i + 1][..i] == events[..i];
      match events[i] {
        case StdoutData(c) =>
          stdout := stdout + c;
          if mirror { writes := writes + [Write(ParentStdout, c)]; }
        case StderrData(c) =>
          stderr := stderr + c;
          if mirror { writes := writes + [Write(ParentStderr, c)]; }
        case Close(code) =>
          if outcome.None? {
            outcome := if code == Some(0) then Some(Resolved(CommandResult(stdout, stderr, 0)))
              else Some(Rejected(Command(CommandError("Process failed", stdout, stderr, code.GetOr(1)))));
          }
        case SpawnError(message) =>
          if outcome.None? {
            outcome := Some(Rejected(Command(CommandError(message, stdout, stderr, 1))));
          }
      }
      i := i + 1;
    }
    assert events[..i] == events;
  }

  // ---------------------------------------------------------------------------------------------
  // Properties of the fold

  /** The stdout buffer is the concatenation of its chunks: appending events appends their chunks. */
  lemma {:induction false} StdoutConcatenates(p: seq<Event>, q: seq<Event>)
    ensures StdoutOf(p + q) == StdoutOf(p) + StdoutOf(q)
    decreases |q|
  {
    if q == [] {
      assert p + q == p;
    } else {
      var q' := q[..|q| - 1];
      StdoutConcatenates(p, q');
      assert (p + q)[..|p + q| - 1] == p + q';
      assert (p + q)[|p + q| - 1] == q[|q| - 1];
      var chunk := match q[|q| - 1] case StdoutData(c) => c case _ => "";
      assert StdoutOf(q) == StdoutOf(q') + chunk;
      assert StdoutOf(p + q) == (StdoutOf(p) + StdoutOf(q')) + chunk;
    }
  }

  /** The stderr buffer is the concatenation of its chunks. */
  lemma {:induction false} StderrConcatenates(p: seq<Event>, q: seq<Event>)
    ensures StderrOf(p + q) == StderrOf(p) + StderrOf(q)
    decreases |q|
  {
    if q == [] {
      assert p + q == p;
    } else {
      var q' := q[..|q| - 1];
      StderrConcatenates(p, q');
      assert (p + q)[..|p + q| - 1] == p + q';
      assert (p + q)[|p + q| - 1] == q[|q| - 1];
      var chunk := match q[|q| - 1] case StderrData(c) => c case _ => "";
      assert StderrOf(q) == StderrOf(q') + chunk;
      assert StderrOf(p + q) == (StderrOf(p) + StderrOf(q')) + chunk;
    }
  }

  /** A chunk on one stream never reaches the other stream's buffer. */
  lemma StreamsDoNotMix(p: seq<Event>, q: seq<Event>, c: string)
    ensures StdoutOf(p + [StderrData(c)] + q) == StdoutOf(p + q)
    ensures StderrOf(p + [StdoutData(c)] + q) == StderrOf(p + q)
  {
    StdoutSkipsStderr(p, q, c);
    StderrSkipsStdout(p, q, c);
  }

  lemma StdoutSkipsStderr(p: seq<Event>, q: seq<Event>, c: string)
    ensures StdoutOf(p + [StderrData(c)] + q) == StdoutOf(p + q)
  {
    StdoutConcatenates(p + [StderrData(c)], q);
    StdoutConcatenates(p, [StderrData(c)]);
    StdoutConcatenates(p, q);
    assert StdoutOf([StderrData(c)]) == "" by { assert [StderrData(c)][..0] == []; }
  }

  lemma StderrSkipsStdout(p: seq<Event>, q: seq<Event>, c: string)
    ensures StderrOf(p + [StdoutData(c)] + q) == StderrOf(p + q)
  {
    StderrConcatenates(p + [StdoutData(c)], q);
    StderrConcatenates(p, [StdoutData(c)]);
    StderrConcatenates(p, q);
    assert StderrOf([StdoutData(c)]) == "" by { assert [StdoutData(c)][..0] == []; }
  }

  /** The promise settles once: events after the settlement do not change it. */
  lemma {:induction false} SettlesOnce(p: seq<Event>, q: seq<Event>)
    requires OutcomeOf(p).Some?
    ensures OutcomeOf(p + q) == OutcomeOf(p)
    decreases |q|
  {
    if q == [] {
      assert p + q == p;
    } else {
      var q' := q[..|q| - 1];
      SettlesOnce(p, q');
      assert (p + q)[..|p + q| - 1] == p + q';
    }
  }

  /** The promise is still pending exactly when no terminal event has arrived. */
  lemma {:induction false} PendingIffNoTerminal(events: seq<Event>)
    ensures OutcomeOf(events).None? <==> forall j :: 0 <= j < |events| ==> !Terminal(events[j])
    decreases |events|
  {
    if events != [] {
      var prefix := events[..|events| - 1];
      PendingIffNoTerminal(prefix);
      if OutcomeOf(events).None? {
        forall j | 0 <= j < |events| ensures !Terminal(events[j]) {
          if j < |events| - 1 { assert events[j] == prefix[j]; }
        }
      }
    }
  }

  /** A terminal event after a pending prefix settles the promise with the prefix's buffers. */
  lemma SettlesAtLast(p: seq<Event>, e: Event)
    requires OutcomeOf(p).None? && Terminal(e)
    ensures OutcomeOf(p + [e]) == Some(Settle(e, StdoutOf(p), StderrOf(p)))
  {
    assert (p + [e])[..|p|] == p;
  }

  /** Events with no terminal one, then a terminal one: that one decides, whatever follows. */
  lemma DecidedBy(p: seq<Event>, e: Event, q: seq<Event>)
    requires Terminal(e) && forall j :: 0 <= j < |p| ==> !Terminal(p[j])
    ensures OutcomeOf(p + [e] + q) == Some(Settle(e, StdoutOf(p), StderrOf(p)))
  {
    PendingIffNoTerminal(p);
    SettlesAtLast(p, e);
    SettlesOnce(p + [e], q);
  }

  /**
   * A child whose first terminal event is `close` with a code other than 0 (or null) rejects with
   * "Process failed", the buffers as they were then, and the code, 1 when it is null.
   */
  lemma NonZeroExitRejects(p: seq<Event>, code: Option<int>, q: seq<Event>)
    requires code != Some(0) && forall j :: 0 <= j < |p| ==> !Terminal(p[j])
    ensures OutcomeOf(p + [Close(code)] + q)
         == Some(Rejected(Command(CommandError("Process failed", StdoutOf(p), StderrOf(p), code.GetOr(1)))))
  {
    DecidedBy(p, Close(code), q);
  }

  /** A child whose first terminal event is `error` rejects with that error's message, the buffers as they were then, and code 1. */
  lemma SpawnErrorRejects(p: seq<Event>, message: string, q: seq<Event>)
    requires forall j :: 0 <= j < |p| ==> !Terminal(p[j])
    ensures OutcomeOf(p + [SpawnError(message)] + q)
         == Some(Rejected(Command(CommandError(message, StdoutOf(p), StderrOf(p), 1))))
  {
    DecidedBy(p, SpawnError(message), q);
  }

  /** Only the first terminal event decides, with the buffers as they were just before it. */
  lemma FirstTerminalDecides(events: seq<Event>, k: nat)
    requires k < |events| && Terminal(events[k])
    requires forall j :: 0 <= j < k ==> !Terminal(events[j])
    ensures OutcomeOf(events) == Some(Settle(events[k], StdoutOf(events[..k]), StderrOf(events[..k])))
  {
    SplitAround(events, k);
    DecidedBy(events[..k], events[k], events[k + 1..]);
  }

  /** A sequence is its part before `k`, its element at `k` and its part after, and the first part keeps its indices. */
  lemma SplitAround(events: seq<Event>, k: nat)
    requires k < |events|
    ensures events[..k] + [events[k]] + events[k + 1..] == events
    ensures forall j :: 0 <= j < k ==> events[..k][j] == events[j]
  {
  }

  /** Mirroring off writes nothing; mirroring on writes each stream's buffer to the parent's stream of the same name. */
  lemma {:induction false} MirrorCarriesBuffers(events: seq<Event>)
    ensures Mirrored(events, false) == []
    ensures Written(Mirrored(events, true), ParentStdout) == StdoutOf(events)
    ensures Written(Mirrored(events, true), ParentStderr) == StderrOf(events)
    decreases |events|
  {
    if events != [] {
      MirrorCarriesBuffers(events[..|events| - 1]);
      var w := Mirrored(events[..|events| - 1], true);
      match events[|events| - 1]
      case StdoutData(c) => assert (w + [Write(ParentStdout, c)])[..|w|] == w;
      case StderrData(c) => assert (w + [Write(ParentStderr, c)])[..|w|] == w;
      case _ =>
    }
  }

  /** A child that prints "output", nothing on stderr, and exits 0 resolves with those buffers and code 0. */
  lemma SucceedingChild()
    ensures OutcomeOf([StdoutData("output"), StderrData(""), Close(Some(0))])
         == Some(Resolved(CommandResult("output", "", 0)))
  {
    var events := [StdoutData("output"), StderrData(""), Close(Some(0))];
    FirstTerminalDecides(events, 2);
    var e1 := [StdoutData("output")];
    assert e1[..0] == [];
    assert StdoutOf(e1) == "output" && StderrOf(e1) == "";
    assert events[..2] == e1 + [StderrData("")];
    assert events[..2][..1] == e1;
    assert StdoutOf(events[..2]) == "output" && StderrOf(events[..2]) == "";
  }

  /** A child that prints "error" on stderr and exits 1 rejects with a CommandError carrying that stderr. */
  lemma FailingChild()
    ensures OutcomeOf([StderrData("error"), Close(Some(1))])
         == Some(Rejected(Command(CommandError("Process failed", "", "error", 1))))
  {
    var events := [StderrData("error"), Close(Some(1))];
    FirstTerminalDecides(events, 1);
    var e1 := [StderrData("error")];
    assert events[..1] == e1;
    assert e1[..0] == [];
    assert StdoutOf(e1) == "" && StderrOf(e1) == "error";
  }

  // ---------------------------------------------------------------------------------------------
  // handleCommandError

  /** What `handleCommandError` does: the error lines it logs, and the value it throws. */
  datatype Diagnosis = Diagnosis(calls: seq<Call>, rethrown: Thrown)

  /**
   * `handleCommandError(err, log, context)`: for a CommandError, "[context] Failed with code N",
   * then a STDOUT line iff stdout is non-empty, then a STDERR line iff stderr is non-empty; for
   * any other error one "Unexpected error" line. Every line is an error, and the same value is
   * thrown again: the function never returns normally.
   */
  function HandleCommandError(err: Thrown, context: string): (d: Diagnosis)
    ensures d.rethrown == err
    ensures forall i :: 0 <= i < |d.calls| ==> d.calls[i].level == ERROR
    ensures err.Plain? ==> d.calls == [Call(ERROR, "[" + context + "] Unexpected error: " + err.message)]
    ensures err.Command? ==>
      |d.calls| == 1 + (if err.error.stdout != "" then 1 else 0) + (if err.error.stderr != "" then 1 else 0)
      && d.calls[0].message == "[" + context + "] Failed with code " + IntToString(err.error.code)
      && (err.error.stdout != "" ==> d.calls[1].message == "STDOUT: " + err.error.stdout)
      && (err.error.stderr != "" ==> d.calls[|d.calls| - 1].message == "STDERR: " + err.error.stderr)
  {
    match err
    case Command(e) =>
      var head := [Call(ERROR, "[" + context + "] Failed with code " + IntToString(e.code))];
      var out := if e.stdout != "" then [Call(ERROR, "STDOUT: " + e.stdout)] else [];
      var errLine := if e.stderr != "" then [Call(ERROR, "STDERR: " + e.stderr)] else [];
      Diagnosis(head + out + errLine, err)
    case Plain(message) =>
      Diagnosis([Call(ERROR, "[" + context + "] Unexpected error: " + message)], err)
  }

  /** A child killed by a signal (`close` with a null code) is diagnosed as "Failed with code 1". */
  lemma NullExitDiagnosed(p: seq<Event>, q: seq<Event>, context: string)
    requires forall j :: 0 <= j < |p| ==> !Terminal(p[j])
    ensures var outcome := OutcomeOf(p + [Close(None)] + q);
      outcome.Some? && outcome.value.Rejected?
      && HandleCommandError(outcome.value.error, context).calls[0] == Call(ERROR, "[" + context + "] Failed with code 1")
  {
    NonZeroExitRejects(p, None, q);
    assert IntToString(1) == "1";
  }

  /** Every diagnostic line is an error, so each one is printed whatever the logger's level, on console.error. */
  lemma DiagnosisAlwaysPrinted(log: Log, timestamps: seq<string>, err: Thrown, context: string)
    requires |timestamps| == |HandleCommandError(err, context).calls|
    ensures var calls := HandleCommandError(err, context).calls;
      |log.Render(timestamps, calls)| == |calls|
      && forall k :: 0 <= k < |calls| ==> log.Render(timestamps, calls)[k] == Line(ConsoleError, Format(timestamps[k], "ERROR", calls[k].message))
  {
    AllErrorsRendered(log, timestamps, HandleCommandError(err, context).calls);
  }

  /** A sequence of error calls prints one console.error line per call at any level. */
  lemma AllErrorsRendered(log: Log, timestamps: seq<string>, calls: seq<Call>)
    requires |timestamps| == |calls|
    requires forall i :: 0 <= i < |calls| ==> calls[i].level == ERROR
    ensures |log.Render(timestamps, calls)| == |calls|
    ensures forall k :: 0 <= k < |calls| ==> log.Render(timestamps, calls)[k] == Line(ConsoleError, Format(timestamps[k], "ERROR", calls[k].message))
  {
    RenderAllShown(log, timestamps, calls);
    forall k | 0 <= k < |calls|
      ensures log.Render(timestamps, calls)[k] == Line(ConsoleError, Format(timestamps[k], "ERROR", calls[k].message))
    {
      ErrorAlwaysEmitted(log, timestamps[k], calls[k].message);
    }
  }

  // ---------------------------------------------------------------------------------------------
  // The environment callers run commands in

  /** One `executeCommand(cmd, args, { log })` call as a caller makes it. */
  datatype Invocation = Invocation(cmd: string, args: seq<string>, mirror: bool)

  /**
   * The environment: the working directory, `os.cpus().length` (MAX_CONCURRENCY), and for each
   * invocation the settlement its child's events lead to.
   */
  datatype Host = Host(cwd: string, cpus: nat, run: Invocation -> Settlement)

  /** `join(process.cwd(), libPath, tool)`; path.join turns "./lib" into "lib". */
  function ToolPath(host: Host, tool: string): string {
    Join(Join(host.cwd, "lib"), tool)
  }
}
