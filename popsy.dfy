/**
 * src/popsy.ts: the older entry point's orchestrator. It logs the parameters, runs the parsimony
 * stage of src/parsimony.ts in the timestamp folder's `parsimony` sub-folder, and either logs
 * where the results are and how long the run took, or diagnoses the stage's error and throws it
 * again.
 *
 * The clock is a parameter: the date the folder is named after, and the elapsed milliseconds.
 */
module Popsy {
  import opened Wrappers
  import opened Builtins
  import opened Constants
  import opened Logging
  import opened Commands
  import opened Effects
  import opened PipelineParsimony
  import Parsimony
  import Args
  import Options
  import Utils
  import UtilsTime

  const RunningLine := "Running Popsy with arguments:"
  const LoggerLine := "DEBUG: Logger working"
  const MaxConcurrencyTag := "Max concurrency: "
  const ConcurrencyTag := "Concurrency: "

  function MsaLine(msa: string): string {
    "MSA file: " + msa
  }

  function IterationsLine(n: Num): string {
    "Iterations: " + NumToString(n)
  }

  /** The one concurrency line: the CPU count when `maxConcurrency` is truthy, else the configured concurrency. */
  function ConcurrencyLine(args: Args.Settings, cpus: nat): string {
    if Parsimony.Truthy(args.maxConcurrency) then MaxConcurrencyTag + "true (" + NatToString(cpus) + ")"
    else ConcurrencyTag + NumToString(args.concurrency)
  }

  predicate IsConcurrencyLine(message: string) {
    StartsWith(message, MaxConcurrencyTag) || StartsWith(message, ConcurrencyTag)
  }

  /** The five lines logged before the stage. */
  function Header(args: Args.Settings, cpus: nat): seq<Step> {
    [ Logged(Call(INFO, RunningLine)),
      Logged(Call(INFO, MsaLine(args.msa))),
      Logged(Call(INFO, IterationsLine(args.parsimonyIterations))),
      Logged(Call(INFO, ConcurrencyLine(args, cpus))),
      Logged(Call(DEBUG, LoggerLine)) ]
  }

  /** `${relativeTimestampFolderPath}/parsimony` */
  function ParsimonyFolder(rel: string): string {
    rel + "/parsimony"
  }

  function ResultsLine(rel: string): string {
    "All results written to: " + rel
  }

  /** The closing line, with the run's duration as `formatDuration` prints it. */
  function DurationLine(duration: string): string {
    "Pipeline completed in " + duration
  }

  /** Calls on the logger as steps of the trace. */
  function LoggedAll(calls: seq<Call>): (t: seq<Step>)
    ensures |t| == |calls| && forall k :: 0 <= k < |calls| ==> t[k] == Logged(calls[k])
  {
    seq(|calls|, k requires 0 <= k < |calls| => Logged(calls[k]))
  }

  /** The outcome (the error thrown, if any) and the trace of `execute()`. */
  datatype Execution = Execution(outcome: Option<Thrown>, trace: seq<Step>)

  /** The parsimony stage as `execute()` runs it, in the sub-folder of the run's folder `rel`. */
  function StageOf(host: Host, args: Args.Settings, rel: string, schedule: seq<nat>): Parsimony.Stage {
    Parsimony.Analysis(host, args, Some(ParsimonyFolder(rel)), schedule)
  }

  /** What follows the stage: the diagnosis of its error, or the results folder and the duration. */
  function Closing(stage: Parsimony.Stage, rel: string, duration: string): seq<Step> {
    if stage.outcome.Failure? then LoggedAll(HandleCommandError(stage.outcome.error, "Parsimony").calls)
    else [Logged(Call(INFO, ResultsLine(rel))), Logged(Call(INFO, DurationLine(duration)))]
  }

  /** `execute()` around a stage that ended in `stage`, for the run's folder `rel`. */
  function Pipeline(args: Args.Settings, cpus: nat, rel: string, stage: Parsimony.Stage, duration: string): Execution {
    var outcome := if stage.outcome.Failure? then Some(HandleCommandError(stage.outcome.error, "Parsimony").rethrown) else None;
    Execution(outcome, Header(args, cpus) + stage.trace + Closing(stage, rel, duration))
  }

  /** Every line a trace logs begins with one of `chars`. */
  predicate LinesBeginWith(trace: seq<Step>, chars: set<char>) {
    forall e :: e in trace && e.Logged? ==> |e.call.message| > 0 && e.call.message[0] in chars
  }

  // ---------------------------------------------------------------------------------------------
  // Properties

  /** Text appended after the first split point stays after it. */
  lemma SplitAppended(root: string, rest: string, t: string)
    requires '/' !in root
    ensures SplitFirst(root + ['/'] + rest + t, '/') == Some((root, rest + t))
  {
    assert root + ['/'] + rest + t == root + ['/'] + (rest + t);
    SplitFirstAt(root, '/', rest + t);
  }

  /** A folder path whose first '/' follows `root` keeps that split point in its `parsimony` sub-folder. */
  lemma SubFolderSplit(rel: string, root: string, rest: string)
    requires SplitFirst(rel, '/') == Some((root, rest))
    ensures ParsimonyFolder(rel) == Join(rel, "parsimony")
    ensures SplitFirst(ParsimonyFolder(rel), '/') == Some((root, rest + "/parsimony"))
  {
    assert rel == root + ['/'] + rest;
    SplitAppended(root, rest, "/parsimony");
    FolderIsJoin(rel);
  }

  /** `${rel}/parsimony` is `join(rel, "parsimony")` for a non-empty `rel`. */
  lemma FolderIsJoin(rel: string)
    requires rel != ""
    ensures ParsimonyFolder(rel) == Join(rel, "parsimony")
  {
    assert "/parsimony" == "/" + "parsimony";
  }

  /** The stage runs in `<results>/<timestamp>/parsimony`, the `parsimony` sub-folder of the run's folder. */
  lemma StageFolder(d: UtilsTime.DateFields)
    ensures ParsimonyFolder(Utils.CreateTimestampFolder(d)) == Join(Utils.CreateTimestampFolder(d), "parsimony")
    ensures SplitFirst(ParsimonyFolder(Utils.CreateTimestampFolder(d)), '/') == Some((RESULTS_PATH, UtilsTime.GetTimestamp(d) + "/parsimony"))
  {
    SubFolderSplit(Utils.CreateTimestampFolder(d), RESULTS_PATH, UtilsTime.GetTimestamp(d));
  }

  /** A trace made of three sections holds each one at its place. */
  lemma Sections(h: seq<Step>, r: seq<Step>, c: seq<Step>)
    ensures var t := h + r + c;
      |t| == |h| + |r| + |c| && t[..|h|] == h && t[|h|..|h| + |r|] == r && t[|h| + |r|..] == c
  {
    var t := h + r + c;
    assert t[..|h| + |r|] == h + r;
    assert (h + r)[|h|..] == r;
  }

  /** The five parameter lines come first, and the stage's steps follow them unchanged. */
  lemma ParametersFirst(args: Args.Settings, cpus: nat, rel: string, stage: Parsimony.Stage, duration: string)
    ensures var t := Pipeline(args, cpus, rel, stage, duration).trace;
      |t| >= 5 + |stage.trace| && t[..5] == Header(args, cpus) && t[5..5 + |stage.trace|] == stage.trace
      && forall k :: 0 <= k < 5 ==> t[k].Logged?
  {
    Sections(Header(args, cpus), stage.trace, Closing(stage, rel, duration));
    HeaderLogged(args, cpus);
    PrefixLogged(Pipeline(args, cpus, rel, stage, duration).trace, Header(args, cpus));
  }

  /** Every header step is a logger call. */
  lemma HeaderLogged(args: Args.Settings, cpus: nat)
    ensures |Header(args, cpus)| == 5 && forall k :: 0 <= k < 5 ==> Header(args, cpus)[k].Logged?
  {
  }

  /** A trace that starts with logger calls has them at the same indices. */
  lemma PrefixLogged(t: seq<Step>, h: seq<Step>)
    requires |h| <= |t| && t[..|h|] == h && forall k :: 0 <= k < |h| ==> h[k].Logged?
    ensures forall k :: 0 <= k < |h| ==> t[k].Logged?
  {
    forall k | 0 <= k < |h|
      ensures t[k].Logged?
    {
      assert t[k] == t[..|h|][k];
    }
  }

  /** A string that differs from `p` at a position both have does not start with `p`. */
  lemma DiffersAt(s: string, p: string, i: nat)
    requires i < |s| && i < |p| && s[i] != p[i]
    ensures !StartsWith(s, p)
  {
  }

  /** The concurrency line starts with the max tag iff `maxConcurrency` is truthy, and with 'M' or 'C'. */
  lemma ConcurrencyLineForm(args: Args.Settings, cpus: nat)
    ensures IsConcurrencyLine(ConcurrencyLine(args, cpus))
    ensures StartsWith(ConcurrencyLine(args, cpus), MaxConcurrencyTag) <==> Parsimony.Truthy(args.maxConcurrency)
    ensures ConcurrencyLine(args, cpus)[0] == (if Parsimony.Truthy(args.maxConcurrency) then 'M' else 'C')
  {
    var line := ConcurrencyLine(args, cpus);
    if Parsimony.Truthy(args.maxConcurrency) {
      assert line == MaxConcurrencyTag + ("true (" + NatToString(cpus) + ")");
      assert line[..|MaxConcurrencyTag|] == MaxConcurrencyTag;
    } else {
      assert line == ConcurrencyTag + NumToString(args.concurrency);
      assert line[..|ConcurrencyTag|] == ConcurrencyTag;
      DiffersAt(line, MaxConcurrencyTag, 0);
    }
  }

  /** The header's lines begin with 'R', 'M', 'I', 'M' or 'C', and 'D'. */
  lemma HeaderChars(args: Args.Settings, cpus: nat)
    ensures LinesBeginWith(Header(args, cpus), {'R', 'M', 'I', 'C', 'D'})
  {
    ConcurrencyLineForm(args, cpus);
    assert MsaLine(args.msa)[0] == 'M' && IterationsLine(args.parsimonyIterations)[0] == 'I';
  }

  /** Of the header's five lines only the fourth is a concurrency line. */
  lemma HeaderConcurrency(args: Args.Settings, cpus: nat)
    ensures forall m :: 0 <= m < 5 ==> (IsConcurrencyLine(Header(args, cpus)[m].call.message) <==> m == 3)
  {
    DiffersAt(RunningLine, MaxConcurrencyTag, 0);
    DiffersAt(RunningLine, ConcurrencyTag, 0);
    DiffersAt(MsaLine(args.msa), MaxConcurrencyTag, 1);
    DiffersAt(MsaLine(args.msa), ConcurrencyTag, 0);
    DiffersAt(IterationsLine(args.parsimonyIterations), MaxConcurrencyTag, 0);
    DiffersAt(IterationsLine(args.parsimonyIterations), ConcurrencyTag, 0);
    DiffersAt(LoggerLine, MaxConcurrencyTag, 0);
    DiffersAt(LoggerLine, ConcurrencyTag, 0);
    ConcurrencyLineForm(args, cpus);
  }

  /** No line beginning with anything but 'M' or 'C' is a concurrency line. */
  lemma NoConcurrencyLine(trace: seq<Step>, chars: set<char>)
    requires LinesBeginWith(trace, chars) && 'M' !in chars && 'C' !in chars
    ensures forall e :: e in trace && e.Logged? ==> !IsConcurrencyLine(e.call.message)
  {
    forall e | e in trace && e.Logged?
      ensures !IsConcurrencyLine(e.call.message)
    {
      DiffersAt(e.call.message, MaxConcurrencyTag, 0);
      DiffersAt(e.call.message, ConcurrencyTag, 0);
    }
  }

  /** A trace whose lines begin with none of 'A' and 'P' logs neither summary line. */
  lemma NoSummaryLine(trace: seq<Step>, chars: set<char>, rel: string, duration: string)
    requires LinesBeginWith(trace, chars) && 'A' !in chars && 'P' !in chars
    ensures forall e :: e in trace && e.Logged? ==> e.call.message != ResultsLine(rel) && e.call.message != DurationLine(duration)
  {
    assert ResultsLine(rel)[0] == 'A' && DurationLine(duration)[0] == 'P';
  }

  /** Lines of two traces joined begin with a character of either set. */
  lemma LinesBeginAppend(a: seq<Step>, b: seq<Step>, ca: set<char>, cb: set<char>)
    requires LinesBeginWith(a, ca) && LinesBeginWith(b, cb)
    ensures LinesBeginWith(a + b, ca + cb)
  {
  }

  /** After the header's five lines, a trace with no concurrency line adds none: the fourth is the only one. */
  lemma OnlyFourth(args: Args.Settings, cpus: nat, rest: seq<Step>)
    requires forall e :: e in rest && e.Logged? ==> !IsConcurrencyLine(e.call.message)
    ensures var t := Header(args, cpus) + rest;
      forall m :: 0 <= m < |t| && t[m].Logged? && IsConcurrencyLine(t[m].call.message) ==> m == 3
  {
    HeaderConcurrency(args, cpus);
    var t := Header(args, cpus) + rest;
    forall m | 5 <= m < |t|
      ensures t[m] in rest
    {
      assert t[m] == rest[m - 5];
    }
  }

  /** The whole trace is the header, then the stage's steps with the closing lines after them. */
  lemma PipelineTrace(args: Args.Settings, cpus: nat, rel: string, stage: Parsimony.Stage, duration: string)
    ensures Pipeline(args, cpus, rel, stage, duration).trace == Header(args, cpus) + (stage.trace + Closing(stage, rel, duration))
  {
  }

  /** After the header every line begins with '[', 'S', 'A' or 'P', and none after a failure with 'A' or 'P'. */
  lemma AfterHeaderChars(stage: Parsimony.Stage, rel: string, duration: string)
    requires LinesBeginWith(stage.trace, {'['})
    ensures LinesBeginWith(stage.trace + Closing(stage, rel, duration), {'[', 'S', 'A', 'P'})
    ensures stage.outcome.Failure? ==> LinesBeginWith(stage.trace + Closing(stage, rel, duration), {'[', 'S'})
  {
    ClosingLines(stage, rel, duration);
    var chars := if stage.outcome.Failure? then {'[', 'S'} else {'A', 'P'};
    LinesBeginAppend(stage.trace, Closing(stage, rel, duration), {'['}, chars);
    assert {'['} + chars <= {'[', 'S', 'A', 'P'};
  }

  /** No step after the header logs a concurrency line. */
  lemma NoConcurrencyAfterHeader(stage: Parsimony.Stage, rel: string, duration: string)
    requires LinesBeginWith(stage.trace, {'['})
    ensures forall e :: e in stage.trace + Closing(stage, rel, duration) && e.Logged? ==> !IsConcurrencyLine(e.call.message)
  {
    AfterHeaderChars(stage, rel, duration);
    NoConcurrencyLine(stage.trace + Closing(stage, rel, duration), {'[', 'S', 'A', 'P'});
  }

  /** After a failure every line of the whole trace begins with 'R', 'M', 'I', 'C', 'D', '[' or 'S'. */
  lemma FailedTraceChars(args: Args.Settings, cpus: nat, rel: string, stage: Parsimony.Stage, duration: string)
    requires stage.outcome.Failure? && LinesBeginWith(stage.trace, {'['})
    ensures LinesBeginWith(Header(args, cpus) + (stage.trace + Closing(stage, rel, duration)), {'R', 'M', 'I', 'C', 'D', '[', 'S'})
  {
    AfterHeaderChars(stage, rel, duration);
    HeaderChars(args, cpus);
    LinesBeginAppend(Header(args, cpus), stage.trace + Closing(stage, rel, duration), {'R', 'M', 'I', 'C', 'D'}, {'[', 'S'});
    assert {'R', 'M', 'I', 'C', 'D'} + {'[', 'S'} == {'R', 'M', 'I', 'C', 'D', '[', 'S'};
  }

  /** The stage's lines all begin with '[', the first character of its tag. */
  lemma StageLines(host: Host, args: Args.Settings, rel: string, schedule: seq<nat>)
    ensures LinesBeginWith(StageOf(host, args, rel, schedule).trace, {'['})
  {
    var t := StageOf(host, args, rel, schedule).trace;
    Parsimony.StageLinesTagged(host, args, Some(ParsimonyFolder(rel)), schedule);
    assert StageTag[0] == '[';
    forall e | e in t && e.Logged?
      ensures |e.call.message| > 0 && e.call.message[0] == '['
    {
      assert e.call.message[0] == e.call.message[..|StageTag|][0];
    }
  }

  /** A diagnosis line begins with '[' ("[Parsimony] ...") or 'S' ("STDOUT: ", "STDERR: "). */
  lemma DiagnosisLines(err: Thrown, context: string)
    ensures forall c :: c in HandleCommandError(err, context).calls ==> |c.message| > 0 && c.message[0] in {'[', 'S'}
  {
  }

  /** Calls whose messages begin with one of `chars` become logged steps that do too. */
  lemma LoggedAllLines(calls: seq<Call>, chars: set<char>)
    requires forall c :: c in calls ==> |c.message| > 0 && c.message[0] in chars
    ensures LinesBeginWith(LoggedAll(calls), chars)
  {
    forall e | e in LoggedAll(calls) && e.Logged?
      ensures |e.call.message| > 0 && e.call.message[0] in chars
    {
      var k :| 0 <= k < |calls| && e == LoggedAll(calls)[k];
      assert calls[k] in calls;
    }
  }

  /** The two summary lines begin with 'A' and 'P'. */
  lemma SummaryLines(rel: string, duration: string)
    ensures LinesBeginWith([Logged(Call(INFO, ResultsLine(rel))), Logged(Call(INFO, DurationLine(duration)))], {'A', 'P'})
  {
    assert ResultsLine(rel)[0] == 'A' && DurationLine(duration)[0] == 'P';
  }

  /** The closing lines: a diagnosis after a failure, the summary beginning with 'A' and 'P' after a success. */
  lemma ClosingLines(stage: Parsimony.Stage, rel: string, duration: string)
    ensures stage.outcome.Failure? ==> LinesBeginWith(Closing(stage, rel, duration), {'[', 'S'})
    ensures stage.outcome.Success? ==> LinesBeginWith(Closing(stage, rel, duration), {'A', 'P'})
  {
    if stage.outcome.Failure? {
      DiagnosisLines(stage.outcome.error, "Parsimony");
      LoggedAllLines(HandleCommandError(stage.outcome.error, "Parsimony").calls, {'[', 'S'});
    } else {
      SummaryLines(rel, duration);
    }
  }

  /** The fourth step logs the concurrency line. */
  lemma FourthIsConcurrency(args: Args.Settings, cpus: nat, rel: string, stage: Parsimony.Stage, duration: string)
    ensures var t := Pipeline(args, cpus, rel, stage, duration).trace;
      |t| > 3 && t[3] == Logged(Call(INFO, ConcurrencyLine(args, cpus))) && IsConcurrencyLine(t[3].call.message)
  {
    PipelineTrace(args, cpus, rel, stage, duration);
    ConcurrencyLineForm(args, cpus);
  }

  /**
   * No other step logs a concurrency line, so exactly one is logged; with `ConcurrencyLineForm`,
   * it is the max form iff `maxConcurrency` is truthy.
   */
  lemma OneConcurrencyLine(args: Args.Settings, cpus: nat, rel: string, stage: Parsimony.Stage, duration: string)
    requires LinesBeginWith(stage.trace, {'['})
    ensures var t := Pipeline(args, cpus, rel, stage, duration).trace;
      forall m :: 0 <= m < |t| && t[m].Logged? && IsConcurrencyLine(t[m].call.message) ==> m == 3
  {
    PipelineTrace(args, cpus, rel, stage, duration);
    NoConcurrencyAfterHeader(stage, rel, duration);
    OnlyFourth(args, cpus, stage.trace + Closing(stage, rel, duration));
  }

  /** When the stage fails, its error is diagnosed and thrown again. */
  lemma FailureRethrown(args: Args.Settings, cpus: nat, rel: string, stage: Parsimony.Stage, duration: string)
    requires stage.outcome.Failure?
    ensures var x := Pipeline(args, cpus, rel, stage, duration);
      x.outcome == Some(stage.outcome.error)
      && x.trace == Header(args, cpus) + stage.trace + LoggedAll(HandleCommandError(stage.outcome.error, "Parsimony").calls)
  {
  }

  /** When the stage fails, neither closing summary line is logged. */
  lemma NoSummaryAfterFailure(args: Args.Settings, cpus: nat, rel: string, stage: Parsimony.Stage, duration: string)
    requires stage.outcome.Failure? && LinesBeginWith(stage.trace, {'['})
    ensures var t := Pipeline(args, cpus, rel, stage, duration).trace;
      forall e :: e in t && e.Logged? ==> e.call.message != ResultsLine(rel) && e.call.message != DurationLine(duration)
  {
    PipelineTrace(args, cpus, rel, stage, duration);
    FailedTraceChars(args, cpus, rel, stage, duration);
    NoSummaryLine(Header(args, cpus) + (stage.trace + Closing(stage, rel, duration)), {'R', 'M', 'I', 'C', 'D', '[', 'S'}, rel, duration);
  }

  /** When the stage succeeds, nothing is thrown and the last two lines are the results folder, then the duration. */
  lemma SuccessEndsWithSummary(args: Args.Settings, cpus: nat, rel: string, stage: Parsimony.Stage, duration: string)
    requires stage.outcome.Success?
    ensures var x := Pipeline(args, cpus, rel, stage, duration);
      x.outcome.None? && |x.trace| >= 2
      && x.trace[|x.trace| - 2] == Logged(Call(INFO, ResultsLine(rel)))
      && x.trace[|x.trace| - 1] == Logged(Call(INFO, DurationLine(duration)))
  {
    Sections(Header(args, cpus), stage.trace, Closing(stage, rel, duration));
    var t := Pipeline(args, cpus, rel, stage, duration).trace;
    assert t[|t| - 2..] == Closing(stage, rel, duration);
  }

  // ---------------------------------------------------------------------------------------------
  // The class

  /** `Popsy` with its logger and its arguments. */
  class Popsy {
    const log: Log
    const args: Args.Settings

    constructor (log: Log, args: Args.Settings)
      ensures this.log == log && this.args == args
    {
      this.log := log;
      this.args := args;
    }

    /**
     * `new Popsy(log, args)`: the default logger when none is given, and, when no arguments are
     * given, an `Args` built from the command line, which may exit the process instead.
     */
    static method Create(log: Option<Log>, args: Option<Args.Settings>, cli: Options.CliOptions)
      returns (popsy: Result<Popsy, int>, calls: seq<Call>)
      ensures log.None? ==> popsy.Success? ==> popsy.value.log == DefaultLog
      ensures log.Some? ==> popsy.Success? ==> popsy.value.log == log.value
      ensures args.Some? ==> popsy.Success? && popsy.value.args == args.value && calls == []
      ensures args.None? ==> (calls == Args.Construct(None, cli).calls
        && (popsy.Failure? <==> Args.Construct(None, cli).outcome.Failure?)
        && (popsy.Failure? ==> Args.Construct(None, cli).outcome == Failure(popsy.error))
        && (popsy.Success? ==> Args.Construct(None, cli).outcome == Success(popsy.value.args)))
    {
      var logger := log.GetOr(DefaultLog);
      if args.Some? {
        var p := new Popsy(logger, args.value);
        return Success(p), [];
      }
      var built;
      built, calls := Args.Args.Create(None, cli);
      if built.Failure? {
        return Failure(built.error), calls;
      }
      var p := new Popsy(logger, built.value.Snapshot());
      popsy := Success(p);
    }

    /** `execute()`: the header, the parsimony stage, then the summary or the diagnosis. */
    method Execute(host: Host, d: UtilsTime.DateFields, elapsed: nat, schedule: seq<nat>)
      returns (outcome: Option<Thrown>, trace: seq<Step>)
      requires ArrayLength(args.parsimonyIterations).Some? ==> IsSchedule(schedule, ArrayLength(args.parsimonyIterations).value)
      ensures var rel := Utils.CreateTimestampFolder(d);
        Execution(outcome, trace) == Pipeline(args, host.cpus, rel, StageOf(host, args, rel, schedule), UtilsTime.FormatDuration(elapsed))
    {
      var rel := Utils.CreateTimestampFolder(d);
      trace := Header(args, host.cpus);
      var parsimony := new Parsimony.ParsimonyAnalysis(args);
      var result, steps := parsimony.ExecuteParsimonyAnalysis(host, Some(ParsimonyFolder(rel)), schedule);
      trace := trace + steps;
      if result.Failure? {
        var diagnosis := HandleCommandError(result.error, "Parsimony");
        return Some(diagnosis.rethrown), trace + LoggedAll(diagnosis.calls);
      }
      trace := trace + [Logged(Call(INFO, ResultsLine(rel))), Logged(Call(INFO, DurationLine(UtilsTime.FormatDuration(elapsed))))];
      outcome := None;
    }
  }
}
