/**
 * src/parsimony.ts: the older entry point's MPBoot batch. The jobs and their records are those
 * of the pipeline batch; afterwards a single shell command `mv iteration* <folderPath>` moves
 * the outputs, and its rejection propagates to the caller.
 */
module Parsimony {
  import opened Wrappers
  import opened Builtins
  import opened Constants
  import opened Logging
  import opened Commands
  import opened Effects
  import opened PipelineParsimony
  import Args
  import Options

  /** `if (this.args.maxConcurrency)`: only a present `true` is truthy. */
  predicate Truthy(b: Option<bool>) {
    b == Some(true)
  }

  /** `${folderPath}` of an optional parameter: an absent one prints as "undefined". */
  function FolderText(folderPath: Option<string>): string {
    match folderPath
    case Some(p) => p
    case None => "undefined"
  }

  /** `executeCommand(`mv iteration* ${folderPath}`)`: no arguments, and `log` defaults to true. */
  function MoveCommand(folderPath: Option<string>): Invocation {
    Invocation("mv iteration* " + FolderText(folderPath), [], true)
  }

  /** The job every iteration runs, for these arguments. */
  function JobFor(host: Host, args: Args.Settings): Job {
    Job(ToolPath(host, MPBOOT_PATH), args.msa, args.logLevel == DEBUG)
  }

  /** The outcome and the trace of one run of the stage. */
  datatype Stage = Stage(outcome: Result<seq<ParsimonyResult>, Thrown>, trace: seq<Step>)

  /** `executeParsimonyAnalysis(folderPath)` as a whole. */
  function Analysis(host: Host, args: Args.Settings, folderPath: Option<string>, schedule: seq<nat>): Stage {
    var c := EffectiveConcurrency(Truthy(args.maxConcurrency), args.concurrency, host.cpus);
    if PLimit(c).Some? then Stage(Failure(PLimit(c).value), [])
    else if ArrayLength(args.parsimonyIterations).None? then Stage(Failure(Plain(InvalidArrayLength)), [])
    else
      var b := RunBatch(host, JobFor(host, args), schedule);
      var mv := MoveCommand(folderPath);
      var moved := host.run(mv);
      if moved.Rejected? then Stage(Failure(moved.error), b.trace + [Acted(Run(mv))])
      else Stage(Success(b.records), b.trace + [Acted(Run(mv)), Logged(Call(INFO, CompleteLine))])
  }

  /**
   * The stage fails only when p-limit refuses the concurrency or the Array constructor the
   * iteration count, both before anything happens, or when the move is rejected: a failing job
   * never makes it fail.
   */
  lemma JobFailuresContained(host: Host, args: Args.Settings, folderPath: Option<string>, schedule: seq<nat>)
    ensures var c := EffectiveConcurrency(Truthy(args.maxConcurrency), args.concurrency, host.cpus);
      Analysis(host, args, folderPath, schedule).outcome.Failure? <==>
        PLimit(c).Some? || ArrayLength(args.parsimonyIterations).None? || host.run(MoveCommand(folderPath)).Rejected?
    ensures PLimit(EffectiveConcurrency(Truthy(args.maxConcurrency), args.concurrency, host.cpus)).Some? ==>
      Analysis(host, args, folderPath, schedule) == Stage(Failure(Plain(PLimitMessage)), [])
    ensures var c := EffectiveConcurrency(Truthy(args.maxConcurrency), args.concurrency, host.cpus);
      PLimit(c).None? && ArrayLength(args.parsimonyIterations).None? ==>
        Analysis(host, args, folderPath, schedule) == Stage(Failure(Plain(InvalidArrayLength)), [])
  {
  }

  /**
   * Over a schedule of all the iterations, a successful stage returns one record per job, and
   * job j failed iff a failure record numbered j + 1 is among them.
   */
  lemma OneRecordPerJob(host: Host, args: Args.Settings, folderPath: Option<string>, schedule: seq<nat>, j: nat)
    requires ArrayLength(args.parsimonyIterations).Some? ==> IsSchedule(schedule, ArrayLength(args.parsimonyIterations).value)
    requires j < |schedule|
    requires Analysis(host, args, folderPath, schedule).outcome.Success?
    ensures ArrayLength(args.parsimonyIterations).Some?
    ensures var r := Analysis(host, args, folderPath, schedule).outcome.value;
      |r| == ArrayLength(args.parsimonyIterations).value
      && (host.run(JobInvocation(JobFor(host, args), j)).Rejected? <==>
            exists k :: 0 <= k < |r| && r[k].Failed? && r[k].job == j + 1)
  {
    BatchLengths(host, JobFor(host, args), schedule);
    FailedIffRecorded(host, JobFor(host, args), schedule, |schedule|, j);
  }

  /**
   * Once p-limit accepts and the job list is made, every job runs MPBoot with its own prefix, mirrored iff the level is
   * DEBUG, and the move is the step right after the last job.
   */
  lemma MoveAfterJobs(host: Host, args: Args.Settings, folderPath: Option<string>, schedule: seq<nat>)
    requires PLimit(EffectiveConcurrency(Truthy(args.maxConcurrency), args.concurrency, host.cpus)).None?
    requires ArrayLength(args.parsimonyIterations).Some?
    ensures var t := Analysis(host, args, folderPath, schedule).trace;
      |t| > 3 * |schedule| && t[3 * |schedule|] == Acted(Run(MoveCommand(folderPath)))
      && forall k :: 0 <= k < |schedule| ==>
        t[3 * k + 1] == Acted(Run(Invocation(ToolPath(host, MPBOOT_PATH), JobArgs(args.msa, schedule[k]), args.logLevel == DEBUG)))
  {
    var job := JobFor(host, args);
    BatchLengths(host, job, schedule);
    var t := Analysis(host, args, folderPath, schedule).trace;
    var b := RunBatch(host, job, schedule).trace;
    assert t[..|b|] == b;
    forall k | 0 <= k < |schedule|
      ensures t[3 * k + 1] == Acted(Run(Invocation(ToolPath(host, MPBOOT_PATH), JobArgs(args.msa, schedule[k]), args.logLevel == DEBUG)))
    {
      StepsAt(host, job, schedule, k);
      assert t[3 * k + 1] == b[3 * k..3 * k + 3][1];
    }
  }

  /** A rejected move is the stage's error, and "All jobs complete." is not logged. */
  lemma MoveFailurePropagates(host: Host, args: Args.Settings, folderPath: Option<string>, schedule: seq<nat>)
    requires PLimit(EffectiveConcurrency(Truthy(args.maxConcurrency), args.concurrency, host.cpus)).None?
    requires ArrayLength(args.parsimonyIterations).Some?
    requires host.run(MoveCommand(folderPath)).Rejected?
    ensures var s := Analysis(host, args, folderPath, schedule);
      s.outcome == Failure(host.run(MoveCommand(folderPath)).error) && Logged(Call(INFO, CompleteLine)) !in s.trace
  {
    BatchStepsAreJobs(host, JobFor(host, args), schedule);
    CompleteLineIsNoJobLine();
    var b := RunBatch(host, JobFor(host, args), schedule).trace;
    assert Analysis(host, args, folderPath, schedule).trace == b + [Acted(Run(MoveCommand(folderPath)))];
    assert Logged(Call(INFO, CompleteLine)) !in b;
  }

  /** A successful stage ends with the move and then "All jobs complete.", after every job's steps. */
  lemma CompletionLoggedLast(host: Host, args: Args.Settings, folderPath: Option<string>, schedule: seq<nat>)
    requires Analysis(host, args, folderPath, schedule).outcome.Success?
    ensures var t := Analysis(host, args, folderPath, schedule).trace;
      |t| == 3 * |schedule| + 2 && t[|t| - 2] == Acted(Run(MoveCommand(folderPath)))
      && t[|t| - 1] == Logged(Call(INFO, CompleteLine))
  {
    BatchLengths(host, JobFor(host, args), schedule);
  }

  /** Every line the stage logs carries the "[Parsimony] " tag. */
  lemma StageLinesTagged(host: Host, args: Args.Settings, folderPath: Option<string>, schedule: seq<nat>)
    ensures forall e :: e in Analysis(host, args, folderPath, schedule).trace && e.Logged? ==> StartsWith(e.call.message, StageTag)
  {
    BatchStepsAreJobs(host, JobFor(host, args), schedule);
    assert StartsWith(CompleteLine, StageTag);
  }

  // ---------------------------------------------------------------------------------------------
  // The two cases of tests/parsimony.test.ts

  /** The test's arguments: two iterations at concurrency 1, DEBUG, taken verbatim. */
  function TestArgs(cli: Options.CliOptions): Args.Settings {
    Args.Construct(Some(Options.ProgramOptions("test.fasta", Int(2), DEBUG, Int(1), Some(false))), cli).outcome.value
  }

  const Ok := CommandResult("ok", "", 0)

  /** Every command resolves with stdout "ok": two records, the first carrying "ok". */
  lemma RunsJobs(cwd: string, cpus: nat, cli: Options.CliOptions)
    ensures var host := Host(cwd, cpus, (i: Invocation) => Resolved(Ok));
      var s := Analysis(host, TestArgs(cli), Some(""), InOrder(2));
      s.outcome.Success? && |s.outcome.value| == 2 && s.outcome.value[0] == Completed(Ok)
  {
    var host := Host(cwd, cpus, (i: Invocation) => Resolved(Ok));
    InOrderRecords(host, JobFor(host, TestArgs(cli)), 2);
  }

  /** The first job's command rejects with a plain Error("fail"): the first record is its failure, and the batch still completes. */
  lemma HandlesFailures(cwd: string, cpus: nat, cli: Options.CliOptions)
    ensures var host := Host(cwd, cpus, (i: Invocation) => if i.args == JobArgs("test.fasta", 0) then Rejected(Plain("fail")) else Resolved(Ok));
      var s := Analysis(host, TestArgs(cli), Some(""), InOrder(2));
      s.outcome.Success? && |s.outcome.value| == 2
      && s.outcome.value[0] == Failed(Plain("fail"), 1, None, None) && s.outcome.value[1] == Completed(Ok)
  {
    var host := Host(cwd, cpus, (i: Invocation) => if i.args == JobArgs("test.fasta", 0) then Rejected(Plain("fail")) else Resolved(Ok));
    InOrderRecords(host, JobFor(host, TestArgs(cli)), 2);
    assert JobArgs("test.fasta", 1) != JobArgs("test.fasta", 0) by {
      PrefixesDistinct(0, 1);
    }
    assert MoveCommand(Some("")).args != JobArgs("test.fasta", 0);
  }

  // ---------------------------------------------------------------------------------------------
  // The class

  /** `ParsimonyAnalysis` with the arguments it was constructed with. */
  class ParsimonyAnalysis {
    const args: Args.Settings

    constructor (args: Args.Settings)
      ensures this.args == args
    {
      this.args := args;
    }

    /** `executeParsimonyAnalysis(folderPath)`: the jobs one after another in `schedule`, then the move. */
    method ExecuteParsimonyAnalysis(host: Host, folderPath: Option<string>, schedule: seq<nat>)
      returns (outcome: Result<seq<ParsimonyResult>, Thrown>, trace: seq<Step>)
      requires ArrayLength(args.parsimonyIterations).Some? ==> IsSchedule(schedule, ArrayLength(args.parsimonyIterations).value)
      ensures Stage(outcome, trace) == Analysis(host, args, folderPath, schedule)
    {
      var concurrency := EffectiveConcurrency(Truthy(args.maxConcurrency), args.concurrency, host.cpus);
      var rejected := PLimit(concurrency);
      if rejected.Some? {
        return Failure(rejected.value), [];
      }
      if ArrayLength(args.parsimonyIterations).None? {
        return Failure(Plain(InvalidArrayLength)), [];
      }
      var results;
      results, trace := RunJobs(host, JobFor(host, args), schedule);
      var mv := MoveCommand(folderPath);
      trace := trace + [Acted(Run(mv))];
      var moved := host.run(mv);
      if moved.Rejected? {
        return Failure(moved.error), trace;
      }
      trace := trace + [Logged(Call(INFO, CompleteLine))];
      outcome := Success(results);
    }
  }
}
