/**
 * src/pipeline/parsimony.ts: the MPBoot batch. One job per iteration runs the tool with its
 * own `-pre` prefix; each job adds exactly one record to `results`, its completion result or a
 * failure record, so a failing job never aborts the batch. After all jobs settle the tree files
 * are concatenated and the iteration files moved.
 *
 * The jobs run one after another in a `schedule`: the order in which they complete, which
 * p-limit and the child processes decide and which is therefore a parameter. Records are
 * appended in that order, as `results.push` appends them.
 */
module PipelineParsimony {
  import opened Wrappers
  import opened Builtins
  import opened Constants
  import opened Logging
  import opened Commands
  import opened Effects
  import CliArgs
  import Options

  /** `ParsimonyResult`: a job's result, or `{ error, job, stdout?, stderr? }`. */
  datatype ParsimonyResult =
    | Completed(result: CommandResult)
    | Failed(error: Thrown, job: nat, stdout: Option<string>, stderr: Option<string>)

  // ---------------------------------------------------------------------------------------------
  // The job list

  /** `iteration${i + 1}`: the output prefix of job i, counted from 0. */
  function Prefix(i: nat): string {
    "iteration" + NatToString(i + 1)
  }

  /** `["-s", msa, "-pre", iteration${i + 1}]` */
  function JobArgs(msa: string, i: nat): seq<string> {
    ["-s", msa, "-pre", Prefix(i)]
  }

  /** `Array.from({ length: n }, (_, i) => …)`: the argument vectors of all jobs. */
  function Iterations(msa: string, n: nat): seq<seq<string>> {
    seq(n, i requires 0 <= i => JobArgs(msa, i))
  }

  /** A prefix names its job: "iteration" and then the job number, 1 for the first job. */
  lemma PrefixReadsBack(i: nat)
    ensures StartsWith(Prefix(i), "iteration")
    ensures AllDigits(Prefix(i)[9..]) && DigitsValue(Prefix(i)[9..]) == i + 1
  {
    assert Prefix(i)[..9] == "iteration";
    assert Prefix(i)[9..] == NatToString(i + 1);
    DigitsValueOfNatToString(i + 1);
  }

  /** Different jobs write under different prefixes. */
  lemma PrefixesDistinct(i: nat, j: nat)
    requires i != j
    ensures Prefix(i) != Prefix(j)
  {
    PrefixReadsBack(i);
    PrefixReadsBack(j);
  }

  /** The list has one vector per iteration, each naming the alignment and its own prefix, no two alike. */
  lemma JobListShape(msa: string, n: nat)
    ensures |Iterations(msa, n)| == n
    ensures forall i :: 0 <= i < n ==>
      |Iterations(msa, n)[i]| == 4 && Iterations(msa, n)[i][1] == msa && Iterations(msa, n)[i][3] == Prefix(i)
    ensures forall i, j :: 0 <= i < j < n ==> Iterations(msa, n)[i] != Iterations(msa, n)[j]
  {
    forall i, j | 0 <= i < j < n
      ensures Iterations(msa, n)[i] != Iterations(msa, n)[j]
    {
      PrefixesDistinct(i, j);
      assert Iterations(msa, n)[i][3] != Iterations(msa, n)[j][3];
    }
  }

  // ---------------------------------------------------------------------------------------------
  // Concurrency and mirroring

  /** `maxConcurrency ? MAX_CONCURRENCY : concurrency` */
  function EffectiveConcurrency(maxConcurrency: bool, concurrency: Num, cpus: nat): (c: Num)
    ensures maxConcurrency ==> c == Int(cpus)
    ensures !maxConcurrency ==> c == concurrency
  {
    if maxConcurrency then Int(cpus) else concurrency
  }

  /**
   * On a machine with at least one CPU, validated arguments make p-limit reject exactly when
   * `maxConcurrency` is off and the concurrency is a fraction, which only programmatic options
   * can hold; arguments from the command line are always accepted.
   */
  lemma ValidatedConcurrencyAccepted(options: Option<Options.ProgramOptions>, cli: Options.CliOptions, cpus: nat)
    requires CliArgs.Construct(options, cli).outcome.Success? && cpus > 0
    ensures var s := CliArgs.Construct(options, cli).outcome.value;
      PLimit(EffectiveConcurrency(s.maxConcurrency, s.concurrency, cpus)).Some? <==> !s.maxConcurrency && s.concurrency.Frac?
    ensures var s := CliArgs.Construct(options, cli).outcome.value;
      options.None? ==> PLimit(EffectiveConcurrency(s.maxConcurrency, s.concurrency, cpus)).None?
  {
    CliArgs.CountsPositive(options, cli);
  }

  /**
   * Programmatic options with 2.5 iterations and a concurrency of 1.5 pass validation unchanged
   * and silently; p-limit then rejects the concurrency, and the job list would have two entries.
   */
  lemma FractionalOptions(cli: Options.CliOptions, cpus: nat)
    ensures var o := Options.ProgramOptions("a.fasta", Frac(false, 2, "5"), INFO, Frac(false, 1, "5"), Some(false));
      var c := CliArgs.Construct(Some(o), cli);
      && c.outcome.Success? && c.calls == []
      && c.outcome.value.parsimonyIterations == Frac(false, 2, "5") && c.outcome.value.concurrency == Frac(false, 1, "5")
      && PLimit(EffectiveConcurrency(c.outcome.value.maxConcurrency, c.outcome.value.concurrency, cpus)) == Some(Plain(PLimitMessage))
      && ArrayLength(c.outcome.value.parsimonyIterations) == Some(2)
  {
    var o := Options.ProgramOptions("a.fasta", Frac(false, 2, "5"), INFO, Frac(false, 1, "5"), Some(false));
    CliArgs.ThrowsIffMsaMissing(Some(o), cli);
    assert !Blank("a.fasta") by {
      assert !IsWhitespace("a.fasta"[0]);
    }
  }

  /** What every job runs: the tool, the alignment, and whether its output is mirrored. */
  datatype Job = Job(tool: string, msa: string, mirror: bool)

  /** `executeCommand(parsimonyPath, cmdArgs, { log: shouldLog })` for job i. */
  function JobInvocation(job: Job, i: nat): Invocation {
    Invocation(job.tool, JobArgs(job.msa, i), job.mirror)
  }

  // ---------------------------------------------------------------------------------------------
  // One job

  /** `{ error: err.error ?? err, job, stdout: err.stdout, stderr: err.stderr }`; a plain error has no buffers. */
  function FailureRecord(err: Thrown, job: nat): (r: ParsimonyResult)
    ensures r.Failed? && r.error == err && r.job == job
    ensures r.stdout.Some? <==> err.Command?
    ensures err.Command? ==> r.stdout == Some(err.error.stdout) && r.stderr == Some(err.error.stderr)
  {
    match err
    case Command(e) => Failed(err, job, Some(e.stdout), Some(e.stderr))
    case Plain(_) => Failed(err, job, None, None)
  }

  /** The record job i pushes: its result, or a failure record numbered i + 1. */
  function JobRecord(s: Settlement, i: nat): ParsimonyResult {
    match s
    case Resolved(r) => Completed(r)
    case Rejected(t) => FailureRecord(t, i + 1)
  }

  /** The stage's tag at the head of each of its lines. */
  const StageTag := "[Parsimony] "

  function StartingLine(i: nat): string {
    StageTag + "Starting job " + NatToString(i + 1)
  }

  function FinishedLine(i: nat): string {
    StageTag + "Finished job " + NatToString(i + 1)
  }

  function JobFailedLine(i: nat): string {
    StageTag + "Job " + NatToString(i + 1) + " failed"
  }

  /** The line a job logs once it settles: debug "Finished", or an error. */
  function SettledCall(s: Settlement, i: nat): Call {
    if s.Resolved? then Call(DEBUG, FinishedLine(i)) else Call(ERROR, JobFailedLine(i))
  }

  /** Job i's part of the trace: its debug "Starting" line, its command, the line once it settles. */
  function JobSteps(job: Job, s: Settlement, i: nat): seq<Step> {
    [Logged(Call(DEBUG, StartingLine(i))), Acted(Run(JobInvocation(job, i))), Logged(SettledCall(s, i))]
  }

  // ---------------------------------------------------------------------------------------------
  // The batch

  /** The records and the trace of the jobs in a schedule. */
  datatype Batch = Batch(records: seq<ParsimonyResult>, trace: seq<Step>)

  /** The jobs of `schedule`, in that order. */
  function RunBatch(host: Host, job: Job, schedule: seq<nat>): Batch {
    if schedule == [] then Batch([], [])
    else
      var b := RunBatch(host, job, schedule[..|schedule| - 1]);
      var i := schedule[|schedule| - 1];
      var s := host.run(JobInvocation(job, i));
      Batch(b.records + [JobRecord(s, i)], b.trace + JobSteps(job, s, i))
  }

  /** A completion order of n jobs: each job 0..n-1 exactly once. */
  predicate IsSchedule(schedule: seq<nat>, n: nat) {
    && |schedule| == n
    && (forall k :: 0 <= k < n ==> schedule[k] < n)
    && (forall j :: 0 <= j < n ==> j in schedule)
    && (forall k, l :: 0 <= k < l < n ==> schedule[k] != schedule[l])
  }

  /** The jobs in their own order, as a concurrency of 1 runs them. */
  function InOrder(n: nat): (s: seq<nat>)
    ensures IsSchedule(s, n)
  {
    var s := seq(n, k requires 0 <= k => k);
    assert forall j :: 0 <= j < n ==> j in s by {
      forall j | 0 <= j < n
        ensures j in s
      {
        assert s[j] == j;
      }
    }
    s
  }

  /** One record and three steps per job, whatever the jobs do. */
  lemma {:induction false} BatchLengths(host: Host, job: Job, schedule: seq<nat>)
    ensures var b := RunBatch(host, job, schedule);
      |b.records| == |schedule| && |b.trace| == 3 * |schedule|
  {
    if schedule != [] {
      BatchLengths(host, job, schedule[..|schedule| - 1]);
    }
  }

  /** The k-th record is the k-th scheduled job's. */
  lemma {:induction false} RecordsAt(host: Host, job: Job, schedule: seq<nat>, k: nat)
    requires k < |schedule|
    ensures |RunBatch(host, job, schedule).records| == |schedule|
      && RunBatch(host, job, schedule).records[k] == JobRecord(host.run(JobInvocation(job, schedule[k])), schedule[k])
  {
    BatchLengths(host, job, schedule);
    if k < |schedule| - 1 {
      RecordsAt(host, job, schedule[..|schedule| - 1], k);
    }
  }

  /** Steps 3k to 3k + 2 are the k-th scheduled job's. */
  lemma {:induction false} StepsAt(host: Host, job: Job, schedule: seq<nat>, k: nat)
    requires k < |schedule|
    ensures |RunBatch(host, job, schedule).trace| == 3 * |schedule|
      && RunBatch(host, job, schedule).trace[3 * k..3 * k + 3] == JobSteps(job, host.run(JobInvocation(job, schedule[k])), schedule[k])
  {
    BatchLengths(host, job, schedule);
    var init := schedule[..|schedule| - 1];
    BatchLengths(host, job, init);
    if k < |schedule| - 1 {
      StepsAt(host, job, init, k);
      var t := RunBatch(host, job, schedule).trace;
      assert t[..3 * |init|] == RunBatch(host, job, init).trace;
      assert t[3 * k..3 * k + 3] == t[..3 * |init|][3 * k..3 * k + 3];
    }
  }

  /**
   * Position k of the batch belongs to the k-th scheduled job: its record, and three steps of
   * the trace: "Starting", its command, then "Finished" or the error.
   */
  lemma BatchShape(host: Host, job: Job, schedule: seq<nat>)
    ensures var b := RunBatch(host, job, schedule);
      |b.records| == |schedule| && |b.trace| == 3 * |schedule|
    ensures var b := RunBatch(host, job, schedule);
      forall k :: 0 <= k < |schedule| ==>
        var s := host.run(JobInvocation(job, schedule[k]));
        b.records[k] == JobRecord(s, schedule[k]) && b.trace[3 * k..3 * k + 3] == JobSteps(job, s, schedule[k])
  {
    BatchLengths(host, job, schedule);
    forall k | 0 <= k < |schedule|
      ensures var b := RunBatch(host, job, schedule);
        var s := host.run(JobInvocation(job, schedule[k]));
        b.records[k] == JobRecord(s, schedule[k]) && b.trace[3 * k..3 * k + 3] == JobSteps(job, s, schedule[k])
    {
      RecordsAt(host, job, schedule, k);
      StepsAt(host, job, schedule, k);
    }
  }

  /**
   * Over a schedule of all n jobs, job j failed iff some record is a failure numbered j + 1, and
   * every such record is its failure record.
   */
  lemma FailedIffRecorded(host: Host, job: Job, schedule: seq<nat>, n: nat, j: nat)
    requires IsSchedule(schedule, n) && j < n
    ensures var b := RunBatch(host, job, schedule);
      host.run(JobInvocation(job, j)).Rejected? <==>
        exists k :: 0 <= k < |b.records| && b.records[k].Failed? && b.records[k].job == j + 1
    ensures var b := RunBatch(host, job, schedule);
      forall k :: 0 <= k < |b.records| && b.records[k].Failed? && b.records[k].job == j + 1 ==>
        b.records[k] == FailureRecord(host.run(JobInvocation(job, j)).error, j + 1)
  {
    BatchLengths(host, job, schedule);
    var b := RunBatch(host, job, schedule);
    forall k | 0 <= k < |b.records| && b.records[k].Failed? && b.records[k].job == j + 1
      ensures host.run(JobInvocation(job, j)).Rejected?
      ensures b.records[k] == FailureRecord(host.run(JobInvocation(job, j)).error, j + 1)
    {
      RecordsAt(host, job, schedule, k);
    }
    assert j in schedule;
    var k :| 0 <= k < |schedule| && schedule[k] == j;
    RecordsAt(host, job, schedule, k);
    if host.run(JobInvocation(job, j)).Rejected? {
      assert b.records[k].Failed? && b.records[k].job == j + 1;
    }
  }

  /** A job that succeeded leaves its own result as its record. */
  lemma CompletedRecorded(host: Host, job: Job, schedule: seq<nat>, n: nat, j: nat)
    requires IsSchedule(schedule, n) && j < n && host.run(JobInvocation(job, j)).Resolved?
    ensures var b := RunBatch(host, job, schedule);
      exists k :: 0 <= k < |b.records| && b.records[k] == Completed(host.run(JobInvocation(job, j)).result)
  {
    assert j in schedule;
    var k :| 0 <= k < |schedule| && schedule[k] == j;
    RecordsAt(host, job, schedule, k);
    assert RunBatch(host, job, schedule).records[k] == Completed(host.run(JobInvocation(job, j)).result);
  }

  /** Run in their own order, record k belongs to job k + 1. */
  lemma InOrderRecords(host: Host, job: Job, n: nat)
    ensures var b := RunBatch(host, job, InOrder(n));
      |b.records| == n && forall k :: 0 <= k < n ==> b.records[k] == JobRecord(host.run(JobInvocation(job, k)), k)
  {
    BatchLengths(host, job, InOrder(n));
    forall k | 0 <= k < n
      ensures RunBatch(host, job, InOrder(n)).records[k] == JobRecord(host.run(JobInvocation(job, k)), k)
    {
      RecordsAt(host, job, InOrder(n), k);
    }
  }

  /** The jobs, one after another in `schedule`: the `results.push` accumulation. */
  method RunJobs(host: Host, job: Job, schedule: seq<nat>) returns (results: seq<ParsimonyResult>, trace: seq<Step>)
    ensures RunBatch(host, job, schedule) == Batch(results, trace)
  {
    results, trace := [], [];
    for k := 0 to |schedule|
      invariant RunBatch(host, job, schedule[..k]) == Batch(results, trace)
    {
      var i := schedule[k];
      var invocation := JobInvocation(job, i);
      trace := trace + [Logged(Call(DEBUG, StartingLine(i))), Acted(Run(invocation))];
      var s := host.run(invocation);
      match s {
        case Resolved(r) =>
          trace := trace + [Logged(Call(DEBUG, FinishedLine(i)))];
          results := results + [Completed(r)];
        case Rejected(t) =>
          trace := trace + [Logged(Call(ERROR, JobFailedLine(i)))];
          results := results + [FailureRecord(t, i + 1)];
      }
      assert schedule[..k + 1][..k] == schedule[..k];
    }
    assert schedule[..|schedule|] == schedule;
  }

  /** A line one of the jobs logs: "[Parsimony] " and then "Starting", "Finished" or "Job". */
  predicate JobLine(message: string) {
    |message| > |StageTag| && message[..|StageTag|] == StageTag && message[|StageTag|] in {'S', 'F', 'J'}
  }

  /** Every call the batch makes is a job's line, and every action starts a job. */
  lemma {:induction false} BatchStepsAreJobs(host: Host, job: Job, schedule: seq<nat>)
    ensures forall e :: e in RunBatch(host, job, schedule).trace && e.Logged? ==> JobLine(e.call.message)
    ensures forall e :: e in RunBatch(host, job, schedule).trace && e.Acted? ==>
      e.action.Run? && e.action.invocation.cmd == job.tool && e.action.invocation.mirror == job.mirror
  {
    if schedule != [] {
      var init := schedule[..|schedule| - 1];
      BatchStepsAreJobs(host, job, init);
      var i := schedule[|schedule| - 1];
      JobLines(job, host.run(JobInvocation(job, i)), i);
    }
  }

  /** Both calls of a job are job lines. */
  lemma JobLines(job: Job, s: Settlement, i: nat)
    ensures forall e :: e in JobSteps(job, s, i) && e.Logged? ==> JobLine(e.call.message)
  {
    assert (StageTag + "Starting job " + NatToString(i + 1))[|StageTag|] == 'S';
    assert (StageTag + "Finished job " + NatToString(i + 1))[|StageTag|] == 'F';
    assert (StageTag + "Job " + NatToString(i + 1) + " failed")[|StageTag|] == 'J';
  }

  // ---------------------------------------------------------------------------------------------
  // The stage

  const ConcatStep := "iteration*.treefile"
  /** The file the iteration trees are concatenated into. */
  const CombinedTree := "parsimony_combined.treefile"
  const MoveStep := "iteration.*"
  const CompleteLine := StageTag + "All jobs complete."

  /** The closing line is not a job's line, so it is logged only where the stage logs it. */
  lemma CompleteLineIsNoJobLine()
    ensures !JobLine(CompleteLine)
  {
    assert CompleteLine[|StageTag|] == 'A';
  }

  /** The job every iteration runs, for these arguments. */
  function JobOf(host: Host, args: CliArgs.Settings): Job {
    Job(ToolPath(host, MPBOOT_PATH), args.msa, args.logLevel == DEBUG)
  }

  /** Every job runs the MPBoot binary under lib/ on the alignment with its own prefix, mirrored iff the level is DEBUG. */
  lemma JobsRunTheTool(host: Host, args: CliArgs.Settings, schedule: seq<nat>)
    ensures var b := RunBatch(host, JobOf(host, args), schedule);
      |b.trace| == 3 * |schedule| && forall k :: 0 <= k < |schedule| ==>
        b.trace[3 * k + 1] == Acted(Run(Invocation(ToolPath(host, MPBOOT_PATH), JobArgs(args.msa, schedule[k]), args.logLevel == DEBUG)))
  {
    var b := RunBatch(host, JobOf(host, args), schedule);
    BatchLengths(host, JobOf(host, args), schedule);
    forall k | 0 <= k < |schedule|
      ensures b.trace[3 * k + 1] == Acted(Run(Invocation(ToolPath(host, MPBOOT_PATH), JobArgs(args.msa, schedule[k]), args.logLevel == DEBUG)))
    {
      StepsAt(host, JobOf(host, args), schedule, k);
      assert b.trace[3 * k + 1] == b.trace[3 * k..3 * k + 3][1];
    }
  }

  /** `ParsimonyAnalysis` with the arguments it was constructed with. */
  class ParsimonyAnalysis {
    const args: CliArgs.Settings

    constructor (args: CliArgs.Settings)
      ensures this.args == args
    {
      this.args := args;
    }

    /**
     * `executeParsimonyAnalysis(folderPath)`: p-limit's check, the job list (whose length the
     * Array constructor may refuse), the jobs, then concatenation and the move; the outcome is the
     * records, or the first rejection of those steps, after which nothing else happens.
     */
    method ExecuteParsimonyAnalysis(host: Host, files: FileOracle, folderPath: string, schedule: seq<nat>)
      returns (outcome: Result<seq<ParsimonyResult>, Thrown>, trace: seq<Step>)
      requires ArrayLength(args.parsimonyIterations).Some? ==> IsSchedule(schedule, ArrayLength(args.parsimonyIterations).value)
      ensures var c := EffectiveConcurrency(args.maxConcurrency, args.concurrency, host.cpus);
        PLimit(c).Some? ==> outcome == Failure(Plain(PLimitMessage)) && trace == []
      ensures var c := EffectiveConcurrency(args.maxConcurrency, args.concurrency, host.cpus);
        PLimit(c).None? && ArrayLength(args.parsimonyIterations).None? ==> outcome == Failure(Plain(InvalidArrayLength)) && trace == []
      ensures var c := EffectiveConcurrency(args.maxConcurrency, args.concurrency, host.cpus);
        var b := RunBatch(host, JobOf(host, args), schedule);
        var concat := ConcatFiles(ConcatStep, Join(folderPath, CombinedTree));
        var move := MoveFiles(MoveStep, folderPath, args.concurrency);
        PLimit(c).None? && ArrayLength(args.parsimonyIterations).Some? ==>
          && (files(concat).Some? ==> outcome == Failure(files(concat).value) && trace == b.trace + [Acted(File(concat))])
          && (files(concat).None? && files(move).Some? ==>
                outcome == Failure(files(move).value) && trace == b.trace + [Acted(File(concat)), Acted(File(move))])
          && (files(concat).None? && files(move).None? ==>
                outcome == Success(b.records)
                && trace == b.trace + [Acted(File(concat)), Acted(File(move)), Logged(Call(INFO, CompleteLine))])
    {
      var concurrency := EffectiveConcurrency(args.maxConcurrency, args.concurrency, host.cpus);
      var rejected := PLimit(concurrency);
      if rejected.Some? {
        return Failure(rejected.value), [];
      }
      if ArrayLength(args.parsimonyIterations).None? {
        return Failure(Plain(InvalidArrayLength)), [];
      }
      var results;
      results, trace := RunJobs(host, JobOf(host, args), schedule);
      var concat := ConcatFiles(ConcatStep, Join(folderPath, CombinedTree));
      trace := trace + [Acted(File(concat))];
      if files(concat).Some? {
        return Failure(files(concat).value), trace;
      }
      var move := MoveFiles(MoveStep, folderPath, args.concurrency);
      trace := trace + [Acted(File(move))];
      if files(move).Some? {
        return Failure(files(move).value), trace;
      }
      trace := trace + [Logged(Call(INFO, CompleteLine))];
      outcome := Success(results);
    }
  }
}
