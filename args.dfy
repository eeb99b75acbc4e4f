/**
 * src/args.ts: the argument handler of the older entry point. Unlike src/cli/args.ts it takes a
 * programmatic options object verbatim, without any check, and validates only on the
 * command-line path, where a missing or empty `msa` (but not a blank one) logs an error and
 * exits with status 1.
 *
 * The process exit is modelled as the outcome `Failure(1)`: nothing after it runs.
 */
module Args {
  import opened Wrappers
  import opened Builtins
  import opened Constants
  import opened Logging
  import opened Options
  import CliArgs
  import Commands

  const MissingMsa := "Error: --msa argument is required"
  const IterationsWarning := "Parsimony iterations " + "invalid, setting to default: " + NatToString(PARSIMONY_ITERATIONS)
  const ConcurrencyWarning := "Concurrency " + "invalid, setting to default: " + NatToString(CONCURRENCY)

  function UnknownLevelWarning(level: string): string {
    "Unknown log level \"" + level + "\", defaulting to INFO"
  }

  type Decoded = CliArgs.Decoded

  /** `validateLogLevel(level)`: the same switch on `level.toLowerCase()` as src/cli/args.ts, with this file's warning. */
  function ValidateLogLevel(level: string): (d: Decoded)
    ensures (exists l :: ToLower(level) == CliArgs.LevelName(l)) ==> d.calls == [] && ToLower(level) == CliArgs.LevelName(d.level)
    ensures (forall l :: ToLower(level) != CliArgs.LevelName(l)) ==> d == CliArgs.Decoded(INFO, [Call(WARN, UnknownLevelWarning(level))])
  {
    var lower := ToLower(level);
    if lower == "error" then CliArgs.Decoded(ERROR, [])
    else if lower == "warn" then CliArgs.Decoded(WARN, [])
    else if lower == "info" then CliArgs.Decoded(INFO, [])
    else if lower == "debug" then CliArgs.Decoded(DEBUG, [])
    else CliArgs.Decoded(INFO, [Call(WARN, UnknownLevelWarning(level))])
  }

  /** The fields of a constructed `Args`; the programmatic `maxConcurrency` is kept as given, possibly absent. */
  datatype Settings = Settings(msa: string, parsimonyIterations: Num, logLevel: Level, concurrency: Num, maxConcurrency: Option<bool>)

  /** The calls a construction makes on its logger, and the object's fields or the exit status. */
  datatype Construction = Construction(calls: seq<Call>, outcome: Result<Settings, int>)

  /** `!this.msa`: absent or the empty string. */
  predicate Falsy(msa: Option<string>) {
    msa.None? || msa.value == ""
  }

  /** `new Args(log, options)` as a whole. */
  function Construct(options: Option<ProgramOptions>, cli: CliOptions): Construction {
    match options
    case Some(o) =>
      Construction([], Success(Settings(o.msa, o.parsimonyIterations, o.logLevel, o.concurrency, o.maxConcurrency)))
    case None =>
      var d := ValidateLogLevel(cli.logLevel);
      if Falsy(cli.msa) then Construction(d.calls + [Call(ERROR, MissingMsa)], Failure(1))
      else
        var n := CliArgs.ValidateCount(cli.parsimonyIterations, PARSIMONY_ITERATIONS, IterationsWarning);
        var m := CliArgs.ValidateCount(cli.concurrency, CONCURRENCY, ConcurrencyWarning);
        Construction(d.calls + n.calls + m.calls,
          Success(Settings(cli.msa.value, n.value, d.level, m.value, Some(cli.maxConcurrency.GetOr(false)))))
  }

  /** Only the command-line path can exit, exactly when its msa is falsy, with status 1 and after logging the error. */
  lemma ExitsIffFalsyMsa(options: Option<ProgramOptions>, cli: CliOptions)
    ensures Construct(options, cli).outcome.Failure? <==> options.None? && Falsy(cli.msa)
    ensures Construct(options, cli).outcome.Failure? ==>
      var c := Construct(options, cli);
      c.outcome.error == 1 && |c.calls| > 0 && c.calls[|c.calls| - 1] == Call(ERROR, MissingMsa)
  {
  }

  /** The programmatic path neither logs nor alters anything: even a non-positive count or an empty msa is kept. */
  lemma ProgrammaticUnchecked(o: ProgramOptions, cli: CliOptions)
    ensures Construct(Some(o), cli).calls == []
    ensures Construct(Some(o), cli).outcome.Success?
    ensures var s := Construct(Some(o), cli).outcome.value;
      s.msa == o.msa && s.parsimonyIterations == o.parsimonyIterations && s.concurrency == o.concurrency
      && s.logLevel == o.logLevel && s.maxConcurrency == o.maxConcurrency
  {
  }

  /** On the command-line path the counts come out positive, each kept or defaulted with one warning. */
  lemma CliPathCounts(cli: CliOptions)
    requires !Falsy(cli.msa)
    ensures var s := Construct(None, cli).outcome.value;
      && s.parsimonyIterations == (if NotPositive(cli.parsimonyIterations) then Int(PARSIMONY_ITERATIONS) else cli.parsimonyIterations)
      && s.concurrency == (if NotPositive(cli.concurrency) then Int(CONCURRENCY) else cli.concurrency)
      && s.parsimonyIterations.Int? && s.parsimonyIterations.value > 0
      && s.concurrency.Int? && s.concurrency.value > 0
    ensures |Construct(None, cli).calls| == |ValidateLogLevel(cli.logLevel).calls|
      + (if NotPositive(cli.parsimonyIterations) then 1 else 0) + (if NotPositive(cli.concurrency) then 1 else 0)
  {
  }

  // ---------------------------------------------------------------------------------------------
  // The two handlers side by side

  /** Both handlers decode a level string to the same level, warning in the same cases. */
  lemma SameLevels(level: string)
    ensures ValidateLogLevel(level).level == CliArgs.ValidateLogLevel(level).level
    ensures |ValidateLogLevel(level).calls| == |CliArgs.ValidateLogLevel(level).calls|
  {
  }

  /** A whitespace-only msa on the command line: the newer handler throws, this one accepts it. */
  lemma BlankMsaContrast(cli: CliOptions)
    requires cli.msa.Some? && cli.msa.value != "" && Blank(cli.msa.value)
    ensures CliArgs.Construct(None, cli).outcome.Failure?
    ensures Construct(None, cli).outcome.Success? && Construct(None, cli).outcome.value.msa == cli.msa.value
  {
    CliArgs.ThrowsIffMsaMissing(None, cli);
  }

  /** No msa on the command line: the newer handler throws, this one exits with status 1. */
  lemma MissingMsaContrast(cli: CliOptions)
    requires cli.msa.None?
    ensures CliArgs.Construct(None, cli).outcome == Failure(Commands.Plain(CliArgs.MissingMsa))
    ensures Construct(None, cli).outcome == Failure(1)
  {
  }

  /** A programmatic concurrency that is not positive: the newer handler restores 3, this one keeps it. */
  lemma ProgrammaticCountContrast(o: ProgramOptions, cli: CliOptions)
    requires NotPositive(o.concurrency) && !Blank(o.msa)
    ensures CliArgs.Construct(Some(o), cli).outcome.Success?
    ensures CliArgs.Construct(Some(o), cli).outcome.value.concurrency == Int(CONCURRENCY)
    ensures Construct(Some(o), cli).outcome.value.concurrency == o.concurrency
  {
    CliArgs.ThrowsIffMsaMissing(Some(o), cli);
  }

  // ---------------------------------------------------------------------------------------------
  // The class

  /** `Args` with its public fields, and the calls it has made on its logger so far. */
  class Args {
    var msa: Option<string>
    var parsimonyIterations: Num
    var logLevel: Level
    var concurrency: Num
    var maxConcurrency: Option<bool>
    var logged: seq<Call>

    function Snapshot(): Settings
      reads this
      requires msa.Some?
    {
      Settings(msa.value, parsimonyIterations, logLevel, concurrency, maxConcurrency)
    }

    /** `validateRequiredArgs()`: logs the error and yields the exit status when msa is falsy. */
    method ValidateRequiredArgs() returns (exit: Option<int>)
      modifies this
      ensures exit.Some? <==> Falsy(msa)
      ensures exit.Some? ==> exit.value == 1 && logged == old(logged) + [Call(ERROR, MissingMsa)]
      ensures exit.None? ==> logged == old(logged)
      ensures msa == old(msa) && parsimonyIterations == old(parsimonyIterations) && logLevel == old(logLevel)
      ensures concurrency == old(concurrency) && maxConcurrency == old(maxConcurrency)
    {
      if msa.None? || msa.value == "" {
        logged := logged + [Call(ERROR, MissingMsa)];
        exit := Some(1);
      } else {
        exit := None;
      }
    }

    /** `validateArgs()`: overwrites each count that is not positive with its default, warning once per count. */
    method ValidateArgs()
      modifies this
      ensures parsimonyIterations == CliArgs.ValidateCount(old(parsimonyIterations), PARSIMONY_ITERATIONS, IterationsWarning).value
      ensures concurrency == CliArgs.ValidateCount(old(concurrency), CONCURRENCY, ConcurrencyWarning).value
      ensures logged == old(logged) + CliArgs.ValidateCount(old(parsimonyIterations), PARSIMONY_ITERATIONS, IterationsWarning).calls
                                    + CliArgs.ValidateCount(old(concurrency), CONCURRENCY, ConcurrencyWarning).calls
      ensures msa == old(msa) && logLevel == old(logLevel) && maxConcurrency == old(maxConcurrency)
    {
      if NotPositive(parsimonyIterations) {
        logged := logged + [Call(WARN, IterationsWarning)];
        parsimonyIterations := Int(PARSIMONY_ITERATIONS);
      }
      if NotPositive(concurrency) {
        logged := logged + [Call(WARN, ConcurrencyWarning)];
        concurrency := Int(CONCURRENCY);
      }
    }

    /** The constructor's field assignment on the programmatic path. */
    constructor FromOptions(o: ProgramOptions)
      ensures msa == Some(o.msa) && Snapshot() == Construct(Some(o), CliDefaults(None)).outcome.value && logged == []
    {
      msa := Some(o.msa);
      parsimonyIterations := o.parsimonyIterations;
      logLevel := o.logLevel;
      concurrency := o.concurrency;
      maxConcurrency := o.maxConcurrency;
      logged := [];
    }

    /** The constructor's field assignment on the command-line path, before it validates. */
    constructor FromCli(cli: CliOptions)
      ensures msa == cli.msa && parsimonyIterations == cli.parsimonyIterations && concurrency == cli.concurrency
      ensures logLevel == ValidateLogLevel(cli.logLevel).level && logged == ValidateLogLevel(cli.logLevel).calls
      ensures maxConcurrency == Some(cli.maxConcurrency.GetOr(false))
    {
      msa := cli.msa;
      parsimonyIterations := cli.parsimonyIterations;
      var d := ValidateLogLevel(cli.logLevel);
      logLevel := d.level;
      logged := d.calls;
      concurrency := cli.concurrency;
      maxConcurrency := Some(cli.maxConcurrency.GetOr(false));
    }

    /**
     * `new Args(log, options)`: the object, or the exit status when the command-line path
     * exits, with the calls made on the logger either way.
     */
    static method Create(options: Option<ProgramOptions>, cli: CliOptions) returns (args: Result<Args, int>, calls: seq<Call>)
      ensures calls == Construct(options, cli).calls
      ensures args.Failure? ==> Construct(options, cli).outcome == Failure(args.error)
      ensures args.Success? ==> (fresh(args.value) && args.value.msa.Some?
        && Construct(options, cli).outcome == Success(args.value.Snapshot()) && args.value.logged == calls)
    {
      if options.Some? {
        var a := new Args.FromOptions(options.value);
        return Success(a), a.logged;
      }
      var a := new Args.FromCli(cli);
      var exit := a.ValidateRequiredArgs();
      if exit.Some? {
        return Failure(exit.value), a.logged;
      }
      a.ValidateArgs();
      return Success(a), a.logged;
    }
  }
}
