/**
 * src/cli/args.ts: the argument handler of the command-line entry point. The constructor assigns
 * the fields from the options object when one is given and from the command line otherwise
 * (decoding the log-level string there), and then validates on BOTH paths: a missing or blank
 * `msa` throws, and a count that is not positive, or NaN, is replaced by its default with one
 * warning.
 *
 * A JavaScript constructor that throws has no Dafny counterpart; `Args.Create` performs the
 * construction and returns the thrown error instead of an object. `Construct` states on values
 * what a construction yields, and the lemmas below are about it.
 */
module CliArgs {
  import opened Wrappers
  import opened Builtins
  import opened Constants
  import opened Logging
  import opened Options
  import opened Commands

  const MissingMsa := "Missing required argument: --msa (must be a valid file path)."
  const IterationsWarning := "Parsimony iterations " + "must be greater than 0, " + "setting to default (" + NatToString(PARSIMONY_ITERATIONS) + ")"
  const ConcurrencyWarning := "Concurrency " + "must be greater than 0, " + "setting to default (" + NatToString(CONCURRENCY) + ")"

  function UnknownLevelWarning(level: string): string {
    "Unknown log level: \"" + level + "\", setting to default (INFO)"
  }

  // ---------------------------------------------------------------------------------------------
  // validateLogLevel

  /** The lower-case name `validateLogLevel` accepts for each level. */
  function LevelName(l: Level): string {
    match l
    case ERROR => "error"
    case WARN => "warn"
    case INFO => "info"
    case DEBUG => "debug"
  }

  /** A decoded level with the calls made while decoding it. */
  datatype Decoded = Decoded(level: Level, calls: seq<Call>)

  /**
   * `validateLogLevel(level)`: the level whose name is `level.toLowerCase()`, silently; for any
   * other string INFO, with one warning quoting the string as given.
   */
  function ValidateLogLevel(level: string): (d: Decoded)
    ensures (exists l :: ToLower(level) == LevelName(l)) ==> d.calls == [] && ToLower(level) == LevelName(d.level)
    ensures (forall l :: ToLower(level) != LevelName(l)) ==> d == Decoded(INFO, [Call(WARN, UnknownLevelWarning(level))])
  {
    var lower := ToLower(level);
    if lower == "error" then Decoded(ERROR, [])
    else if lower == "warn" then Decoded(WARN, [])
    else if lower == "info" then Decoded(INFO, [])
    else if lower == "debug" then Decoded(DEBUG, [])
    else Decoded(INFO, [Call(WARN, UnknownLevelWarning(level))])
  }

  /** Decoding ignores case: two strings that lower-case alike decode to the same level. */
  lemma DecodeIgnoresCase(s: string, t: string)
    requires ToLower(s) == ToLower(t)
    ensures ValidateLogLevel(s).level == ValidateLogLevel(t).level
    ensures |ValidateLogLevel(s).calls| == |ValidateLogLevel(t).calls|
  {
  }

  /** Each level's name decodes to it without a warning, and so does its upper-case tag. */
  lemma DecodeNames(l: Level)
    ensures ValidateLogLevel(LevelName(l)) == Decoded(l, [])
    ensures ValidateLogLevel(Tag(l)) == Decoded(l, [])
  {
    var tag := Tag(l);
    assert ToLower(tag) == LevelName(l) by {
      match l
      case ERROR => assert ToLower(tag) == ['e', 'r', 'r', 'o', 'r'];
      case WARN => assert ToLower(tag) == ['w', 'a', 'r', 'n'];
      case INFO => assert ToLower(tag) == ['i', 'n', 'f', 'o'];
      case DEBUG => assert ToLower(tag) == ['d', 'e', 'b', 'u', 'g'];
    }
    assert ToLower(LevelName(l)) == LevelName(l) by {
      match l
      case ERROR => assert ToLower(LevelName(l)) == ['e', 'r', 'r', 'o', 'r'];
      case WARN => assert ToLower(LevelName(l)) == ['w', 'a', 'r', 'n'];
      case INFO => assert ToLower(LevelName(l)) == ['i', 'n', 'f', 'o'];
      case DEBUG => assert ToLower(LevelName(l)) == ['d', 'e', 'b', 'u', 'g'];
    }
  }

  /** A string that names no level decodes to INFO and produces exactly one warning. */
  lemma UnknownLevelWarnsOnce(level: string)
    requires forall l :: ToLower(level) != LevelName(l)
    ensures ValidateLogLevel(level).level == INFO
    ensures |ValidateLogLevel(level).calls| == 1 && ValidateLogLevel(level).calls[0].level == WARN
  {
  }

  // ---------------------------------------------------------------------------------------------
  // validateArgs on one count

  /** A count after validation, with the warning it cost. */
  datatype Checked = Checked(value: Num, calls: seq<Call>)

  /** `if (n <= 0 || Number.isNaN(n)) { log.warn(warning); n = default }`. */
  function ValidateCount(n: Num, default: nat, warning: string): (c: Checked)
    ensures !NotPositive(n) ==> c == Checked(n, [])
    ensures NotPositive(n) ==> c == Checked(Int(default), [Call(WARN, warning)])
  {
    if NotPositive(n) then Checked(Int(default), [Call(WARN, warning)]) else Checked(n, [])
  }

  /**
   * A validated count is positive whenever its default is, and an integer when it started as a
   * `parseInt` result; a positive fraction or Infinity passes unchanged.
   */
  lemma ValidatedCountPositive(n: Num, default: nat, warning: string)
    requires default > 0
    ensures !NotPositive(ValidateCount(n, default, warning).value)
    ensures n.Int? || n.NaN? ==> ValidateCount(n, default, warning).value.Int? && ValidateCount(n, default, warning).value.value > 0
    ensures ValidateCount(n, default, warning).value.Frac? <==> n.Frac? && !n.negative
  {
  }

  // ---------------------------------------------------------------------------------------------
  // Construction, on values

  /** The fields as the constructor assigns them before validating, with the calls made meanwhile. */
  datatype Assignment = Assignment(
    msa: Option<string>, parsimonyIterations: Num, logLevel: Level, concurrency: Num, maxConcurrency: bool,
    calls: seq<Call>)

  /** The fields of a constructed `Args`. */
  datatype Settings = Settings(msa: string, parsimonyIterations: Num, logLevel: Level, concurrency: Num, maxConcurrency: bool)

  /** The calls a construction makes on its logger, and the object's fields or the error thrown. */
  datatype Construction = Construction(calls: seq<Call>, outcome: Result<Settings, Thrown>)

  /** The `if (options) … else …` assignment: options verbatim (maxConcurrency ?? false), or the command line with its level decoded. */
  function Assign(options: Option<ProgramOptions>, cli: CliOptions): Assignment {
    match options
    case Some(o) =>
      Assignment(Some(o.msa), o.parsimonyIterations, o.logLevel, o.concurrency, o.maxConcurrency.GetOr(false), [])
    case None =>
      var d := ValidateLogLevel(cli.logLevel);
      Assignment(cli.msa, cli.parsimonyIterations, d.level, cli.concurrency, cli.maxConcurrency.GetOr(false), d.calls)
  }

  /** `typeof msa !== "string" || msa.trim().length === 0`. */
  predicate MsaMissing(msa: Option<string>) {
    msa.None? || |Trim(msa.value)| == 0
  }

  /** `new Args(log, options)` as a whole: assignment, the msa check, then both counts. */
  function Construct(options: Option<ProgramOptions>, cli: CliOptions): Construction {
    var a := Assign(options, cli);
    if MsaMissing(a.msa) then Construction(a.calls, Failure(Plain(MissingMsa)))
    else
      var n := ValidateCount(a.parsimonyIterations, PARSIMONY_ITERATIONS, IterationsWarning);
      var m := ValidateCount(a.concurrency, CONCURRENCY, ConcurrencyWarning);
      Construction(a.calls + n.calls + m.calls, Success(Settings(a.msa.value, n.value, a.logLevel, m.value, a.maxConcurrency)))
  }

  /** Construction throws exactly when the msa of the path taken is absent or blank, and then with the fixed message. */
  lemma ThrowsIffMsaMissing(options: Option<ProgramOptions>, cli: CliOptions)
    ensures options.Some? ==> (Construct(options, cli).outcome.Failure? <==> Blank(options.value.msa))
    ensures options.None? ==> (Construct(options, cli).outcome.Failure? <==> cli.msa.None? || Blank(cli.msa.value))
    ensures Construct(options, cli).outcome.Failure? ==> Construct(options, cli).outcome.error == Plain(MissingMsa)
  {
    var a := Assign(options, cli);
    if a.msa.Some? {
      TrimEmptyIffBlank(a.msa.value);
    }
  }

  /**
   * After construction both counts are positive; from the command line they are positive
   * integers, while programmatic options may leave a positive fraction or Infinity.
   */
  lemma CountsPositive(options: Option<ProgramOptions>, cli: CliOptions)
    requires Construct(options, cli).outcome.Success?
    ensures !NotPositive(Construct(options, cli).outcome.value.parsimonyIterations)
    ensures !NotPositive(Construct(options, cli).outcome.value.concurrency)
    ensures options.None? ==>
      Construct(options, cli).outcome.value.parsimonyIterations.Int? && Construct(options, cli).outcome.value.parsimonyIterations.value > 0
    ensures options.None? ==>
      Construct(options, cli).outcome.value.concurrency.Int? && Construct(options, cli).outcome.value.concurrency.value > 0
  {
    var a := Assign(options, cli);
    ValidatedCountPositive(a.parsimonyIterations, PARSIMONY_ITERATIONS, IterationsWarning);
    ValidatedCountPositive(a.concurrency, CONCURRENCY, ConcurrencyWarning);
  }

  /** The level warning and the two count warnings are three different messages. */
  lemma WarningsDiffer(level: string)
    ensures UnknownLevelWarning(level) != IterationsWarning
    ensures UnknownLevelWarning(level) != ConcurrencyWarning
    ensures IterationsWarning != ConcurrencyWarning
  {
    assert UnknownLevelWarning(level)[0] == 'U';
    assert IterationsWarning[0] == 'P';
    assert ConcurrencyWarning[0] == 'C';
  }

  /** The calls of an assignment are at most the level warning. */
  lemma AssignCalls(options: Option<ProgramOptions>, cli: CliOptions)
    ensures var a := Assign(options, cli);
      forall c :: c in a.calls ==> c == Call(WARN, UnknownLevelWarning(cli.logLevel))
  {
  }

  /**
   * A positive count is kept and anything else becomes its default, with exactly one warning
   * for that field and none otherwise; this holds on both paths.
   */
  lemma CountRule(options: Option<ProgramOptions>, cli: CliOptions)
    requires Construct(options, cli).outcome.Success?
    ensures var a := Assign(options, cli); var c := Construct(options, cli);
      && c.outcome.value.parsimonyIterations == (if NotPositive(a.parsimonyIterations) then Int(PARSIMONY_ITERATIONS) else a.parsimonyIterations)
      && c.outcome.value.concurrency == (if NotPositive(a.concurrency) then Int(CONCURRENCY) else a.concurrency)
      && multiset(c.calls)[Call(WARN, IterationsWarning)] == (if NotPositive(a.parsimonyIterations) then 1 else 0)
      && multiset(c.calls)[Call(WARN, ConcurrencyWarning)] == (if NotPositive(a.concurrency) then 1 else 0)
  {
    var a := Assign(options, cli);
    WarningsDiffer(cli.logLevel);
    AssignCalls(options, cli);
    var n := ValidateCount(a.parsimonyIterations, PARSIMONY_ITERATIONS, IterationsWarning);
    var m := ValidateCount(a.concurrency, CONCURRENCY, ConcurrencyWarning);
    WarningTally(a.calls, n.calls, m.calls, Call(WARN, IterationsWarning), Call(WARN, ConcurrencyWarning));
  }

  /** Counting two distinct calls over a prefix free of both, then at most one of each in its own part. */
  lemma WarningTally(s: seq<Call>, p: seq<Call>, q: seq<Call>, x: Call, y: Call)
    requires x != y && x !in s && y !in s
    requires p == [] || p == [x]
    requires q == [] || q == [y]
    ensures multiset(s + p + q)[x] == |p|
    ensures multiset(s + p + q)[y] == |q|
  {
    assert multiset(s)[x] == 0 && multiset(s)[y] == 0;
    assert multiset(s + p + q) == multiset(s) + multiset(p) + multiset(q);
  }

  /** The msa check comes first: when it throws, no count has been validated and no count warning logged. */
  lemma MsaCheckedBeforeCounts(options: Option<ProgramOptions>, cli: CliOptions)
    requires Construct(options, cli).outcome.Failure?
    ensures Construct(options, cli).calls == Assign(options, cli).calls
    ensures Call(WARN, IterationsWarning) !in Construct(options, cli).calls
    ensures Call(WARN, ConcurrencyWarning) !in Construct(options, cli).calls
  {
    WarningsDiffer(cli.logLevel);
    AssignCalls(options, cli);
  }

  /**
   * On the programmatic path the command line is ignored, msa, level and counts-as-validated come
   * from the options, an absent maxConcurrency becomes false, and no level is decoded.
   */
  lemma ProgrammaticPath(o: ProgramOptions, cli: CliOptions, other: CliOptions)
    ensures Construct(Some(o), cli) == Construct(Some(o), other)
    ensures Construct(Some(o), cli).outcome.Success? ==>
      var s := Construct(Some(o), cli).outcome.value;
      s.msa == o.msa && s.logLevel == o.logLevel && s.maxConcurrency == o.maxConcurrency.GetOr(false)
    ensures forall c :: c in Construct(Some(o), cli).calls ==> c.message == IterationsWarning || c.message == ConcurrencyWarning
  {
  }

  /** On the command-line path the level is decoded first, so its warning, if any, precedes everything else. */
  lemma CliPathDecodesFirst(cli: CliOptions)
    ensures var d := ValidateLogLevel(cli.logLevel); var c := Construct(None, cli);
      |d.calls| <= |c.calls| && c.calls[..|d.calls|] == d.calls
      && (c.outcome.Success? ==> c.outcome.value.logLevel == d.level && c.outcome.value.maxConcurrency == cli.maxConcurrency.GetOr(false))
  {
    var d := ValidateLogLevel(cli.logLevel);
    var c := Construct(None, cli);
    assert c.calls[..|d.calls|] == d.calls;
  }

  /** With commander's defaults and a given msa the construction is silent and keeps 100, INFO and 3. */
  lemma DefaultsAreQuiet(msa: string)
    requires !Blank(msa)
    ensures Construct(None, CliDefaults(Some(msa)))
         == Construction([], Success(Settings(msa, Int(PARSIMONY_ITERATIONS), INFO, Int(CONCURRENCY), false)))
  {
    TrimEmptyIffBlank(msa);
    DecodeNames(INFO);
  }

  // ---------------------------------------------------------------------------------------------
  // The class

  /** `Args` with its public fields, and the calls it has made on its logger so far. */
  class Args {
    var msa: Option<string>
    var parsimonyIterations: Num
    var logLevel: Level
    var concurrency: Num
    var maxConcurrency: bool
    var logged: seq<Call>

    function Fields(): Assignment
      reads this
    {
      Assignment(msa, parsimonyIterations, logLevel, concurrency, maxConcurrency, logged)
    }

    function Snapshot(): Settings
      reads this
      requires msa.Some?
    {
      Settings(msa.value, parsimonyIterations, logLevel, concurrency, maxConcurrency)
    }

    /** The constructor's field assignment, before it validates. */
    constructor Assigning(options: Option<ProgramOptions>, cli: CliOptions)
      ensures Fields() == Assign(options, cli)
    {
      match options {
        case Some(o) =>
          msa := Some(o.msa);
          parsimonyIterations := o.parsimonyIterations;
          logLevel := o.logLevel;
          concurrency := o.concurrency;
          maxConcurrency := o.maxConcurrency.GetOr(false);
          logged := [];
        case None =>
          msa := cli.msa;
          parsimonyIterations := cli.parsimonyIterations;
          var d := ValidateLogLevel(cli.logLevel);
          logLevel := d.level;
          logged := d.calls;
          concurrency := cli.concurrency;
          maxConcurrency := cli.maxConcurrency.GetOr(false);
      }
    }

    /** `validateRequiredArgs()`: the error it throws, if any; it changes nothing. */
    method ValidateRequiredArgs() returns (thrown: Option<Thrown>)
      ensures thrown.Some? <==> msa.None? || Blank(msa.value)
      ensures thrown.Some? ==> thrown.value == Plain(MissingMsa)
    {
      if msa.Some? {
        TrimEmptyIffBlank(msa.value);
      }
      if msa.None? || |Trim(msa.value)| == 0 {
        thrown := Some(Plain(MissingMsa));
      } else {
        thrown := None;
      }
    }

    /** `validateArgs()`: overwrites each count that is not positive with its default, warning once per count. */
    method ValidateArgs()
      modifies this
      ensures parsimonyIterations == ValidateCount(old(parsimonyIterations), PARSIMONY_ITERATIONS, IterationsWarning).value
      ensures concurrency == ValidateCount(old(concurrency), CONCURRENCY, ConcurrencyWarning).value
      ensures logged == old(logged) + ValidateCount(old(parsimonyIterations), PARSIMONY_ITERATIONS, IterationsWarning).calls
                                    + ValidateCount(old(concurrency), CONCURRENCY, ConcurrencyWarning).calls
      ensures msa == old(msa) && logLevel == old(logLevel) && maxConcurrency == old(maxConcurrency)
    {
      if NotPositive(parsimonyIterations) {
        logged := logged + [Call(WARN, IterationsWarning)];
        parsimonyIterations := Int(PARSIMONY_ITERATIONS);
      }
      if NotPositive(concurrency) {
        logged := logged + [Call(WARN, ConcurrencyWarning)];
        concurrency := Int(CONCURRENCY);
      }
    }

    /**
     * `new Args(log, options)`: assign, then validate whichever path was taken. Returns the
     * object, or the error the constructor throws, with the calls made on the logger either way.
     */
    static method Create(options: Option<ProgramOptions>, cli: CliOptions) returns (args: Result<Args, Thrown>, calls: seq<Call>)
      ensures calls == Construct(options, cli).calls
      ensures args.Failure? ==> Construct(options, cli).outcome == Failure(args.error)
      ensures args.Success? ==> (fresh(args.value) && args.value.msa.Some?
        && Construct(options, cli).outcome == Success(args.value.Snapshot()) && args.value.logged == calls)
    {
      var a := new Args.Assigning(options, cli);
      var thrown := a.ValidateRequiredArgs();
      if a.msa.Some? {
        TrimEmptyIffBlank(a.msa.value);
      }
      if thrown.Some? {
        return Failure(thrown.value), a.logged;
      }
      a.ValidateArgs();
      return Success(a), a.logged;
    }
  }
}
