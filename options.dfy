/**
 * The two option records both argument handlers start from. Command-line parsing itself is not
 * modelled: a `CliOptions` is what `program.opts()` returns once commander has applied its
 * defaults and `parseInt` to the counts.
 */
module Options {
  import opened Wrappers
  import opened Builtins
  import opened Constants

  /** The `options` object passed to `new Args(log, options)`; `maxConcurrency` may be left out. */
  datatype ProgramOptions = ProgramOptions(
    msa: string, parsimonyIterations: Num, logLevel: Level, concurrency: Num, maxConcurrency: Option<bool>)

  /** What `parseInt(val, 10)` yields: an integer, or NaN when the text does not start with a number. */
  type ParsedCount = n: Num | n.Int? || n.NaN? witness NaN

  /**
   * `program.opts()`: `msa` is absent unless `--msa` was given, the counts are `parseInt` results,
   * and the log level is the string as typed.
   */
  datatype CliOptions = CliOptions(
    msa: Option<string>, parsimonyIterations: ParsedCount, logLevel: string, concurrency: ParsedCount, maxConcurrency: Option<bool>)

  /** What commander yields when no flag but `--msa` is given: 100 iterations, "info", concurrency 3, no max flag. */
  function CliDefaults(msa: Option<string>): CliOptions {
    CliOptions(msa, Int(PARSIMONY_ITERATIONS), "info", Int(CONCURRENCY), Some(false))
  }
}
