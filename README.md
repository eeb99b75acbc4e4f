# popsy, modelled in Dafny

Popsy is a command-line wrapper that runs a phylogenetic pipeline. It has four parts:

- **Parsimony batch.** It runs a batch of MPBoot parsimony jobs (`parsimonyIterations` of them, at most `concurrency` at a time), one record per job. It then concatenates the tree files and moves the iteration outputs into a timestamped results folder.
- **Likelihood stage.** It runs IQ-TREE once on the combined tree and moves its outputs.
- **Orchestrator.** It logs the run's parameters, runs the stages and reports where the results are and how long the run took. When a stage fails, it diagnoses the error and throws it again.
- **Helpers.** A levelled logger, two argument handlers, two timestamp layouts with a duration formatter, and a child-process runner.

This project models that sequential layer and proves properties of it. Each TypeScript file of the core has a module of its own:

| module | file |
|---|---|
| `Logging` | src/log.ts |
| `CliArgs` | src/cli/args.ts |
| `Args` | src/args.ts |
| `UtilsTime` | src/utils/time.ts |
| `SystemTime` | src/system/time.ts |
| `Commands` | src/system/commands.ts |
| `Utils` | `createTimestampFolder` of src/utils.ts and src/utils/files.ts |
| `Files` | `moveFiles` of src/utils/files.ts |
| `PipelineParsimony` | src/pipeline/parsimony.ts |
| `Parsimony` | src/parsimony.ts |
| `Likelihood` | src/pipeline/likelihood.ts |
| `Popsy` | src/popsy.ts |

Support modules:

- `Constants`: src/common/constants.ts.
- `Options`: the parsed option records.
- `Effects`: the steps a stage performs.
- `Builtins`: the JavaScript built-ins the code relies on.
- `Wrappers`: `Option` and `Result`.

How the model stands in for the runtime:

- **Logging.** The logger is a value, and every effectful member returns the calls it makes on it (`Call(level, message)`) in order. `Log.Emit` says which console line each call becomes.
- **Stage traces.** A stage returns its trace: logger calls and actions (a command run, or a file step) interleaved in the order they happen.
- **Commands and file steps.** Each command's settlement comes from a host oracle (`Host.run`). Each file step's rejection comes from a file oracle (`FileOracle`).
- **Job order.** The order in which the parsimony jobs complete is a parameter (`schedule`), a permutation of the job indices. Records are pushed in that order, as `results.push` does.
- **State.** Where the source updates an object's fields, the model is a class with those fields:
  - `validateArgs` on both `Args` classes;
  - the working directory of `moveFiles`;
  - the buffers of `executeCommand`, which are loop variables of `Commands.ExecuteCommand`.

  Each method is proved against a specification function: `Construct`, `Analysis`, `RunBatch`, `OutcomeOf` and so on. The lemmas are about those functions.

What the code does at its edges, and the model with it:

- The parsimony results are pushed in completion order (`results.push`), not by job index. Only with concurrency 1 does record k belong to job k + 1 (`PipelineParsimony.InOrderRecords`).
- src/args.ts copies programmatic options without checking them, so any JavaScript number reaches the parsimony stage as a count: a fraction, an infinity, zero or a negative value. `Builtins.Num` holds all of these.
- With a truthy `maxConcurrency` the stage uses `MAX_CONCURRENCY` whatever `concurrency` is. Otherwise p-limit rejects the concurrency when it is NaN, non-positive or a fraction (`Effects.PLimit`), and the stage fails before any job starts.
- `Array.from` truncates a fractional `parsimonyIterations`. It gives an empty batch for NaN or a non-positive count; the mv still runs and "All jobs complete." is still logged. It throws a RangeError ("Invalid array length") for a count above 2^32 - 1 or for +Infinity (`Builtins.ArrayLength`).
- src/popsy.ts runs only the parsimony stage of src/parsimony.ts. The likelihood stage is modelled on its own, as src/pipeline/likelihood.ts defines it.

## Model

| member | source | states |
|---|---|---|
| `Constants.Level.Severity` | src/common/constants.ts:23-28 | each level's number is at most 3 (ERROR 0, WARN 1, INFO 2, DEBUG 3) |
| `Logging.SeverityOrder` | src/common/constants.ts:23-28 | ERROR < WARN < INFO < DEBUG, so every level enables itself and all below it |
| `Logging.Log.Emit` | src/log.ts:19-22 | a call prints a line iff its severity is at most the logger's level; the line goes to the call's own console channel, is stamped `[<timestamp>] [`, and ends with the message |
| `Logging.EmitIff` | src/log.ts:10-12 | both directions of "emitted iff severity <= level" for every logger and call |
| `Logging.ErrorAlwaysEmitted` | src/log.ts:19 | `error` prints at every level, on console.error, as `[ts] [ERROR] message` |
| `Logging.DefaultLevelFilters` | src/log.ts:8 | at the default level INFO: debug is suppressed; error, warn and info are printed; info goes to console.log |
| `Logging.EmitMonotone` | src/log.ts:10-12 | raising the level never suppresses a line a lower level printed, and the line is unchanged |
| `Logging.Log.Render` | src/log.ts:19-22 | a sequence of calls prints at most one line per call |
| `Logging.Log.Shown` | src/log.ts:10-12 | the positions of the calls the level lets through are positions of calls |
| `Logging.ShownPassesLevel` | src/log.ts:10-12 | every position the level lets through is that of a call whose severity is at most the level |
| `Logging.ShownCoversLevel` | src/log.ts:10-12 | every call whose severity is at most the level has its position among those let through |
| `Logging.ShownIncreasing` | src/log.ts:10-12 | the positions let through are strictly increasing, so the lines keep call order |
| `Logging.RenderIsShown` | src/log.ts:10-22 | the printed lines are exactly the lines of the calls the level lets through, in call order: line j is the emitted line of the j-th such call, with that call's own timestamp |
| `Logging.RenderAllShown` | src/log.ts:10-22 | when every call passes the level, line k is the emitted line of call k |
| `Logging.RenderMonotone` | src/log.ts:10-22 | raising the level only adds lines: the lower level's output is a subsequence of the higher level's, each line unchanged |
| `Logging.RenderAtDebug` | src/log.ts:10-22 | at DEBUG every call prints one line, and line k is call k's message on its level's channel, stamped with timestamp k and tagged with its level |
| `Logging.TaggedRoundTrip` | src/log.ts:16 | the part of a line after the timestamp reads back as its tag and message |
| `Logging.FormatRoundTrip` | src/log.ts:14-17 | `[ts] [TAG] message` reads back as its three parts when ts and TAG hold no `]` |
| `Logging.EmittedLineReadsBack` | src/log.ts:14-22 | every printed line reads back as the call's own level tag and message |
| `CliArgs.ValidateLogLevel` | src/cli/args.ts:99-113 | a string whose lower case names a level decodes to that level silently; any other string gives INFO and one warning quoting the string as given |
| `CliArgs.DecodeIgnoresCase` | src/cli/args.ts:100 | two strings that lower-case alike decode to the same level, with the same number of warnings |
| `CliArgs.DecodeNames` | src/cli/args.ts:100-108 | "error", "warn", "info", "debug" and their upper-case forms decode to their level without a warning |
| `CliArgs.UnknownLevelWarnsOnce` | src/cli/args.ts:109-111 | a string naming no level yields INFO and exactly one WARN call |
| `CliArgs.ValidateCount` | src/cli/args.ts:86-95 | a positive count is kept silently; a count <= 0 or NaN becomes the default with exactly one warning |
| `CliArgs.ValidatedCountPositive` | src/cli/args.ts:86-95 | with a positive default, a validated count is positive; it is an integer whenever the input is an integer or NaN (every parseInt result), and a fraction only when the input is a positive fraction |
| `CliArgs.ThrowsIffMsaMissing` | src/cli/args.ts:78-82 | construction throws iff the msa is absent or blank (both directions, on either path), and then with "Missing required argument: --msa (must be a valid file path)." |
| `CliArgs.CountsPositive` | src/cli/args.ts:72-95 | after any successful construction both counts are positive, and from the command line they are positive integers |
| `CliArgs.WarningsDiffer` | src/cli/args.ts:86-111 | the level warning and the two count warnings are three different messages |
| `CliArgs.AssignCalls` | src/cli/args.ts:26-70 | the only call the assignment can make is the unknown-level warning |
| `CliArgs.CountRule` | src/cli/args.ts:86-95 | each count is kept iff positive, else defaulted, and its warning occurs exactly once iff it was defaulted |
| `CliArgs.MsaCheckedBeforeCounts` | src/cli/args.ts:72-74 | when the msa check throws, no count was validated and no count warning was logged |
| `CliArgs.ProgrammaticPath` | src/cli/args.ts:26-32 | with options, the command line is ignored; msa and level come from the options; an absent maxConcurrency becomes false; only count warnings can be logged |
| `CliArgs.CliPathDecodesFirst` | src/cli/args.ts:65-69 | on the command-line path the level's warning comes before any other call, and the decoded level and `maxConcurrency ?? false` are kept |
| `CliArgs.DefaultsAreQuiet` | src/cli/args.ts:40-53 | commander's defaults with a given msa construct silently to 100 iterations, INFO, concurrency 3, no max |
| `CliArgs.Args.Assigning` | src/cli/args.ts:26-70 | the constructor's fields before validation are those of `Assign` |
| `CliArgs.Args.ValidateRequiredArgs` | src/cli/args.ts:78-82 | throws iff msa is absent or blank, with the fixed message |
| `CliArgs.Args.ValidateArgs` | src/cli/args.ts:85-96 | each count is overwritten by its validated value, one warning appended per defaulted count, other fields unchanged |
| `CliArgs.Args.Create` | src/cli/args.ts:16-75 | the object's fields and the logged calls are exactly those of `Construct`, or the thrown error is |
| `Args.ValidateLogLevel` | src/args.ts:77-86 | the same case-insensitive decoding, with this file's warning "Unknown log level \"…\", defaulting to INFO" |
| `Args.ExitsIffFalsyMsa` | src/args.ts:51-61 | only the command-line path exits, exactly when msa is absent or empty, with status 1; the last call logged is the error |
| `Args.ProgrammaticUnchecked` | src/args.ts:19-24 | programmatic options are copied verbatim, and nothing is logged or checked |
| `Args.CliPathCounts` | src/args.ts:45-73 | on the command-line path each count is kept iff positive, else 100 or 3; both come out positive; one warning per defaulted count |
| `Args.SameLevels` | src/args.ts:77-86 | both handlers decode every string to the same level and warn in the same cases |
| `Args.BlankMsaContrast` | src/args.ts:58-61 | a whitespace-only msa: src/cli/args.ts throws, this handler accepts it |
| `Args.MissingMsaContrast` | src/args.ts:57-62 | no msa: src/cli/args.ts throws its message, this handler exits with 1 |
| `Args.ProgrammaticCountContrast` | src/args.ts:19-25 | a non-positive programmatic concurrency: src/cli/args.ts restores 3, this handler keeps it |
| `Args.Args.ValidateRequiredArgs` | src/args.ts:57-62 | yields exit status 1 iff msa is falsy, having logged the error; no field changes |
| `Args.Args.ValidateArgs` | src/args.ts:65-74 | each count is overwritten by its validated value, with this file's warnings |
| `Args.Args.FromOptions` | src/args.ts:19-24 | the fields are the options as given |
| `Args.Args.FromCli` | src/args.ts:45-49 | the fields are the parsed options, the decoded level, and `maxConcurrency ?? false` |
| `Args.Args.Create` | src/args.ts:15-54 | the object, or the exit status, and the logged calls, are exactly those of `Construct` |
| `Builtins.Pad` | src/utils/time.ts:4 | the padded field is digits reading back as n: two characters below 100, all the digits (never truncated) from 100 on |
| `Builtins.PadIsPadStart` | src/utils/time.ts:14 | `Pad(n)` is `n.toString().padStart(2, "0")` |
| `Builtins.PadStart` | src/utils/time.ts:14 | the result is max(width, length) long, ends with the input and is filled in front |
| `Builtins.ToLower` | src/cli/args.ts:100 | same length, each character lower-cased |
| `Builtins.TrimEmptyIffBlank` | src/cli/args.ts:79 | `s.trim().length === 0` iff every character of s is whitespace |
| `Builtins.Join` | src/utils.ts:57 | `join(a, b)` of two non-empty relative segments is a, '/', b |
| `Builtins.ToLength` | src/pipeline/parsimony.ts:26 | a length is at most 2^53 - 1, and 0 for NaN or a non-positive number |
| `Builtins.ArrayLength` | src/pipeline/parsimony.ts:26 | `Array.from({length: n})` has n entries for an integer 0 <= n <= 2^32 - 1; none for NaN or n <= 0; the integer part of a positive fraction; and throws a RangeError above 2^32 - 1 or for +Infinity |
| `Builtins.IntToString` | src/system/commands.ts:47 | a negative code prints with a '-' before its digits |
| `UtilsTime.TimePartReadsBack` | src/utils/time.ts:5 | `HH-MM-SS` reads back as the hours, minutes and seconds |
| `UtilsTime.DatePartReadsBack` | src/utils/time.ts:5 | `DD-MM-YYYY` reads back as day, getMonth() + 1 and year |
| `UtilsTime.TimestampHalves` | src/utils/time.ts:5 | the first '_' separates the time half from the date half |
| `UtilsTime.TimestampRoundTrip` | src/utils/time.ts:1-6 | parsing `HH-MM-SS_DD-MM-YYYY` recovers every date field (src/utils.ts:47-52 is the same function) |
| `UtilsTime.TimestampLength` | src/utils/time.ts:4-5 | for in-range fields and a four-digit year the timestamp is 19 characters |
| `UtilsTime.TimestampAlphabet` | src/utils/time.ts:5 | the timestamp holds only digits, '-' and '_' |
| `UtilsTime.Decompose` | src/utils/time.ts:10-13 | h·3600 + m·60 + s = ms div 1000 with m, s < 60 (src/utils.ts:81-88 is the same function) |
| `UtilsTime.DecomposeUnique` | src/utils/time.ts:10-13 | that decomposition is the only one with minutes and seconds below 60 |
| `UtilsTime.DurationRoundTrip` | src/utils/time.ts:9-16 | `HH:MM:SS` reads back as the decomposition |
| `UtilsTime.DurationUnderASecond` | src/utils/time.ts:15 | any ms < 1000 prints as 00:00:00 |
| `UtilsTime.DurationLength` | src/utils/time.ts:14-15 | the output is 8 characters iff the hours are below 100; beyond that it starts with all the hours' digits |
| `SystemTime.DatePartReadsBack` | src/system/time.ts:5 | `DD-MM-YYYY` reads back as day, getMonth() + 1 and year |
| `SystemTime.TimePartReadsBack` | src/system/time.ts:5 | `HH:MM:SS` reads back as hours, minutes and seconds |
| `SystemTime.TimestampHalves` | src/system/time.ts:5 | the first '_' separates the date half from the time half |
| `SystemTime.TimestampRoundTrip` | src/system/time.ts:1-6 | parsing `DD-MM-YYYY_HH:MM:SS` recovers every date field |
| `SystemTime.TimestampLength` | src/system/time.ts:4-5 | for in-range fields and a four-digit year this layout is 19 characters too |
| `SystemTime.LayoutsSwapHalves` | src/system/time.ts:5 | the two layouts put the same halves in opposite order; the time halves differ only in their separator |
| `SystemTime.FormatDuration` | src/system/time.ts:9-16 | equals src/utils/time.ts's `formatDuration` on every input |
| `SystemTime.DurationFields` | src/system/time.ts:10-13 | the printed fields read back as a decomposition of the whole seconds with minutes and seconds below 60 |
| `Utils.CreateTimestampFolder` | src/utils.ts:55-66 | the returned path's first '/' separates "results" from the whole timestamp |
| `Utils.FolderNamesItsDate` | src/utils.ts:56-57 | the folder's name reads back as the date it was made from |
| `Utils.FoldersDistinct` | src/utils.ts:56-57 | distinct dates give distinct folders |
| `Commands.Settle` | src/system/commands.ts:35-40 | resolves iff the event is `close` with 0, carrying both buffers and 0; otherwise a CommandError with both buffers and a non-zero code |
| `Commands.NonZeroExitRejects` | src/system/commands.ts:35-37 | when the first terminal event is `close` with a code other than 0, or null, the promise rejects with CommandError("Process failed", the buffers so far, code ?? 1), whatever follows |
| `Commands.SpawnErrorRejects` | src/system/commands.ts:40 | when the first terminal event is `error`, the promise rejects with CommandError(the error's message, the buffers so far, 1), whatever follows |
| `Commands.NullExitDiagnosed` | src/system/commands.ts:35-47 | a child closing with a null code is diagnosed with "[ctx] Failed with code 1" as the first error line |
| `Commands.ExecuteCommand` | src/system/commands.ts:22-42 | the loop's settlement is `OutcomeOf(events)`, and its writes are the chunks mirrored iff `log ?? true` (src/utils.ts:25-45 is the same function) |
| `Commands.StdoutConcatenates` | src/system/commands.ts:32 | the stdout buffer of two event runs is the concatenation of their stdout buffers |
| `Commands.StderrConcatenates` | src/system/commands.ts:33 | the same for the stderr buffer |
| `Commands.StreamsDoNotMix` | src/system/commands.ts:32-33 | a stderr chunk never changes the stdout buffer, and a stdout chunk never changes the stderr buffer |
| `Commands.SettlesOnce` | src/system/commands.ts:27-41 | once settled, later events never change the settlement |
| `Commands.PendingIffNoTerminal` | src/system/commands.ts:35-40 | the promise is pending iff no `close` or `error` has arrived |
| `Commands.FirstTerminalDecides` | src/system/commands.ts:27-41 | the first terminal event decides the outcome, with the buffers as they were just before it |
| `Commands.MirrorCarriesBuffers` | src/system/commands.ts:25-33 | with mirroring off nothing is written; with it on each parent stream receives the chunks' decoded text, which is its buffer |
| `Commands.SucceedingChild` | tests/utils.test.ts:32-47 | stdout "output", empty stderr and exit 0 resolve with those buffers and code 0 |
| `Commands.FailingChild` | tests/utils.test.ts:49-60 | stderr "error" and exit 1 reject with "Process failed", that stderr and code 1 |
| `Commands.HandleCommandError` | src/system/commands.ts:45-54 | the same error is rethrown; for a CommandError the lines are "[ctx] Failed with code N", then STDOUT iff non-empty, then STDERR iff non-empty; otherwise exactly one "Unexpected error" line; all at ERROR (src/utils.ts:69-78 is the same function) |
| `Commands.DiagnosisAlwaysPrinted` | src/system/commands.ts:46-52 | every diagnostic line is printed whatever the logger's level: line k is diagnostic k's message as `[ts] [ERROR] message` on console.error |
| `Commands.AllErrorsRendered` | src/log.ts:19 | a sequence of error calls prints, at any level, line k as `[ts_k] [ERROR] message_k` on console.error |
| `Effects.PLimit` | src/pipeline/parsimony.ts:23 | p-limit rejects a concurrency exactly when it is NaN, non-positive or a fraction (+Infinity is accepted), always with its TypeError message |
| `Files.Filter` | src/utils/files.ts:33 | the filtered names are exactly the listed names the pattern matches |
| `Files.MatchedFilesOfListing` | src/utils/files.ts:32-33 | from a listing of the directory, the files worked on are the matched entries, each once; there are none iff nothing matches |
| `Files.RemainingIs` | src/utils/files.ts:44-57 | whatever the order of the attempts, exactly the files whose move succeeds leave the directory |
| `Files.PlacedIs` | src/utils/files.ts:44-57 | whatever the order, exactly the successful moves' destinations appear |
| `Files.OneLinePerAttempt` | src/utils/files.ts:45-56 | every attempt logs exactly one line about its own file, in attempt order |
| `Files.FileLineMeaning` | src/utils/files.ts:49-54 | a move's line is an error naming the file and `stderr ?? message` iff the move failed, else a debug "Moved" line |
| `Files.EachMatchedFileAccounted` | src/utils/files.ts:44-57 | whatever order the moves settle in, each matched file is attempted exactly once, and its own line says whether it moved |
| `Files.MoveKeepsName` | src/utils/files.ts:47-50 | the destination is under the destination folder and ends with "/" and the file's name |
| `Files.Workspace.MoveFiles` | src/utils/files.ts:26-60 | no match: one warning and no change; a rejected limit: the listing line, then p-limit's rejection; otherwise the successful files leave, their destinations appear, and the log has the listing line, one line per file in the order the moves settle (any rearrangement of the matches) and the closing line even when some moves failed; unmatched entries always stay |
| `Files.Workspace.MoveEach` | src/utils/files.ts:44-57 | the attempts in the order given update the directory and the log as `Remaining`, `Placed` and `FileLines` say |
| `Files.Workspace.MoveOne` | src/utils/files.ts:46-55 | one `mv`: on success the file leaves and its destination appears; either way exactly its one line is logged; it never rejects |
| `PipelineParsimony.PrefixReadsBack` | src/pipeline/parsimony.ts:28 | job i's prefix is "iteration" followed by the digits of i + 1 |
| `PipelineParsimony.PrefixesDistinct` | src/pipeline/parsimony.ts:26-29 | different jobs have different prefixes |
| `PipelineParsimony.JobListShape` | src/pipeline/parsimony.ts:26-29 | n vectors of four entries, each naming the alignment and its own prefix, pairwise distinct |
| `PipelineParsimony.EffectiveConcurrency` | src/pipeline/parsimony.ts:22 | the CPU count when maxConcurrency is set, else the configured concurrency |
| `PipelineParsimony.ValidatedConcurrencyAccepted` | src/pipeline/parsimony.ts:22-23 | on a machine with a CPU, validated arguments make p-limit reject exactly when maxConcurrency is false and the concurrency is a (programmatic) fraction; parsed command-line arguments never make it reject |
| `PipelineParsimony.FractionalOptions` | src/cli/args.ts:86-95 | programmatic fractional counts (concurrency 1.5, iterations 2.5) pass validation unchanged and silently; p-limit then rejects the concurrency, and the iterations give two jobs |
| `PipelineParsimony.FailureRecord` | src/pipeline/parsimony.ts:41-46 | a failure record keeps the error and the job number, and the buffers iff the error is a CommandError |
| `PipelineParsimony.InOrder` | tests/parsimony.test.ts:15-21 | the index order is a completion order of n jobs (concurrency 1, as in the test) |
| `PipelineParsimony.BatchLengths` | src/pipeline/parsimony.ts:32-49 | one record and three trace steps per job, however many fail |
| `PipelineParsimony.BatchShape` | src/pipeline/parsimony.ts:32-49 | position k of the batch belongs to the k-th completed job: its record, and "Starting", its command, then "Finished" or the error |
| `PipelineParsimony.FailedIffRecorded` | src/pipeline/parsimony.ts:39-47 | job j failed iff some record is a failure numbered j + 1, and every such record is its failure record |
| `PipelineParsimony.CompletedRecorded` | src/pipeline/parsimony.ts:36-38 | a job that succeeded leaves its own result among the records |
| `PipelineParsimony.InOrderRecords` | src/pipeline/parsimony.ts:41-44 | run in index order, record k belongs to job k + 1 |
| `PipelineParsimony.RunJobs` | src/pipeline/parsimony.ts:32-49 | the `results.push` loop yields the records and trace of `RunBatch` |
| `PipelineParsimony.BatchStepsAreJobs` | src/pipeline/parsimony.ts:35-40 | every batch line is a job line and every action runs the tool with the job's mirroring |
| `PipelineParsimony.CompleteLineIsNoJobLine` | src/pipeline/parsimony.ts:54 | "All jobs complete." is not a job's line |
| `PipelineParsimony.JobsRunTheTool` | src/pipeline/parsimony.ts:21-36 | every job runs lib/mpboot-avx with its own argument vector, mirrored iff the level is DEBUG |
| `PipelineParsimony.ParsimonyAnalysis.ExecuteParsimonyAnalysis` | src/pipeline/parsimony.ts:20-56 | p-limit rejects before anything runs; or the Array constructor throws "Invalid array length" before anything runs; or: every job, then the concatenation, then the move with `args.concurrency`; the first rejected file step is the error and nothing follows it; otherwise the records and the closing line |
| `Parsimony.JobFailuresContained` | src/parsimony.ts:35-55 | the stage fails iff p-limit refuses, the iteration count is an invalid array length (both before anything runs), or the `mv` rejects; a failing job never makes it fail |
| `Parsimony.OneRecordPerJob` | src/parsimony.ts:35-52 | a successful stage has a valid array length and returns one record per job of it, and job j failed iff a failure numbered j + 1 is among them |
| `Parsimony.MoveAfterJobs` | src/parsimony.ts:35-55 | every job runs MPBoot with its own vector, and the single `mv` is the step right after the last job |
| `Parsimony.MoveFailurePropagates` | src/parsimony.ts:54-56 | a rejected `mv` is the stage's error, and "All jobs complete." is not logged |
| `Parsimony.CompletionLoggedLast` | src/parsimony.ts:54-57 | a successful stage ends with the `mv` and then "All jobs complete." |
| `Parsimony.StageLinesTagged` | src/parsimony.ts:38-56 | every line the stage logs starts with "[Parsimony] " |
| `Parsimony.RunsJobs` | tests/parsimony.test.ts:30-35 | with every command resolving "ok", two records, the first carrying "ok" |
| `Parsimony.HandlesFailures` | tests/parsimony.test.ts:37-43 | the first job rejecting with Error("fail") gives a failure record first, and the batch still completes |
| `Parsimony.ParsimonyAnalysis.ExecuteParsimonyAnalysis` | src/parsimony.ts:23-58 | the method's outcome and trace are those of `Analysis` |
| `Likelihood.TreeIsParsimonyOutput` | src/pipeline/likelihood.ts:13 | the tree read is the combined tree in the timestamp folder's `parsimony` sub-folder |
| `Likelihood.CommandShape` | src/pipeline/likelihood.ts:12-20 | eight entries with the flags at the even positions; the alignment; the CPU count as thread count whatever maxConcurrency says; mirrored iff DEBUG |
| `Likelihood.FailureStops` | src/pipeline/likelihood.ts:22-26 | a rejected run is the stage's error; only "Starting" is logged and no move is attempted |
| `Likelihood.SuccessMoves` | src/pipeline/likelihood.ts:24-26 | after a successful run the only file step is the move of "likelihood.*" with the configured concurrency, and its rejection is the outcome |
| `Likelihood.LikelihoodAnalysis.ExecuteLikelihoodAnalysis` | src/pipeline/likelihood.ts:11-27 | the method's outcome and trace are those of `Analysis` |
| `Popsy.StageFolder` | src/popsy.ts:31-42 | the stage runs in `results/<timestamp>/parsimony`, the `parsimony` sub-folder of the run's folder |
| `Popsy.ParametersFirst` | src/popsy.ts:33-47 | the five parameter lines come first, and the stage's steps follow them unchanged |
| `Popsy.ConcurrencyLineForm` | src/popsy.ts:36-38 | the concurrency line is in the max form iff maxConcurrency is truthy |
| `Popsy.FourthIsConcurrency` | src/popsy.ts:33-38 | the fourth step logs the concurrency line |
| `Popsy.OneConcurrencyLine` | src/popsy.ts:33-53 | no other step of the run logs a concurrency line |
| `Popsy.FailureRethrown` | src/popsy.ts:46-50 | a failed stage's error is diagnosed and thrown again |
| `Popsy.NoSummaryAfterFailure` | src/popsy.ts:46-53 | after a failure neither completion line is logged |
| `Popsy.SuccessEndsWithSummary` | src/popsy.ts:52-53 | after a success nothing is thrown, and the last two lines are the results path, then the duration |
| `Popsy.Popsy.Create` | src/popsy.ts:16-19 | the logger is the given one or the INFO default; given arguments are used as they are; otherwise src/args.ts builds them from the command line and may exit instead |
| `Popsy.Popsy.Execute` | src/popsy.ts:27-54 | the method's outcome and trace are those of `Pipeline` for the run's folder, its stage and its formatted duration |

## Left out

- Real concurrency, and p-limit's "at most C in flight" admission, are not modelled. The parsimony jobs and the moves of `moveFiles` run one after another, in the order they settle. That order is a parameter: `schedule` for the jobs, a rearrangement `attempts` of the matched files for the moves.
- JavaScript numbers are modelled exactly: `Builtins.Num` is an integer, a finite decimal fraction, a signed infinity or NaN. Rounding to double precision (integers above 2^53, fractions with many digits) and negative zero are not modelled.
- Exponent notation is not modelled. `Builtins.NumToString` prints every integer and finite fraction in full, where JavaScript's `toString` switches to exponent form from 1e21 up and below 1e-6.
- Byte-level encoding is not modelled. A chunk is the text `data.toString()` gives, and the model mirrors that text. The source writes the raw bytes to the parent stream, which differ from the buffer when a chunk boundary splits a multi-byte UTF-8 character, or when the output is not UTF-8.
- The promise settling in `executeCommand` is modelled; spawning the child is not. What `spawn` delivers is an input list of events, and callers get settlements from the host oracle.
- A child that never emits `close` or `error` leaves `executeCommand` pending forever, and with it the stage and `execute()`. `Commands.ExecuteCommand` models that pending case (`OutcomeOf` is None), but `Host.run` always settles: the stage-level model assumes every command settles.
- `commander` flag parsing is not modelled. The model starts from the parsed option record, with NaN as the `parseInt` failure case.
- `readdir` is not modelled: its listing is an input. `mkdirSync` and `existsSync` are not modelled either. `createTimestampFolder` is modelled only through the path it returns.
- concatFiles and the pipeline's moveFiles live in src/system/files.ts, which is not part of this model. They are opaque file steps whose rejection comes from an oracle. `Files` models the moveFiles of src/utils/files.ts.
- The regex test `f.match(pattern)` is an abstract predicate given alongside the pattern text.
- `Date` and `performance.now()` are parameters: date fields, and a whole number of elapsed milliseconds. A fractional or negative `ms` is not modelled.
- `os.cpus().length` (MAX_CONCURRENCY) is the host's `cpus` field.
- `toLowerCase` maps only the ASCII letters.
- `path.join` is modelled for relative segments with nothing to normalise, apart from "./lib" being written "lib". The tool paths join the host's working directory, which is absolute, the same way: when that directory is "/" the model gives "//lib/…", where `path.join` normalises to "/lib/…". `Join("", "")` is "" where `path.join("", "")` is "."; no call joins two empty segments.
- The logger's own timestamp is a parameter of `Log.Emit`.
- The stage traces are kept as logger calls. `Log.Render` is not applied to them.
- src/utils.ts repeats `executeCommand`, `getTimestamp`, `handleCommandError` and `formatDuration` character for character. They are modelled once, in `Commands` and `UtilsTime`.
- src/constants.ts, src/common/log.ts and src/system/files.ts, which some files import, are not part of this model. The copies shown (src/common/constants.ts, src/log.ts) stand in for the first two.
- A JavaScript constructor that throws or exits has no Dafny counterpart. `CliArgs.Args.Create`, `Args.Args.Create` and `Popsy.Popsy.Create` are static methods that return the object or the error.
- A process exit is modelled as the outcome `Failure(1)`: nothing after it runs.
- checkNodeVersion (src/system/utils.ts) and the entry points src/main.ts and src/cli/main.ts are not modelled. They read process state and exit.
- tests/args.test.ts and tests/popsy.test.ts target an older interface that the code no longer has (an `iterations` field, `new Args()` without a logger). No property is drawn from them.
- The module tests/parsimony.test.ts mocks (src/utils/commands) is not part of this model. `Parsimony.RunsJobs` and `Parsimony.HandlesFailures` model that mock as the host oracle.
