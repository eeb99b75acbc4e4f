/**
 * src/pipeline/likelihood.ts: one IQ-TREE run on the alignment and the combined parsimony tree,
 * then the move of its outputs. A rejected run propagates: nothing after it happens.
 */
module Likelihood {
  import opened Wrappers
  import opened Builtins
  import opened Constants
  import opened Logging
  import opened Commands
  import opened Effects
  import CliArgs
  import PipelineParsimony

  /** `"parsimony/parsimony_combined.treefile"` */
  const TreeFile := "parsimony" + "/" + PipelineParsimony.CombinedTree
  const StartingLine := "[Likelihood] Starting"
  const CompleteLine := "[Likelihood] Complete"
  const MoveStep := "likelihood.*"

  /** `cmdArgs`: the alignment, the parsimony tree under the timestamp folder, MAX_CONCURRENCY threads, prefix "likelihood". */
  function CmdArgs(host: Host, msa: string, timestampFolderPath: string): seq<string> {
    ["-s", msa, "-t", Join(timestampFolderPath, TreeFile), "-nt", NatToString(host.cpus), "-pre", "likelihood"]
  }

  /** `executeCommand(likelihoodPath, cmdArgs, { log: shouldLog })` */
  function LikelihoodCommand(host: Host, args: CliArgs.Settings, timestampFolderPath: string): Invocation {
    Invocation(ToolPath(host, IQTREE_PATH), CmdArgs(host, args.msa, timestampFolderPath), args.logLevel == DEBUG)
  }

  /** The outcome (a rejection, if any) and the trace of one run of the stage. */
  datatype Stage = Stage(outcome: Option<Thrown>, trace: seq<Step>)

  /** `executeLikelihoodAnalysis(timestampFolderPath, folderPath)` as a whole. */
  function Analysis(host: Host, files: FileOracle, args: CliArgs.Settings, timestampFolderPath: string, folderPath: string): Stage {
    var inv := LikelihoodCommand(host, args, timestampFolderPath);
    var started := [Logged(Call(INFO, StartingLine)), Acted(Run(inv))];
    match host.run(inv)
    case Rejected(err) => Stage(Some(err), started)
    case Resolved(_) =>
      var move := MoveFiles(MoveStep, folderPath, args.concurrency);
      Stage(files(move), started + [Logged(Call(INFO, CompleteLine)), Acted(File(move))])
  }

  /**
   * The tree the run reads is the file the parsimony stage concatenates into the timestamp
   * folder's `parsimony` sub-folder.
   */
  lemma TreeIsParsimonyOutput(timestampFolderPath: string)
    requires timestampFolderPath != ""
    ensures Join(timestampFolderPath, TreeFile) == Join(Join(timestampFolderPath, "parsimony"), PipelineParsimony.CombinedTree)
  {
    var a, b, c := timestampFolderPath, "parsimony", PipelineParsimony.CombinedTree;
    assert Join(Join(a, b), c) == (a + "/" + b) + "/" + c;
    assert Join(a, TreeFile) == a + "/" + (b + "/" + c);
  }

  /**
   * The vector is eight entries with the flags at the even positions; the thread count is the
   * CPU count whatever `maxConcurrency` says, and output is mirrored iff the level is DEBUG.
   */
  lemma CommandShape(host: Host, args: CliArgs.Settings, timestampFolderPath: string, maxConcurrency: bool)
    ensures var c := LikelihoodCommand(host, args, timestampFolderPath);
      && c.cmd == ToolPath(host, IQTREE_PATH) && |c.args| == 8
      && (forall k :: 0 <= k < 4 ==> c.args[2 * k] == ["-s", "-t", "-nt", "-pre"][k])
      && c.args[1] == args.msa && c.args[5] == NatToString(host.cpus)
      && (c.mirror <==> args.logLevel == DEBUG)
    ensures LikelihoodCommand(host, args.(maxConcurrency := maxConcurrency), timestampFolderPath) == LikelihoodCommand(host, args, timestampFolderPath)
  {
  }

  /** A rejected run is the stage's error: "Complete" is not logged and no move is attempted. */
  lemma FailureStops(host: Host, files: FileOracle, args: CliArgs.Settings, timestampFolderPath: string, folderPath: string)
    requires host.run(LikelihoodCommand(host, args, timestampFolderPath)).Rejected?
    ensures var s := Analysis(host, files, args, timestampFolderPath, folderPath);
      s.outcome == Some(host.run(LikelihoodCommand(host, args, timestampFolderPath)).error)
      && Calls(s.trace) == [Call(INFO, StartingLine)]
      && Actions(s.trace) == [Run(LikelihoodCommand(host, args, timestampFolderPath))]
  {
    var inv := LikelihoodCommand(host, args, timestampFolderPath);
    assert Analysis(host, files, args, timestampFolderPath, folderPath).trace == [Logged(Call(INFO, StartingLine)), Acted(Run(inv))];
    LogAct(Call(INFO, StartingLine), Run(inv));
  }

  /**
   * After a successful run the only file step is the move of "likelihood.*" with the configured
   * concurrency, and its rejection, if any, is the stage's outcome.
   */
  lemma SuccessMoves(host: Host, files: FileOracle, args: CliArgs.Settings, timestampFolderPath: string, folderPath: string)
    requires host.run(LikelihoodCommand(host, args, timestampFolderPath)).Resolved?
    ensures var s := Analysis(host, files, args, timestampFolderPath, folderPath);
      var move := MoveFiles(MoveStep, folderPath, args.concurrency);
      s.outcome == files(move)
      && Calls(s.trace) == [Call(INFO, StartingLine), Call(INFO, CompleteLine)]
      && Actions(s.trace) == [Run(LikelihoodCommand(host, args, timestampFolderPath)), File(move)]
  {
    var move := MoveFiles(MoveStep, folderPath, args.concurrency);
    var inv := LikelihoodCommand(host, args, timestampFolderPath);
    assert Analysis(host, files, args, timestampFolderPath, folderPath).trace
      == [Logged(Call(INFO, StartingLine)), Acted(Run(inv)), Logged(Call(INFO, CompleteLine)), Acted(File(move))];
    LogActLogAct(Call(INFO, StartingLine), Run(inv), Call(INFO, CompleteLine), File(move));
  }

  /** A call then an action project to the call and the action. */
  lemma LogAct(c1: Call, a1: Action)
    ensures Calls([Logged(c1), Acted(a1)]) == [c1]
    ensures Actions([Logged(c1), Acted(a1)]) == [a1]
  {
    var t := [Logged(c1), Acted(a1)];
    assert t == [t[0]] + [t[1]];
    CallsAppend([t[0]], [t[1]]);
    ActionsAppend([t[0]], [t[1]]);
    Single(t[0]);
    Single(t[1]);
  }

  /** A call, an action, a call and an action project to the two calls and the two actions. */
  lemma LogActLogAct(c1: Call, a1: Action, c2: Call, a2: Action)
    ensures Calls([Logged(c1), Acted(a1), Logged(c2), Acted(a2)]) == [c1, c2]
    ensures Actions([Logged(c1), Acted(a1), Logged(c2), Acted(a2)]) == [a1, a2]
  {
    var t := [Logged(c1), Acted(a1), Logged(c2), Acted(a2)];
    assert t == [t[0]] + [t[1]] + [t[2]] + [t[3]];
    CallsAppend([t[0]] + [t[1]] + [t[2]], [t[3]]);
    CallsAppend([t[0]] + [t[1]], [t[2]]);
    CallsAppend([t[0]], [t[1]]);
    ActionsAppend([t[0]] + [t[1]] + [t[2]], [t[3]]);
    ActionsAppend([t[0]] + [t[1]], [t[2]]);
    ActionsAppend([t[0]], [t[1]]);
    Single(t[0]);
    Single(t[1]);
    Single(t[2]);
    Single(t[3]);
  }

  /** `LikelihoodAnalysis` with the arguments it was constructed with. */
  class LikelihoodAnalysis {
    const args: CliArgs.Settings

    constructor (args: CliArgs.Settings)
      ensures this.args == args
    {
      this.args := args;
    }

    /** `executeLikelihoodAnalysis(timestampFolderPath, folderPath)`: log, run, log, move. */
    method ExecuteLikelihoodAnalysis(host: Host, files: FileOracle, timestampFolderPath: string, folderPath: string)
      returns (outcome: Option<Thrown>, trace: seq<Step>)
      ensures Stage(outcome, trace) == Analysis(host, files, args, timestampFolderPath, folderPath)
    {
      trace := [Logged(Call(INFO, StartingLine))];
      var inv := LikelihoodCommand(host, args, timestampFolderPath);
      trace := trace + [Acted(Run(inv))];
      var settled := host.run(inv);
      if settled.Rejected? {
        return Some(settled.error), trace;
      }
      trace := trace + [Logged(Call(INFO, CompleteLine))];
      var move := MoveFiles(MoveStep, folderPath, args.concurrency);
      trace := trace + [Acted(File(move))];
      outcome := files(move);
    }
  }
}
