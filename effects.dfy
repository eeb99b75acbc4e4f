/**
 * The side effects the pipeline stages perform, as values. A stage method returns the list of
 * actions it performed, in order, alongside its outcome; whether a file step fails is decided
 * by an oracle (`FileOracle`), as whether a command fails is decided by `Host.run`.
 *
 * `concatFiles` and the `moveFiles` the pipeline calls live in src/system/files.ts, which is not
 * part of this model; they are opaque steps here.
 */
module Effects {
  import opened Wrappers
  import opened Builtins
  import opened Logging
  import opened Commands

  /** A call into the file helpers: `concatFiles(pattern, output)` or `moveFiles(pattern, dest, log, maxConcurrent)`. */
  datatype FileStep =
    | ConcatFiles(pattern: string, output: string)
    | MoveFiles(pattern: string, dest: string, maxConcurrent: Num)

  /** Whether a file step rejects, and with what. */
  type FileOracle = FileStep -> Option<Thrown>

  /** One observable action of a stage: a child process started, or a file step. */
  datatype Action = Run(invocation: Invocation) | File(step: FileStep)

  /** One step of a stage's trace: a call on the logger, or an action, in the order they happen. */
  datatype Step = Logged(call: Call) | Acted(action: Action)

  /** The logger calls of a trace, in order. */
  function Calls(trace: seq<Step>): seq<Call> {
    if trace == [] then []
    else
      var last := trace[|trace| - 1];
      Calls(trace[..|trace| - 1]) + (if last.Logged? then [last.call] else [])
  }

  /** The actions of a trace, in order. */
  function Actions(trace: seq<Step>): seq<Action> {
    if trace == [] then []
    else
      var last := trace[|trace| - 1];
      Actions(trace[..|trace| - 1]) + (if last.Acted? then [last.action] else [])
  }

  /** The calls of two traces run one after the other are the calls of the first, then those of the second. */
  lemma {:induction false} CallsAppend(p: seq<Step>, q: seq<Step>)
    ensures Calls(p + q) == Calls(p) + Calls(q)
    decreases |q|
  {
    if q != [] {
      assert (p + q)[..|p + q| - 1] == p + q[..|q| - 1];
      CallsAppend(p, q[..|q| - 1]);
    } else {
      assert p + q == p;
    }
  }

  /** The same for the actions. */
  lemma {:induction false} ActionsAppend(p: seq<Step>, q: seq<Step>)
    ensures Actions(p + q) == Actions(p) + Actions(q)
    decreases |q|
  {
    if q != [] {
      assert (p + q)[..|p + q| - 1] == p + q[..|q| - 1];
      ActionsAppend(p, q[..|q| - 1]);
    } else {
      assert p + q == p;
    }
  }

  /** A one-step trace projects to its call or its action. */
  lemma Single(e: Step)
    ensures Calls([e]) == (if e.Logged? then [e.call] else [])
    ensures Actions([e]) == (if e.Acted? then [e.action] else [])
  {
    assert [e][..0] == [];
  }

  /** Every step is a call or an action, so the two projections together are as long as the trace. */
  lemma {:induction false} ProjectionsPartition(trace: seq<Step>)
    ensures |Calls(trace)| + |Actions(trace)| == |trace|
    ensures forall c :: c in Calls(trace) <==> Logged(c) in trace
    ensures forall a :: a in Actions(trace) <==> Acted(a) in trace
  {
    if trace != [] {
      var init := trace[..|trace| - 1];
      ProjectionsPartition(init);
      assert trace == init + [trace[|trace| - 1]];
    }
  }

  const PLimitMessage := "Expected `concurrency` to be a number from 1 and up"

  /**
   * `pLimit(concurrency)`: p-limit throws a TypeError unless the concurrency is a positive integer
   * or positive Infinity, so it rejects NaN, every number <= 0 and every fraction.
   */
  function PLimit(concurrency: Num): (thrown: Option<Thrown>)
    ensures thrown.Some? <==> NotPositive(concurrency) || concurrency.Frac?
    ensures thrown.Some? ==> thrown == Some(Plain(PLimitMessage))
  {
    match concurrency
    case Int(v) => if v > 0 then None else Some(Plain(PLimitMessage))
    case Infinity(negative) => if negative then Some(Plain(PLimitMessage)) else None
    case _ => Some(Plain(PLimitMessage))
  }
}
