/** Paths, defaults and logging levels of src/common/constants.ts. */
module Constants {

  /** `LogLevel`: ERROR = 0, WARN = 1, INFO = 2, DEBUG = 3. */
  datatype Level = ERROR | WARN | INFO | DEBUG {

    /** The enum's numeric value, by which the logger compares levels. */
    function Severity(): (n: nat)
      ensures this == ERROR ==> n == 0
      ensures this == WARN ==> n == 1
      ensures this == INFO ==> n == 2
      ensures this == DEBUG ==> n == 3
    {
      match this
      case ERROR => 0
      case WARN => 1
      case INFO => 2
      case DEBUG => 3
    }
  }

  const LIB_PATH := "./lib"
  const MPBOOT_PATH := "mpboot-avx"
  const IQTREE_PATH := "iqtree2"
  const RESULTS_PATH := "results"

  /** Default number of parsimony iterations. */
  const PARSIMONY_ITERATIONS: nat := 100
  /** Default number of iterations run in parallel. */
  const CONCURRENCY: nat := 3
  // MAX_CONCURRENCY is os.cpus().length: the model takes it from the host (Commands.Host.cpus).
}
