/**
 * External processes as the goals see them: a command line (executable and
 * arguments), and what running it gave back. Running is an oracle supplied
 * by the caller; the model records the commands in the order they run.
 */
module Process {
  import opened Common

  datatype Command = Command(executable: string, args: seq<string>)

  /** A process either exits with a code and its standard output, or cannot be started at all. */
  datatype ProcessResult =
    | Exited(code: int, stdout: string)
    | SpawnFault

  /**
   * The outside world: what the `n`-th command of a goal (counting from 0)
   * gives back. Asking by position lets the same command answer differently
   * the second time it runs.
   */
  type Oracle = (nat, Command) -> ProcessResult

  /** Commands run so far, in order, and how the goal ended (or how far it got). */
  datatype Outcome<T> = Outcome(trace: seq<Command>, result: Result<T>)

  /** Runs `cmd` after the commands in `trace`: the result the oracle gives for it, and the longer trace. */
  function Spawn(run: Oracle, trace: seq<Command>, cmd: Command): (r: (ProcessResult, seq<Command>))
    ensures r.1 == trace + [cmd]
    ensures r.0 == run(|trace|, cmd)
  {
    (run(|trace|, cmd), trace + [cmd])
  }
}
