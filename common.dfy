/** Types shared by the two stream runners and the shared trackers. */
module Common {

  datatype Option<T> = None | Some(value: T)

  /** The run's configuration: the watched account and the target race count N. */
  datatype Config = Config(account: string, transactions: nat)

  /**
   * What a runner learns from its host. Both are indexed by the number of
   * observations the runner has made so far: every observation reads the clock
   * once and then writes exactly one log entry.
   *   clock(k)            the timestamp (integer microseconds) of observation k
   *   logWriteSucceeds(k) whether the log write of observation k succeeds
   *   infoLogging         whether info-level logging is enabled; the arguments
   *                       of an info message are evaluated only then
   */
  datatype Env = Env(clock: nat -> int, logWriteSucceeds: nat -> bool, infoLogging: bool)

  /** What a runner is started with: its endpoint's name, the configuration, the run epoch, its host. */
  datatype Context = Context(name: string, config: Config, startTime: int, env: Env)

  /** One arrival handed to the comparator: the endpoint's name and the transaction data. */
  datatype Observation = Observation(endpoint: string, signature: string, timestamp: int, startTime: int)

  /** Why a runner's stream loop ended. */
  datatype Exit =
    | TargetReached   // the valid count equalled N right after this runner's check; shutdown sent
    | StopSignal      // the shutdown broadcast was received
    | StreamError     // the stream yielded an error
    | StreamClosed    // the stream ended
    | LogWriteFailed  // write_log_entry failed; the error propagates out of the runner
}
