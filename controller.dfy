/**
 * What the adapters see of the vehicle controller. The controller itself (network
 * calls, polling, wake-up) is not part of this model: its answers are passed to the
 * adapters' methods as parameters.
 */
module Controller {
  import opened Wrappers

  /**
   * The reply of `command(...)`: `None` when the controller returned nothing (or an
   * empty reply), `Some(b)` when it returned an envelope whose `response.result` has
   * truthiness `b`.
   */
  type CommandResult = Option<bool>

  /** The controller replied and its result is truthy: the command is confirmed. */
  predicate Confirmed(result: CommandResult)
  {
    result == Some(true)
  }
}
