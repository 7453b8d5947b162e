/** Types shared by the models of the gateway's stores and processes. */
module Common {

  datatype Option<+T> = None | Some(value: T)

  /** What the caller of one remote command observes.

      - `Ok`: the command took effect and its reply arrived.
      - `Lost`: the command took effect, but the caller sees an error.
      - `Failed`: the command took no effect and the caller sees an error.
      - `Open`: the command was never sent, because a circuit breaker is open or
        the caller's context was cancelled before this attempt. */
  datatype Outcome = Ok | Lost | Failed | Open {
    predicate TookEffect() { Ok? || Lost? }
  }
}
