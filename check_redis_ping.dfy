/**
 * The liveness probe: `PING` the server and report success or failure,
 * with no thresholds and no performance data.
 */
module PingCheck {
  import opened Wrappers
  import RedisChecks
  import Text
  import Probe

  const Success := "Success to ping-pong"
  const Failure := "Failed to ping-pong"

  /** The status the failure branch assigns, misspelled as in the script. */
  const FailureStatus := "Critial"

  /** What one run depends on: the answer of `ping()`, or the exception it raised. */
  datatype Input = Input(ping: Result<bool>)

  /** The `try` block. */
  function Body(input: Input): Probe.Body
  {
    match input.ping
    case Err(e) => Probe.Raised(None, e)
    case Ok(alive) =>
      var (status, message) := if alive then ("OK", Success) else (FailureStatus, Failure);
      match RedisChecks.CheckOutputString(status, message)
      case Ok(line) => Probe.Printed(status, line)
      case Err(e) => Probe.Raised(Some(status), e)
  }

  /** One run of the probe: the `try` block, then `except` and `finally`. */
  function Run(input: Input): Probe.Outcome
  {
    Probe.Finish(Body(input))
  }

  /** A successful ping prints exactly `OK: Success to ping-pong ` with no `|`, and exits 0. */
  lemma Alive()
    ensures Run(Input(Ok(true))) == Probe.Outcome(["OK: Success to ping-pong "], Probe.Exited(0))
  {
    assert Body(Input(Ok(true))) == Probe.Printed("OK", "OK" + ": " + Success + " ");
    assert "OK" + ": " == "OK: ";
    assert "OK: " + Success == "OK: Success to ping-pong";
    assert "OK: Success to ping-pong" + " " == "OK: Success to ping-pong ";
  }

  /** The success line carries no performance data: it holds no `|`. */
  lemma AliveHasNoPerfdata()
    ensures Text.Count('|', Run(Input(Ok(true))).stdout[0]) == 0
  {
    Alive();
    var line := "OK: Success to ping-pong ";
    assert forall i :: 0 <= i < |line| ==> line[i] != '|';
  }

  /**
   * A failed ping assigns the misspelled status, which the formatter
   * rejects: the error line is printed and, since the status is neither
   * "Critical" nor "Warning", the `finally` block exits 0.
   */
  lemma NotAlive()
    ensures Run(Input(Ok(false))) == Probe.Outcome(["Error: bad check output state"], Probe.Exited(0))
  {
    assert !RedisChecks.IsState(FailureStatus);
    assert "Error: " + RedisChecks.BadState == "Error: bad check output state";
  }

  /** There is no Warning tier: no run exits 1. */
  lemma NeverWarns(input: Input)
    ensures Run(input).exit != Probe.Exited(1)
  {
    if input.ping == Ok(true) {
      Alive();
    } else if input.ping == Ok(false) {
      NotAlive();
    }
  }
}
