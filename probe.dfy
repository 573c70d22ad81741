/**
 * What the five probe scripts share: the server status fields they read,
 * the `opts.x or DEFAULT` threshold fallback, the inclusive escalation
 * OK -> Warning -> Critical, and the `try` / `except` / `finally` frame
 * that prints one line and picks the exit code.
 */
module Probe {
  import opened Wrappers

  /** The fields of `info('all')` the probes read. */
  datatype Snapshot = Snapshot(connectedClients: nat, usedMemory: nat, usedMemoryRss: nat)

  /**
   * A number as the script holds it: its value and the text `str.format`
   * renders for it (for a user-supplied float, that text is taken as given).
   */
  datatype Shown = Shown(value: real, text: string)

  /** `opts.x or DEFAULT`: an absent or zero option falls back to the default. */
  function Threshold(option: Option<Shown>, default: Shown): (t: Shown)
    ensures option.Some? && option.value.value != 0.0 ==> t == option.value
    ensures option.None? || option.value.value == 0.0 ==> t == default
  {
    if option.Some? && option.value.value != 0.0 then option.value else default
  }

  /**
   * The status the three ceiling-style probes end with after
   * `status = "OK"`, `if v >= warn: "Warning"`, `if v >= crit: "Critical"`.
   */
  function Classify(v: real, warn: real, crit: real): (status: string)
    ensures status == "Critical" <==> v >= crit
    ensures status == "Warning" <==> warn <= v < crit
    ensures status == "OK" <==> v < warn && v < crit
  {
    if v >= crit then "Critical" else if v >= warn then "Warning" else "OK"
  }

  /**
   * How the `try` block of a probe ended: it printed `line` with `status`
   * bound, or it raised `error`, with `status` bound (`Some`) or not yet
   * assigned (`None`) at that point.
   */
  datatype Body = Printed(status: string, line: string) | Raised(bound: Option<string>, error: string)

  /** How the process ends: `sys.exit(code)`, or a `NameError` out of the `finally` block. */
  datatype Exit = Exited(code: nat) | Crashed

  /** The lines written to standard output and the way the process ends. */
  datatype Outcome = Outcome(stdout: seq<string>, exit: Exit)

  /** The `finally` block: 2 for "Critical", 1 for "Warning", 0 for any other string. */
  function ExitCode(status: string): (code: nat)
    ensures code == 2 <==> status == "Critical"
    ensures code == 1 <==> status == "Warning"
    ensures code == 0 <==> status != "Critical" && status != "Warning"
  {
    if status == "Critical" then 2 else if status == "Warning" then 1 else 0
  }

  /**
   * The `except` block prints `Error: <message>` and calls `sys.exit(2)`,
   * but the `finally` block runs afterwards and exits again by `status`,
   * so its exit code wins; with `status` unassigned it raises instead.
   */
  function Finish(b: Body): (r: Outcome)
    ensures |r.stdout| == 1
    ensures b.Printed? ==> r.stdout[0] == b.line && r.exit == Exited(ExitCode(b.status))
    ensures b.Raised? ==> r.stdout[0] == "Error: " + b.error
    ensures b.Raised? && b.bound.Some? ==> r.exit == Exited(ExitCode(b.bound.value))
    ensures r.exit == Crashed <==> b.Raised? && b.bound.None?
  {
    match b
    case Printed(status, line) => Outcome([line], Exited(ExitCode(status)))
    case Raised(Some(status), error) => Outcome(["Error: " + error], Exited(ExitCode(status)))
    case Raised(None, error) => Outcome(["Error: " + error], Crashed)
  }
}
