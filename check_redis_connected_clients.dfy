/**
 * The connected-clients probe: the `connected_clients` count against
 * warning and critical thresholds, reported with the server's client
 * ceiling. The script asks `RedisCheckHelpers` for a `get_mmaxclients`
 * helper that the class does not define, so every run that gets that far
 * fails there.
 */
module ConnectedClientsCheck {
  import opened Wrappers
  import opened Text
  import RedisChecks
  import Probe

  const DefaultWarning := Probe.Shown(2000.0, "2000")
  const DefaultCritical := Probe.Shown(5000.0, "5000")

  /** The helper the script calls. */
  const MaxclientsHelper := "get_mmaxclients"

  /** What Python raises when the class has no attribute of that name. */
  const NoSuchHelper := "type object 'RedisCheckHelpers' has no attribute 'get_mmaxclients'"

  /**
   * What one run depends on: the `-w`/`-c` options, the answer (or the
   * exception) of `info('all')`, and the client ceiling the missing helper
   * would have returned.
   */
  datatype Input = Input(warning: Option<Probe.Shown>, critical: Option<Probe.Shown>,
                         info: Result<Probe.Snapshot>, maxclients: nat)

  function Token(clients: nat, maxclients: nat, warn: Probe.Shown, crit: Probe.Shown): string
  {
    RedisChecks.PerfDataString(name := "connected_clients", value := NatText(clients),
                               warn := warn.text, crit := crit.text, min := "0", max := NatText(maxclients))
  }

  function Message(clients: nat): string
  {
    NatText(clients) + " connected clients"
  }

  /** The part of the `try` block after the helper call, reached only if the helper existed. */
  function Classified(clients: nat, maxclients: nat, warn: Probe.Shown, crit: Probe.Shown): Probe.Body
  {
    var status := Probe.Classify(clients as real, warn.value, crit.value);
    match RedisChecks.CheckOutputString(status, Message(clients), Some([Token(clients, maxclients, warn, crit)]))
    case Ok(line) => Probe.Printed(status, line)
    case Err(e) => Probe.Raised(Some(status), e)
  }

  /** The `try` block, as a decision on its inputs. */
  function Body(input: Input): Probe.Body
  {
    var warn := Probe.Threshold(input.warning, DefaultWarning);
    var crit := Probe.Threshold(input.critical, DefaultCritical);
    match input.info
    case Err(e) => Probe.Raised(None, e)
    case Ok(info) =>
      if MaxclientsHelper in RedisChecks.HelperNames
      then Classified(info.connectedClients, input.maxclients, warn, crit)
      else Probe.Raised(None, NoSuchHelper)
  }

  /** The `try` block step by step, `status` reassigned as the script does. */
  method Execute(input: Input) returns (b: Probe.Body)
    ensures b == Body(input)
  {
    var warn := Probe.Threshold(input.warning, DefaultWarning);
    var crit := Probe.Threshold(input.critical, DefaultCritical);
    if input.info.Err? {
      return Probe.Raised(None, input.info.msg);
    }
    var clients := input.info.value.connectedClients;
    if MaxclientsHelper !in RedisChecks.HelperNames {
      return Probe.Raised(None, NoSuchHelper);
    }
    var token := Token(clients, input.maxclients, warn, crit);
    var status := "OK";
    if clients as real >= warn.value {
      status := "Warning";
    }
    if clients as real >= crit.value {
      status := "Critical";
    }
    var output := RedisChecks.CheckOutputString(status, Message(clients), Some([token]));
    match output {
      case Ok(line) => b := Probe.Printed(status, line);
      case Err(e) => b := Probe.Raised(Some(status), e);
    }
  }

  /** One run of the probe: the `try` block, then `except` and `finally`. */
  function Run(input: Input): Probe.Outcome
  {
    Probe.Finish(Body(input))
  }

  /**
   * No run prints a status line: each raises before `status` is assigned,
   * at the server query or at the missing helper, and the `finally`
   * block then fails on the unassigned name.
   */
  lemma NeverReports(input: Input)
    ensures Run(input).exit == Probe.Crashed
    ensures input.info.Err? ==> Run(input).stdout == ["Error: " + input.info.msg]
    ensures input.info.Ok? ==> Run(input).stdout == ["Error: " + NoSuchHelper]
  {
    assert MaxclientsHelper !in RedisChecks.HelperNames;
  }

  /** The token as it would be printed: no unit, minimum 0, maximum the client ceiling. */
  lemma TokenText(clients: nat, maxclients: nat, warn: Probe.Shown, crit: Probe.Shown)
    ensures Token(clients, maxclients, warn, crit)
         == "'connected_clients'=" + NatText(clients) + ";" + warn.text + ";" + crit.text + ";0;"
            + NatText(maxclients) + ";"
  {
    assert "'" + "connected_clients" + "'=" == "'connected_clients'=";
    var a := "'connected_clients'=" + NatText(clients);
    assert a + "" == a;
    var b := a + ";" + warn.text + ";" + crit.text;
    assert b + ";" + "0" == b + ";0";
  }

  /**
   * Were the helper there, the line would give the count and the token,
   * with the inclusive escalation deciding the status and the exit code.
   */
  lemma ClassifiedReports(clients: nat, maxclients: nat, warn: Probe.Shown, crit: Probe.Shown)
    ensures var status := Probe.Classify(clients as real, warn.value, crit.value);
      var token := "'connected_clients'=" + NatText(clients) + ";" + warn.text + ";" + crit.text + ";0;"
                   + NatText(maxclients) + ";";
      && Classified(clients, maxclients, warn, crit)
         == Probe.Printed(status, status + ": " + NatText(clients) + " connected clients | " + token + " ")
      && (Probe.ExitCode(status) == 2 <==> clients as real >= crit.value)
      && (Probe.ExitCode(status) == 1 <==> warn.value <= clients as real < crit.value)
  {
    var status := Probe.Classify(clients as real, warn.value, crit.value);
    var token := Token(clients, maxclients, warn, crit);
    TokenText(clients, maxclients, warn, crit);
    RedisChecks.LineOfOne(status, Message(clients), token);
    var p := status + ": " + NatText(clients);
    assert status + ": " + Message(clients) + " | " == p + " connected clients | ";
  }
}
