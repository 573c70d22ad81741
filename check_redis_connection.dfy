/**
 * The latency probe: echo a fixed payload, check that it comes back
 * intact, and compare the round-trip time in milliseconds with strict
 * warning and critical thresholds.
 */
module ConnectionCheck {
  import opened Wrappers
  import opened Text
  import RedisChecks
  import Probe

  const DefaultWarning: int := 50
  const DefaultCritical: int := 100

  const Successful := "Redis connection successful"
  const SlowWarning := "Redis connection with too slow"
  const SlowCritical := "Redis connection too slow"
  const EchoMismatch := "Echo does not match"

  type Micros = m: nat | m < 1000000

  /** A `datetime.timedelta`, in its normalised parts. */
  datatype Duration = Duration(days: int, seconds: nat, microseconds: Micros)

  /**
   * `int(ceil(elapsed.microseconds * 0.001))`: the sub-second part in whole
   * milliseconds, rounded up; the days and seconds are not read.
   */
  function ElapsedMs(elapsed: Duration): (ms: nat)
    ensures (ms - 1) * 1000 < elapsed.microseconds <= ms * 1000
    ensures ms <= 1000
  {
    (elapsed.microseconds + 999) / 1000
  }

  /**
   * What one run depends on: the integer `-w`/`-c` options, whether the
   * echoed payload decoded back to the original (or the exception the
   * round trip raised), and the measured duration.
   */
  datatype Input = Input(warning: Option<int>, critical: Option<int>,
                         echo: Result<bool>, elapsed: Duration)

  /** An integer option as the script holds it. */
  function AsShown(option: Option<int>): Option<Probe.Shown>
  {
    match option
    case None => None
    case Some(i) => Some(Probe.Shown(i as real, IntText(i)))
  }

  function Warning(input: Input): Probe.Shown
  {
    Probe.Threshold(AsShown(input.warning), Probe.Shown(DefaultWarning as real, "50"))
  }

  function Critical(input: Input): Probe.Shown
  {
    Probe.Threshold(AsShown(input.critical), Probe.Shown(DefaultCritical as real, "100"))
  }

  /**
   * Status and message on a matching echo, after `OK`, `if ms > warn:
   * Warning`, `if ms > crit: Critical`, each message set with its status.
   */
  function Latency(ms: nat, warn: real, crit: real): (r: (string, string))
    ensures r.0 == "Critical" <==> ms as real > crit
    ensures r.0 == "Warning" <==> warn < ms as real <= crit
    ensures r.0 == "OK" <==> ms as real <= warn && ms as real <= crit
    ensures r.1 == (if r.0 == "Critical" then SlowCritical else if r.0 == "Warning" then SlowWarning else Successful)
  {
    if ms as real > crit then ("Critical", SlowCritical)
    else if ms as real > warn then ("Warning", SlowWarning)
    else ("OK", Successful)
  }

  function Token(ms: nat, warn: Probe.Shown, crit: Probe.Shown): string
  {
    RedisChecks.PerfDataString(name := "connection_delay", value := NatText(ms),
                               warn := warn.text, crit := crit.text, uom := "ms")
  }

  /** The `try` block, as a decision on its inputs. */
  function Body(input: Input): Probe.Body
  {
    match input.echo
    case Err(e) => Probe.Raised(None, e)
    case Ok(matched) =>
      var ms := ElapsedMs(input.elapsed);
      var token := Token(ms, Warning(input), Critical(input));
      var (status, message) :=
        if matched then Latency(ms, Warning(input).value, Critical(input).value)
        else ("Critical", EchoMismatch);
      match RedisChecks.CheckOutputString(status, message, Some([token]))
      case Ok(line) => Probe.Printed(status, line)
      case Err(e) => Probe.Raised(Some(status), e)
  }

  /** The `try` block step by step, `status` and `message` reassigned together. */
  method Execute(input: Input) returns (b: Probe.Body)
    ensures b == Body(input)
  {
    var warn := Warning(input);
    var crit := Critical(input);
    if input.echo.Err? {
      return Probe.Raised(None, input.echo.msg);
    }
    var ms := ElapsedMs(input.elapsed);
    var token := Token(ms, warn, crit);
    var status, message;
    if input.echo.value {
      status := "OK";
      message := Successful;
      if ms as real > warn.value {
        status := "Warning";
        message := SlowWarning;
      }
      if ms as real > crit.value {
        status := "Critical";
        message := SlowCritical;
      }
    } else {
      status := "Critical";
      message := EchoMismatch;
    }
    var output := RedisChecks.CheckOutputString(status, message, Some([token]));
    match output {
      case Ok(line) => b := Probe.Printed(status, line);
      case Err(e) => b := Probe.Raised(Some(status), e);
    }
  }

  /** One run of the probe: the `try` block, then `except` and `finally`. */
  function Run(input: Input): Probe.Outcome
  {
    Probe.Finish(Body(input))
  }

  /** The token as it is printed. */
  lemma TokenText(ms: nat, warn: Probe.Shown, crit: Probe.Shown)
    ensures Token(ms, warn, crit)
         == "'connection_delay'=" + NatText(ms) + "[ms];" + warn.text + ";" + crit.text + ";;;"
  {
    assert "[" + "ms" + "]" == "[ms]";
    assert "'" + "connection_delay" + "'=" == "'connection_delay'=";
    var a := "'connection_delay'=" + NatText(ms);
    assert a + "[ms]" + ";" == a + "[ms];";
    var b := a + "[ms];" + warn.text + ";" + crit.text;
    assert b + ";" + "" + ";" + "" + ";" == b + ";;;";
  }

  /**
   * A payload that comes back altered is Critical with "Echo does not
   * match" whatever the latency, and still carries the delay token.
   */
  lemma MismatchIsCritical(input: Input)
    requires input.echo == Ok(false)
    ensures var ms := ElapsedMs(input.elapsed);
      var token := "'connection_delay'=" + NatText(ms) + "[ms];" + Warning(input).text + ";"
                   + Critical(input).text + ";;;";
      Run(input) == Probe.Outcome(["Critical: " + EchoMismatch + " | " + token + " "], Probe.Exited(2))
  {
    var ms := ElapsedMs(input.elapsed);
    TokenText(ms, Warning(input), Critical(input));
    var token := Token(ms, Warning(input), Critical(input));
    RedisChecks.LineOfOne("Critical", EchoMismatch, token);
    assert "Critical" + ": " == "Critical: ";
    assert "Critical" + ": " + EchoMismatch + " | " + token + " " == "Critical: " + EchoMismatch + " | " + token + " ";
    assert Body(input) == Probe.Printed("Critical", "Critical: " + EchoMismatch + " | " + token + " ");
  }

  /**
   * On a matching echo the comparisons are strict and each status comes
   * with its own message: above critical is Critical "too slow", above
   * only warning is Warning "with too slow", otherwise OK "successful",
   * a delay equal to a threshold not exceeding it.
   */
  lemma MatchIsTimed(input: Input)
    requires input.echo == Ok(true)
    ensures var ms := ElapsedMs(input.elapsed) as real;
      var warn := Warning(input).value;
      var crit := Critical(input).value;
      var token := "'connection_delay'=" + NatText(ElapsedMs(input.elapsed)) + "[ms];"
                   + Warning(input).text + ";" + Critical(input).text + ";;;";
      && (ms > crit ==> Run(input) == Probe.Outcome(
            ["Critical: " + SlowCritical + " | " + token + " "], Probe.Exited(2)))
      && (warn < ms <= crit ==> Run(input) == Probe.Outcome(
            ["Warning: " + SlowWarning + " | " + token + " "], Probe.Exited(1)))
      && (ms <= warn && ms <= crit ==> Run(input) == Probe.Outcome(
            ["OK: " + Successful + " | " + token + " "], Probe.Exited(0)))
  {
    var ms := ElapsedMs(input.elapsed);
    var (status, message) := Latency(ms, Warning(input).value, Critical(input).value);
    TokenText(ms, Warning(input), Critical(input));
    var token := Token(ms, Warning(input), Critical(input));
    RedisChecks.LineOfOne(status, message, token);
    assert "Critical" + ": " == "Critical: " && "Warning" + ": " == "Warning: " && "OK" + ": " == "OK: ";
    assert status + ": " + message + " | " + token + " " == (status + ": ") + message + " | " + token + " ";
    assert Body(input) == Probe.Printed(status, status + ": " + message + " | " + token + " ");
  }

  /** A failed echo round trip raises before `status` is assigned. */
  lemma FailsBeforeStatus(input: Input)
    requires input.echo.Err?
    ensures Run(input) == Probe.Outcome(["Error: " + input.echo.msg], Probe.Crashed)
  {
  }
}
