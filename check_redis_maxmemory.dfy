/**
 * The memory-percentage probe: `used_memory` divided by the configured
 * `maxmemory`, rounded up to two decimals, against warning and critical
 * thresholds given in percent.
 */
module MaxmemoryCheck {
  import opened Wrappers
  import opened Text
  import RedisChecks
  import Probe

  const DefaultWarning := Probe.Shown(80.0, "80.0")
  const DefaultCritical := Probe.Shown(90.0, "90.0")

  /**
   * What one run depends on: the `-w`/`-c` options, the answers (or
   * exceptions) of `info('all')` and of the `maxmemory` setting, and the
   * text `hurry.filesize` renders for the ceiling.
   */
  datatype Input = Input(warning: Option<Probe.Shown>, critical: Option<Probe.Shown>,
                         info: Result<Probe.Snapshot>, maxmemory: Result<nat>, maxSize: string)

  /**
   * `used / maxmemory` quantized to two places with `ROUND_UP`, in
   * hundredths: the least number of hundredths not below the ratio. The
   * ratio is never multiplied by 100.
   */
  function UsageHundredths(used: nat, ceiling: nat): (h: nat)
    requires ceiling > 0
    ensures h * ceiling >= 100 * used
    ensures (h - 1) * ceiling < 100 * used
  {
    (100 * used + ceiling - 1) / ceiling
  }

  /** The rounded value is at least the ratio and less than a hundredth above it. */
  lemma UsageBounds(used: nat, ceiling: nat)
    requires ceiling > 0
    ensures var v := UsageHundredths(used, ceiling) as real / 100.0;
      var ratio := used as real / ceiling as real;
      ratio <= v < ratio + 0.01
  {
    var h := UsageHundredths(used, ceiling);
    CastProducts(h, ceiling, used);
    RatioBounds(h as real, used as real, ceiling as real);
  }

  lemma CastProducts(h: nat, ceiling: nat, used: nat)
    requires h * ceiling >= 100 * used && (h - 1) * ceiling < 100 * used
    ensures h as real * ceiling as real >= 100.0 * used as real
    ensures (h as real - 1.0) * ceiling as real < 100.0 * used as real
  {
    assert (h * ceiling) as real == h as real * ceiling as real;
    assert ((h - 1) * ceiling) as real == (h as real - 1.0) * ceiling as real;
  }

  lemma RatioBounds(h: real, u: real, c: real)
    requires c > 0.0 && h * c >= 100.0 * u && (h - 1.0) * c < 100.0 * u
    ensures u / c <= h / 100.0 < u / c + 0.01
  {
    var ratio := u / c;
    assert u == ratio * c;
    ScaleCancel(100.0 * ratio, h, c);
    ScaleCancelStrict(h - 1.0, 100.0 * ratio, c);
  }

  lemma ScaleCancel(a: real, b: real, c: real)
    requires c > 0.0 && a * c <= b * c
    ensures a <= b
  {
  }

  lemma ScaleCancelStrict(a: real, b: real, c: real)
    requires c > 0.0 && a * c < b * c
    ensures a < b
  {
  }

  function Token(h: nat, warn: Probe.Shown, crit: Probe.Shown): string
  {
    RedisChecks.PerfDataString(name := "redis_memory_usage", value := HundredthsText(h),
                               warn := warn.text, crit := crit.text, uom := "%")
  }

  function Message(h: nat, input: Input): string
  {
    HundredthsText(h) + "% of " + input.maxSize
  }

  /** The `try` block, as a decision on its inputs. */
  function Body(input: Input): Probe.Body
  {
    var warn := Probe.Threshold(input.warning, DefaultWarning);
    var crit := Probe.Threshold(input.critical, DefaultCritical);
    match input.info
    case Err(e) => Probe.Raised(None, e)
    case Ok(info) =>
      match input.maxmemory
      case Err(e) => Probe.Raised(None, e)
      case Ok(configured) =>
        match RedisChecks.GetMaxmemory(configured)
        case Err(e) => Probe.Raised(None, e)
        case Ok(ceiling) =>
          var h := UsageHundredths(info.usedMemory, ceiling);
          var status := Probe.Classify(h as real / 100.0, warn.value, crit.value);
          match RedisChecks.CheckOutputString(status, Message(h, input), Some([Token(h, warn, crit)]))
          case Ok(line) => Probe.Printed(status, line)
          case Err(e) => Probe.Raised(Some(status), e)
  }

  /** The `try` block step by step, `status` reassigned as the script does. */
  method Execute(input: Input) returns (b: Probe.Body)
    ensures b == Body(input)
  {
    var warn := Probe.Threshold(input.warning, DefaultWarning);
    var crit := Probe.Threshold(input.critical, DefaultCritical);
    if input.info.Err? {
      return Probe.Raised(None, input.info.msg);
    }
    var info := input.info.value;
    if input.maxmemory.Err? {
      return Probe.Raised(None, input.maxmemory.msg);
    }
    var maxmemory := RedisChecks.GetMaxmemory(input.maxmemory.value);
    if maxmemory.Err? {
      return Probe.Raised(None, maxmemory.msg);
    }
    var h := UsageHundredths(info.usedMemory, maxmemory.value);
    var usage := h as real / 100.0;
    var token := Token(h, warn, crit);
    var status := "OK";
    if usage >= warn.value {
      status := "Warning";
    }
    if usage >= crit.value {
      status := "Critical";
    }
    var output := RedisChecks.CheckOutputString(status, Message(h, input), Some([token]));
    match output {
      case Ok(line) => b := Probe.Printed(status, line);
      case Err(e) => b := Probe.Raised(Some(status), e);
    }
  }

  /** One run of the probe: the `try` block, then `except` and `finally`. */
  function Run(input: Input): Probe.Outcome
  {
    Probe.Finish(Body(input))
  }

  /** The token as it is printed. */
  lemma TokenText(h: nat, warn: Probe.Shown, crit: Probe.Shown)
    ensures Token(h, warn, crit)
         == "'redis_memory_usage'=" + HundredthsText(h) + "[%];" + warn.text + ";" + crit.text + ";;;"
  {
    assert "[" + "%" + "]" == "[%]";
    assert "'" + "redis_memory_usage" + "'=" == "'redis_memory_usage'=";
    var a := "'redis_memory_usage'=" + HundredthsText(h);
    assert a + "[%]" + ";" == a + "[%];";
    var b := a + "[%];" + warn.text + ";" + crit.text;
    assert b + ";" + "" + ";" + "" + ";" == b + ";;;";
  }

  /**
   * With both server answers and a non-zero ceiling the probe prints the
   * rounded usage with its single `%` token and exits by the status.
   */
  lemma Reports(input: Input)
    requires input.info.Ok? && input.maxmemory.Ok? && input.maxmemory.value != 0
    ensures var h := UsageHundredths(input.info.value.usedMemory, input.maxmemory.value);
      var warn := Probe.Threshold(input.warning, DefaultWarning);
      var crit := Probe.Threshold(input.critical, DefaultCritical);
      var status := Probe.Classify(h as real / 100.0, warn.value, crit.value);
      var token := "'redis_memory_usage'=" + HundredthsText(h) + "[%];" + warn.text + ";" + crit.text + ";;;";
      Run(input) == Probe.Outcome(
        [status + ": " + HundredthsText(h) + "% of " + input.maxSize + " | " + token + " "],
        Probe.Exited(Probe.ExitCode(status)))
  {
    var h := UsageHundredths(input.info.value.usedMemory, input.maxmemory.value);
    var warn := Probe.Threshold(input.warning, DefaultWarning);
    var crit := Probe.Threshold(input.critical, DefaultCritical);
    var status := Probe.Classify(h as real / 100.0, warn.value, crit.value);
    TokenText(h, warn, crit);
    RedisChecks.LineOfOne(status, Message(h, input), Token(h, warn, crit));
    var p := status + ": " + HundredthsText(h);
    assert status + ": " + Message(h, input) + " | " == p + "% of " + input.maxSize + " | ";
  }

  /**
   * The exit code follows the inclusive escalation on the rounded ratio:
   * 2 exactly when it reaches the critical threshold, 1 when it reaches
   * only the warning one, 0 otherwise.
   */
  lemma ExitCodes(input: Input)
    requires input.info.Ok? && input.maxmemory.Ok? && input.maxmemory.value != 0
    ensures var usage := UsageHundredths(input.info.value.usedMemory, input.maxmemory.value) as real / 100.0;
      var warn := Probe.Threshold(input.warning, DefaultWarning).value;
      var crit := Probe.Threshold(input.critical, DefaultCritical).value;
      && (Run(input).exit == Probe.Exited(2) <==> usage >= crit)
      && (Run(input).exit == Probe.Exited(1) <==> warn <= usage < crit)
      && (Run(input).exit == Probe.Exited(0) <==> usage < warn && usage < crit)
  {
    Reports(input);
  }

  /**
   * Because the ratio is compared with 80.0 and 90.0 unscaled, with the
   * default thresholds the probe reports OK whenever used memory is at
   * most 79 times the ceiling.
   */
  lemma DefaultsUnscaled(input: Input)
    requires input.warning.None? && input.critical.None?
    requires input.info.Ok? && input.maxmemory.Ok? && input.maxmemory.value != 0
    requires input.info.value.usedMemory <= 79 * input.maxmemory.value
    ensures Run(input).exit == Probe.Exited(0)
    ensures Run(input).stdout[0][..4] == "OK: "
  {
    var h := UsageHundredths(input.info.value.usedMemory, input.maxmemory.value);
    SmallUsage(input.info.value.usedMemory, input.maxmemory.value);
    assert Probe.Classify(h as real / 100.0, 80.0, 90.0) == "OK";
    var token := Token(h, DefaultWarning, DefaultCritical);
    RedisChecks.LineStartsWithState("OK", Message(h, input), Some([token]));
    assert "OK" + ": " == "OK: ";
    assert Body(input) == Probe.Printed("OK", RedisChecks.CheckOutputString("OK", Message(h, input), Some([token])).value);
  }

  lemma SmallUsage(used: nat, ceiling: nat)
    requires ceiling > 0 && used <= 79 * ceiling
    ensures UsageHundredths(used, ceiling) <= 7900
  {
    var h := UsageHundredths(used, ceiling);
    if h > 7900 {
      MulMonotone(h - 1, 7900, ceiling);
      assert false;
    }
  }

  lemma MulMonotone(a: int, b: int, c: nat)
    requires a >= b
    ensures a * c >= b * c
  {
    assert a * c - b * c == (a - b) * c;
  }

  /**
   * A failed server query or a zero ceiling raises before any ratio or
   * status exists: the error line is printed and the `finally` block then
   * fails on the unassigned name.
   */
  lemma FailsBeforeStatus(input: Input)
    requires input.info.Err? || input.maxmemory.Err? || input.maxmemory == Ok(0)
    ensures Run(input).exit == Probe.Crashed
    ensures input.info.Err? ==> Run(input).stdout == ["Error: " + input.info.msg]
    ensures input.info.Ok? && input.maxmemory.Err? ==> Run(input).stdout == ["Error: " + input.maxmemory.msg]
    ensures input.info.Ok? && input.maxmemory == Ok(0)
        ==> Run(input).stdout == ["Error: " + RedisChecks.ZeroMaxmemory]
  {
  }
}
