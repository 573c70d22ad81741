/**
 * The absolute memory probe: `used_memory` against warning and critical
 * byte thresholds, with `used_memory_rss` reported beside it.
 */
module MemoryCheck {
  import opened Wrappers
  import opened Text
  import RedisChecks
  import Probe

  const DefaultWarning := Probe.Shown(50000000.0, "50000000")
  const DefaultCritical := Probe.Shown(50000000.0, "50000000")

  /**
   * What one run depends on: the `-w`/`-c` options, the answer (or the
   * exception) of `info('all')` and of the `maxmemory` setting, and the
   * text `hurry.filesize` renders for the used memory.
   */
  datatype Input = Input(warning: Option<Probe.Shown>, critical: Option<Probe.Shown>,
                         info: Result<Probe.Snapshot>, maxmemory: Result<nat>, usedSize: string)

  /** The two tokens: `used_memory` with the thresholds, `used_memory_rss` with none. */
  function PerfData(used: nat, rss: nat, warn: Probe.Shown, crit: Probe.Shown): seq<string>
  {
    [ RedisChecks.PerfDataString(name := "used_memory", value := NatText(used),
                                 warn := warn.text, crit := crit.text, uom := "B"),
      RedisChecks.PerfDataString(name := "used_memory_rss", value := NatText(rss), uom := "B") ]
  }

  function Message(input: Input): string
  {
    input.usedSize + " memory usage"
  }

  /** The `try` block, as a decision on its inputs. */
  function Body(input: Input): Probe.Body
  {
    var warn := Probe.Threshold(input.warning, DefaultWarning);
    var crit := Probe.Threshold(input.critical, DefaultCritical);
    match input.info
    case Err(e) => Probe.Raised(None, e)
    case Ok(info) =>
      match input.maxmemory
      case Err(e) => Probe.Raised(None, e)
      case Ok(configured) =>
        match RedisChecks.GetMaxmemory(configured)
        case Err(e) => Probe.Raised(None, e)
        case Ok(_) =>
          var status := Probe.Classify(info.usedMemory as real, warn.value, crit.value);
          var perfdata := PerfData(info.usedMemory, info.usedMemoryRss, warn, crit);
          match RedisChecks.CheckOutputString(status, Message(input), Some(perfdata))
          case Ok(line) => Probe.Printed(status, line)
          case Err(e) => Probe.Raised(Some(status), e)
  }

  /** The `try` block step by step, `status` reassigned as the script does. */
  method Execute(input: Input) returns (b: Probe.Body)
    ensures b == Body(input)
  {
    var warn := Probe.Threshold(input.warning, DefaultWarning);
    var crit := Probe.Threshold(input.critical, DefaultCritical);
    if input.info.Err? {
      return Probe.Raised(None, input.info.msg);
    }
    var info := input.info.value;
    if input.maxmemory.Err? {
      return Probe.Raised(None, input.maxmemory.msg);
    }
    var maxmemory := RedisChecks.GetMaxmemory(input.maxmemory.value);
    if maxmemory.Err? {
      return Probe.Raised(None, maxmemory.msg);
    }
    var used := info.usedMemory;
    var perfdata := PerfData(used, info.usedMemoryRss, warn, crit);
    var status := "OK";
    if used as real >= warn.value {
      status := "Warning";
    }
    if used as real >= crit.value {
      status := "Critical";
    }
    var output := RedisChecks.CheckOutputString(status, Message(input), Some(perfdata));
    match output {
      case Ok(line) => b := Probe.Printed(status, line);
      case Err(e) => b := Probe.Raised(Some(status), e);
    }
  }

  /** One run of the probe: the `try` block, then `except` and `finally`. */
  function Run(input: Input): Probe.Outcome
  {
    Probe.Finish(Body(input))
  }

  /** The two tokens as they are printed. */
  lemma PerfDataTokens(used: nat, rss: nat, warn: Probe.Shown, crit: Probe.Shown)
    ensures PerfData(used, rss, warn, crit)
         == [ "'used_memory'=" + NatText(used) + "[B];" + warn.text + ";" + crit.text + ";;;",
              "'used_memory_rss'=" + NatText(rss) + "[B];;;;;" ]
  {
    assert "[" + "B" + "]" == "[B]";
    assert "'" + "used_memory" + "'=" == "'used_memory'=";
    var a := "'used_memory'=" + NatText(used);
    assert a + "[B]" + ";" == a + "[B];";
    var b := a + "[B];" + warn.text + ";" + crit.text;
    assert b + ";" + "" + ";" + "" + ";" == b + ";;;";
    assert "'" + "used_memory_rss" + "'=" == "'used_memory_rss'=";
    var c := "'used_memory_rss'=" + NatText(rss);
    assert c + "[B]" + ";" + "" + ";" + "" + ";" + "" + ";" + "" + ";" == c + "[B];;;;;";
  }

  /**
   * With both server answers in hand and a non-zero ceiling the probe
   * prints its status line with the two tokens and exits by the status.
   */
  lemma Reports(input: Input)
    requires input.info.Ok? && input.maxmemory.Ok? && input.maxmemory.value != 0
    ensures var info := input.info.value;
      var warn := Probe.Threshold(input.warning, DefaultWarning);
      var crit := Probe.Threshold(input.critical, DefaultCritical);
      var status := Probe.Classify(info.usedMemory as real, warn.value, crit.value);
      var used := "'used_memory'=" + NatText(info.usedMemory) + "[B];" + warn.text + ";" + crit.text + ";;;";
      var rss := "'used_memory_rss'=" + NatText(info.usedMemoryRss) + "[B];;;;;";
      Run(input) == Probe.Outcome(
        [status + ": " + input.usedSize + " memory usage | " + used + "  " + rss + " "],
        Probe.Exited(Probe.ExitCode(status)))
  {
    var info := input.info.value;
    var warn := Probe.Threshold(input.warning, DefaultWarning);
    var crit := Probe.Threshold(input.critical, DefaultCritical);
    var status := Probe.Classify(info.usedMemory as real, warn.value, crit.value);
    var t1 := "'used_memory'=" + NatText(info.usedMemory) + "[B];" + warn.text + ";" + crit.text + ";;;";
    var t2 := "'used_memory_rss'=" + NatText(info.usedMemoryRss) + "[B];;;;;";
    PerfDataTokens(info.usedMemory, info.usedMemoryRss, warn, crit);
    RedisChecks.LineOfTwo(status, Message(input), t1, t2);
    var p := status + ": " + input.usedSize;
    assert status + ": " + Message(input) + " | " == p + " memory usage | ";
  }

  /**
   * The exit code: 2 exactly when used memory reaches the critical
   * threshold, 1 when it reaches only the warning one, 0 otherwise
   * (critical wins even when the warning threshold is the larger).
   */
  lemma ExitCodes(input: Input)
    requires input.info.Ok? && input.maxmemory.Ok? && input.maxmemory.value != 0
    ensures var used := input.info.value.usedMemory as real;
      var warn := Probe.Threshold(input.warning, DefaultWarning).value;
      var crit := Probe.Threshold(input.critical, DefaultCritical).value;
      && (Run(input).exit == Probe.Exited(2) <==> used >= crit)
      && (Run(input).exit == Probe.Exited(1) <==> warn <= used < crit)
      && (Run(input).exit == Probe.Exited(0) <==> used < warn && used < crit)
  {
    Reports(input);
  }

  /** With the default thresholds (both 50000000 B) the probe never warns. */
  lemma DefaultsNeverWarn(input: Input)
    requires input.warning.None? && input.critical.None?
    ensures Run(input).exit != Probe.Exited(1)
  {
    if input.info.Ok? && input.maxmemory.Ok? && input.maxmemory.value != 0 {
      ExitCodes(input);
    }
  }

  /**
   * A failed server query or a zero ceiling (read though this probe never
   * uses it) raises before `status` is assigned: the error line is printed
   * and the `finally` block then fails on the unassigned name.
   */
  lemma FailsBeforeStatus(input: Input)
    requires input.info.Err? || input.maxmemory.Err? || input.maxmemory == Ok(0)
    ensures Run(input).exit == Probe.Crashed
    ensures input.info.Err? ==> Run(input).stdout == ["Error: " + input.info.msg]
    ensures input.info.Ok? && input.maxmemory.Err? ==> Run(input).stdout == ["Error: " + input.maxmemory.msg]
    ensures input.info.Ok? && input.maxmemory == Ok(0)
        ==> Run(input).stdout == ["Error: " + RedisChecks.ZeroMaxmemory]
  {
  }
}
