# Redis monitoring probes

A model of five monitoring-plugin probes for a Redis server and of the
helper library they share. Each probe queries the server and prints one
status line; the four threshold probes first pick warning and critical
thresholds. The line is either
`State: message ` or `State: message | token token ...`, with performance
data tokens of the form `'label'=value[UOM];warn;crit;min;max;`. The
probe then exits 2 for Critical, 1 for Warning and 0 otherwise.

The model has these modules:

- `RedisChecks` (redis_checks.dfy) models the library.
  - `GetMaxmemory` is the zero-ceiling guard.
  - `PerfDataString` renders one token.
  - `CheckOutputString` builds the status line.
  - A reader for tokens, `ParsePerfData`, is the independent partner against which the token format is proved to round-trip.
- `Probe` (probe.dfy) holds what the five scripts share:
  - the `opts.x or DEFAULT` fallback (`Threshold`);
  - the inclusive escalation (`Classify`);
  - the exit-code mapping of the `finally` block (`ExitCode`);
  - how the `try` / `except` / `finally` frame ends a run (`Finish`).
- `MemoryCheck`, `MaxmemoryCheck`, `ConnectionCheck`, `ConnectedClientsCheck` and `PingCheck` each model one script. Each mixed script has:
  - a pure `Body` function, which is the decision the `try` block makes;
  - a `method Execute` that reassigns `status` (and `message`) step by step as the script does, and is proved equal to `Body`;
  - `Run = Probe.Finish(Body)`, giving the printed line and the exit.
- `Text` (text.dfy) renders integers (`NatText`, `IntText`) and two-place decimals (`HundredthsText`). Each rendering is proved to read back to its value.
- `Wrappers` (wrappers.dfy) defines `Option` and `Result`.

The server calls are inputs of each run. Each is a `Result`: `Ok` carries the answer and `Err` the message of the exception it raised. A threshold is a `Probe.Shown`, which holds its numeric value and the text `str.format` prints for it. The defaults print as Python prints them: `50000000`, `80.0`, `90.0`, `50`, `100`, `2000`, `5000`.

Error handling follows the code:

- The `except` branch prints `Error: <message>` and calls `sys.exit(2)`.
- The `finally` block runs after that and exits again by the last bound `status`, so its code wins.
- If `status` was never assigned, the `finally` block raises `NameError`. This is the `Crashed` exit.

Two behaviours differ from what a reader of the scripts might expect. The model follows the code:

- **Failures.** One might expect every failure to exit 2, as the `except` branch asks. A failure before `status` is bound crashes instead, and a failure after it exits by that status.
- **Unset thresholds.** One might expect an omitted `-w`/`-c` never to trigger. `opts.x or DEFAULT` always supplies the default instead.

Quirks reproduced as written:

- The ping probe assigns the misspelled status `Critial`. The formatter rejects it, so the run prints `Error: bad check output state` and exits 0.
- The percentage probe compares the unscaled ratio `used / maxmemory` with 80.0 and 90.0.
- The memory probe also reads `maxmemory`, so a zero ceiling makes it fail.
- The connected-clients probe calls `RedisCheckHelpers.get_mmaxclients`, which the class does not define, so every run of it crashes.

## Model

| member | source | states |
|---|---|---|
| RedisChecks.GetMaxmemory | redis_checks.py:101-104 | succeeds iff the configured ceiling is non-zero; then returns it unchanged (so non-zero), else fails with "maxmemory = 0 cannot evaluate usage" |
| RedisChecks.PerfDataUnit | redis_checks.py:132-135 | a non-empty unit only inserts `[uom]` directly after the value of the unit-less token |
| RedisChecks.PerfDataFields | redis_checks.py:132-145 | a token whose fields hold no `;` splits at `;` into exactly the head `'label'=value[UOM]`, warn, crit, min, max and an empty tail |
| RedisChecks.PerfDataSemicolons | redis_checks.py:133-135 | such a token contains exactly five `;` and ends with `;` |
| RedisChecks.PerfDataRoundTrip | redis_checks.py:108-145 | reading a token back yields exactly the label, value, warn, crit, unit, min and max it was rendered from |
| RedisChecks.FormatExamples | redis_checks.py:108-184 | omitted fields render as empty segments (`'x'=5;;;;;`); an empty message becomes `-`; `Critial` is rejected |
| RedisChecks.DisplayedMessage | redis_checks.py:167-168 | an empty message becomes `-`; any other is kept verbatim |
| RedisChecks.CheckOutputString | redis_checks.py:164-165 | succeeds iff the state is one of Critical, Warning, OK, Unknown; a failure carries "bad check output state" |
| RedisChecks.OutputWithoutPerfdata | redis_checks.py:176-184 | without perfdata the line is `state: message ` and has no `\|` beyond those of the message |
| RedisChecks.OutputWithPerfdata | redis_checks.py:170-184 | with perfdata the line is `state: message \|` followed by `" " + p + " "` per token in order; exactly one `\|` beyond those of message and tokens; it ends in `\|` iff the list is empty |
| RedisChecks.LineStartsWithState | redis_checks.py:175-184 | every accepted line starts with its state followed by `: ` |
| RedisChecks.LineOfOne | redis_checks.py:170-184 | the line with one token is `state: message \| token ` |
| RedisChecks.LineOfTwo | redis_checks.py:170-184 | the line with two tokens is `state: message \| first  second ` |
| Text.NatTextValue | check_redis_connected_clients.py:153-155 | the decimal text of a count reads back to that count |
| Text.IntTextValue | check_redis_connection.py:140-141 | the text of an integer threshold reads back to it: its digits give the value, after a minus sign for a negative one |
| Text.HundredthsTextValue | check_redis_maxmemory.py:159-160 | the two-place text of a rounded ratio has its point three characters from the end and reads back to the value in hundredths |
| Probe.Threshold | check_redis_memory.py:87-88 | the option is used when present and non-zero; otherwise the default |
| Probe.Classify | check_redis_memory.py:156-161 | Critical iff v >= crit; Warning iff warn <= v < crit; OK iff below both (critical wins) |
| Probe.ExitCode | check_redis_memory.py:184-189 | 2 iff "Critical", 1 iff "Warning", 0 for every other string |
| Probe.Finish | check_redis_memory.py:176-189 | one line is printed; a printed line exits by its status; an error prints `Error: <message>` and exits by the bound status, overriding the except branch's exit(2); crashes iff no status was bound |
| MemoryCheck.Execute | check_redis_memory.py:139-174 | the step-by-step script computes exactly the decision `Body` |
| MemoryCheck.PerfDataTokens | check_redis_memory.py:139-153 | exactly two tokens in order: `used_memory` with unit B, warn and crit; `used_memory_rss` with unit B and empty warn/crit/min/max |
| MemoryCheck.Reports | check_redis_memory.py:87-174 | with both answers and a non-zero ceiling, the exact line `status: <size> memory usage \| used  rss ` and the exit by the classified status |
| MemoryCheck.ExitCodes | check_redis_memory.py:156-189 | exit 2 iff used >= crit, 1 iff warn <= used < crit, 0 iff below both |
| MemoryCheck.DefaultsNeverWarn | check_redis_memory.py:158-161 | with the default thresholds, both 50000000, no run exits 1 |
| MemoryCheck.FailsBeforeStatus | check_redis_memory.py:104-113 | a failed query or a zero ceiling prints the error line and crashes |
| MaxmemoryCheck.UsageHundredths | check_redis_maxmemory.py:130-134 | the least number of hundredths not below `used / maxmemory` (no x100 scaling) |
| MaxmemoryCheck.UsageBounds | check_redis_maxmemory.py:130-134 | ratio <= rounded value < ratio + 0.01 |
| MaxmemoryCheck.TokenText | check_redis_maxmemory.py:142-148 | the single token is `'redis_memory_usage'=<v>[%];warn;crit;;;` |
| MaxmemoryCheck.Execute | check_redis_maxmemory.py:130-170 | the step-by-step script computes exactly the decision `Body` |
| MaxmemoryCheck.Reports | check_redis_maxmemory.py:87-170 | with both answers and a non-zero ceiling, the exact line `status: <v>% of <size> \| token ` and the exit by status |
| MaxmemoryCheck.ExitCodes | check_redis_maxmemory.py:151-185 | exit 2 iff the rounded ratio >= crit, 1 iff warn <= it < crit, 0 iff below both |
| MaxmemoryCheck.DefaultsUnscaled | check_redis_maxmemory.py:130-156 | with the defaults 80.0/90.0 and used memory at most 79 times the ceiling, the line starts `OK: ` and the exit is 0 |
| MaxmemoryCheck.FailsBeforeStatus | check_redis_maxmemory.py:104-113 | a failed query or a zero ceiling aborts before any ratio or status: the error line, then a crash |
| ConnectionCheck.ElapsedMs | check_redis_connection.py:129-134 | the sub-second microseconds rounded up to whole milliseconds (at most 1000); days and seconds are not read |
| ConnectionCheck.Latency | check_redis_connection.py:146-154 | strict tests: Critical iff ms > crit; Warning iff warn < ms <= crit; OK iff ms <= both; each with its own message |
| ConnectionCheck.TokenText | check_redis_connection.py:137-143 | the token is `'connection_delay'=<ms>[ms];warn;crit;;;` |
| ConnectionCheck.Execute | check_redis_connection.py:137-165 | the script, with `status` and `message` reassigned together, computes exactly `Body` |
| ConnectionCheck.MismatchIsCritical | check_redis_connection.py:155-163 | an altered echo prints `Critical: Echo does not match \| token ` and exits 2, whatever the latency |
| ConnectionCheck.MatchIsTimed | check_redis_connection.py:146-165 | a matching echo prints the status-bound message with the token and exits 2/1/0 by the strict tests; a delay equal to a threshold stays below it |
| ConnectionCheck.FailsBeforeStatus | check_redis_connection.py:116-117 | a failed echo round trip prints the error line and crashes |
| ConnectedClientsCheck.Execute | check_redis_connected_clients.py:109-163 | the step-by-step script computes exactly the decision `Body` |
| ConnectedClientsCheck.NeverReports | check_redis_connected_clients.py:109-113 | every run crashes, printing the query's error or the missing `get_mmaxclients` attribute error |
| ConnectedClientsCheck.TokenText | check_redis_connected_clients.py:135-142 | the token would be `'connected_clients'=N;w;c;0;M;` |
| ConnectedClientsCheck.ClassifiedReports | check_redis_connected_clients.py:134-163 | were the helper there: the line `status: N connected clients \| token `, exit 2 iff N >= crit, 1 iff warn <= N < crit |
| PingCheck.Alive | check_redis_ping.py:79-91 | a successful ping prints exactly `OK: Success to ping-pong ` and exits 0 |
| PingCheck.AliveHasNoPerfdata | check_redis_ping.py:86-89 | the success line holds no `\|` |
| PingCheck.NotAlive | check_redis_ping.py:82-106 | a failed ping sets `Critial`, which is rejected: `Error: bad check output state` is printed and the exit is 0 |
| PingCheck.NeverWarns | check_redis_ping.py:79-106 | no run exits 1 |

## Left out

- Option parsing (`optparse`, the shared `-H/-p/-P/--db/--debug` options, argument rejection) is library glue. The thresholds are given as already-parsed optional values.
- The redis client is network I/O and foreign types. This covers connection construction, `info('all')`, `config_get`, `echo`, `ping` and the `isinstance` connection check. Their results, or the messages of the exceptions they raise, are inputs.
- A reply missing the `used_memory`, `used_memory_rss` or `connected_clients` field, which would raise `KeyError`, is not modelled: the status snapshot always has these fields.
- `hurry.filesize.size` is a foreign library. The sizes it renders in the memory messages are opaque input strings.
- Base64 encoding and decoding of the echo payload is done by the standard library. Whether the echo decoded back to the original is a boolean input.
- `ConnectionCheck.ElapsedMs`: the wall clock is an input `Duration`. The float `microseconds * 0.001` followed by `ceil` is taken as exact integer rounding up, so float error at exact multiples of 1000 is not modelled.
- `MaxmemoryCheck.UsageHundredths`: the float division and the exact float-to-Decimal conversion are idealised as the rational ceiling. For example, the float 0.8 rounds up to 0.81 in the script but to 0.80 here. Decimal's 28-digit precision limit is also not modelled.
- Python's rendering of user-supplied float thresholds (for example `3.0` for `-w 3`) is carried as the given text of `Probe.Shown`, not computed.
- The formatter's "not iterable" error for perfdata is ruled out by the types: perfdata is always a sequence of strings.
- `Probe.Shown`: a threshold value is a real, so the non-finite floats `type="float"` accepts (`-w nan`, `-w inf`) are not modelled; with `nan` every `>=` test of the memory and client probes would be false.
- Debug printing, `pprint` and tracebacks are left out.
- The shell-level import check of each script (it prints an error and exits 2 when the library cannot be imported) happens before any probe logic and is left out.
