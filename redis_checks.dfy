/**
 * The shared helpers of the probes: the configured-ceiling guard, the
 * performance-data token and the final status line.
 */
module RedisChecks {
  import opened Wrappers
  import opened Text

  /** The states `check_output_string` accepts. */
  predicate IsState(state: string) {
    state == "Critical" || state == "Warning" || state == "OK" || state == "Unknown"
  }

  /** The class methods `RedisCheckHelpers` defines. */
  const HelperNames: set<string> := {"add_default_parser_options", "get_info", "get_maxmemory"}

  const BadState := "bad check output state"
  const ZeroMaxmemory := "maxmemory = 0 cannot evaluate usage"

  /**
   * `get_maxmemory` once the server's `maxmemory` setting has been read:
   * a zero ceiling raises, any other value is returned unchanged.
   */
  function GetMaxmemory(configured: nat): (r: Result<nat>)
    ensures r.Ok? <==> configured != 0
    ensures r.Ok? ==> r.value == configured && r.value > 0
    ensures r.Err? ==> r.msg == ZeroMaxmemory
  {
    if configured == 0 then Err(ZeroMaxmemory) else Ok(configured)
  }

  // ---------------------------------------------------------------------
  // Performance data
  // ---------------------------------------------------------------------

  /** The head of a token: quoted label, `=`, value and the optional bracketed unit. */
  function TokenHead(name: string, value: string, uom: string): string
  {
    "'" + name + "'=" + value + (if uom != "" then "[" + uom + "]" else "")
  }

  /**
   * `perf_data_string`: `'label'=value[UOM];warn;crit;min;max;`, the
   * bracketed unit present only for a non-empty unit. Every field is the
   * text `str.format` already produced for it.
   */
  function PerfDataString(name: string, value: string, warn: string := "", crit: string := "",
                          uom: string := "", min: string := "", max: string := ""): string
  {
    TokenHead(name, value, uom) + ";" + warn + ";" + crit + ";" + min + ";" + max + ";"
  }

  /** A non-empty unit only inserts `[uom]` directly after the value of the unit-less token. */
  lemma PerfDataUnit(name: string, value: string, warn: string, crit: string,
                     uom: string, min: string, max: string)
    requires uom != ""
    ensures PerfDataString(name, value, warn, crit, uom, min, max)
         == PerfDataString(name, value + "[" + uom + "]", warn, crit, "", min, max)
  {
    var head := "'" + name + "'=" + value;
    assert head + ("[" + uom + "]") == "'" + name + "'=" + (value + "[" + uom + "]");
  }

  /** The fields of one performance-data token, as a monitoring backend reads them back. */
  datatype PerfDatum = PerfDatum(name: string, value: string, warn: string, crit: string,
                                 uom: string, min: string, max: string)

  /** Index of the first `c` in `s`, or `|s|` when there is none. */
  function IndexOf(s: string, c: char): (i: nat)
    ensures i <= |s|
    ensures i < |s| ==> s[i] == c
    ensures forall k :: 0 <= k < i ==> s[k] != c
  {
    if s == [] then 0 else if s[0] == c then 0 else 1 + IndexOf(s[1..], c)
  }

  /** The pieces of `s` between occurrences of `sep`. */
  function Split(s: string, sep: char): seq<string>
    decreases |s|
  {
    var i := IndexOf(s, sep);
    if i == |s| then [s] else [s[..i]] + Split(s[i + 1..], sep)
  }

  /** Reads a token head back into label, value and unit. */
  function ParseHead(head: string): Option<(string, string, string)>
  {
    if |head| == 0 || head[0] != '\'' then None else ParseQuoted(head[1..])
  }

  /** Reads `label'=value[UOM]`, the head after its opening quote. */
  function ParseQuoted(rest: string): Option<(string, string, string)>
  {
    var q := IndexOf(rest, '\'');
    if q + 1 >= |rest| || rest[q + 1] != '=' then None
    else
      match ParseValueUnit(rest[q + 2..])
      case None => None
      case Some((value, uom)) => Some((rest[..q], value, uom))
  }

  /** Reads `value` or `value[UOM]` back into value and unit. */
  function ParseValueUnit(vu: string): Option<(string, string)>
  {
    var b := IndexOf(vu, '[');
    if b == |vu| then Some((vu, ""))
    else if b + 2 > |vu| || vu[|vu| - 1] != ']' then None
    else Some((vu[..b], vu[b + 1..|vu| - 1]))
  }

  /** Reads a token back into its fields; `None` when it does not follow the grammar. */
  function ParsePerfData(s: string): Option<PerfDatum>
  {
    var fields := Split(s, ';');
    if |fields| != 6 || fields[5] != "" then None
    else
      match ParseHead(fields[0])
      case None => None
      case Some((name, value, uom)) =>
        Some(PerfDatum(name, value, fields[1], fields[2], uom, fields[3], fields[4]))
  }

  lemma IndexOfAbsent(s: string, c: char)
    requires c !in s
    ensures IndexOf(s, c) == |s|
  {
  }

  lemma IndexOfFirst(a: string, c: char, b: string)
    requires c !in a
    ensures IndexOf(a + [c] + b, c) == |a|
  {
    var s := a + [c] + b;
    assert s[|a|] == c;
    assert forall k :: 0 <= k < |a| ==> s[k] == a[k];
  }

  lemma SplitAfter(a: string, sep: char, b: string)
    requires sep !in a
    ensures Split(a + [sep] + b, sep) == [a] + Split(b, sep)
  {
    var s := a + [sep] + b;
    IndexOfFirst(a, sep, b);
    assert s[..|a|] == a;
    assert s[|a| + 1..] == b;
  }

  lemma {:induction false} SplitCount(s: string, sep: char)
    ensures |Split(s, sep)| == Count(sep, s) + 1
    decreases |s|
  {
    var i := IndexOf(s, sep);
    if i < |s| {
      assert s == s[..i] + ([sep] + s[i + 1..]);
      CountConcat(sep, s[..i], [sep] + s[i + 1..]);
      CountConcat(sep, [sep], s[i + 1..]);
      SplitCount(s[i + 1..], sep);
    }
  }

  lemma TokenHeadChars(name: string, value: string, uom: string, c: char)
    requires c !in name && c !in value && c !in uom
    requires c != '\'' && c != '=' && c != '[' && c != ']'
    ensures c !in TokenHead(name, value, uom)
  {
    var u := if uom != "" then "[" + uom + "]" else "";
    assert c !in u;
    assert TokenHead(name, value, uom) == "'" + name + "'=" + value + u;
  }

  /** Five `;`-free pieces, each followed by `;`, split back into those pieces and an empty tail. */
  lemma SplitFive(a: string, b: string, c: string, d: string, e: string, sep: char)
    requires sep !in a && sep !in b && sep !in c && sep !in d && sep !in e
    ensures Split(a + [sep] + (b + [sep] + (c + [sep] + (d + [sep] + (e + [sep] + "")))), sep)
         == [a] + ([b] + ([c] + ([d] + ([e] + [""]))))
  {
    var t4 := e + [sep] + "";
    var t3 := d + [sep] + t4;
    var t2 := c + [sep] + t3;
    var t1 := b + [sep] + t2;
    IndexOfAbsent("", sep);
    assert Split("", sep) == [""];
    SplitAfter(e, sep, "");
    SplitAfter(d, sep, t4);
    SplitAfter(c, sep, t3);
    SplitAfter(b, sep, t2);
    SplitAfter(a, sep, t1);
  }

  /** With no `;` inside a field, the token splits at `;` into exactly its six segments. */
  lemma PerfDataFields(name: string, value: string, warn: string, crit: string,
                       uom: string, min: string, max: string)
    requires ';' !in name && ';' !in value && ';' !in uom
    requires ';' !in warn && ';' !in crit && ';' !in min && ';' !in max
    ensures Split(PerfDataString(name, value, warn, crit, uom, min, max), ';')
         == [TokenHead(name, value, uom)] + ([warn] + ([crit] + ([min] + ([max] + [""]))))
  {
    var head := TokenHead(name, value, uom);
    var r := PerfDataString(name, value, warn, crit, uom, min, max);
    var t4 := max + [';'] + "";
    var t3 := min + [';'] + t4;
    var t2 := crit + [';'] + t3;
    var t1 := warn + [';'] + t2;
    assert r == head + [';'] + t1 by {
      var u := if uom != "" then "[" + uom + "]" else "";
      assert head == "'" + name + "'=" + value + u;
      calc {
        r;
        head + ";" + warn + ";" + crit + ";" + min + ";" + max + ";";
        head + ";" + warn + ";" + crit + ";" + min + ";" + t4;
        head + ";" + warn + ";" + crit + ";" + t3;
        head + ";" + warn + ";" + t2;
        head + ";" + t1;
      }
    }
    TokenHeadChars(name, value, uom, ';');
    SplitFive(head, warn, crit, min, max, ';');
  }

  /** A token whose fields hold no `;` has exactly five of them and ends with one. */
  lemma PerfDataSemicolons(name: string, value: string, warn: string, crit: string,
                           uom: string, min: string, max: string)
    requires ';' !in name && ';' !in value && ';' !in uom
    requires ';' !in warn && ';' !in crit && ';' !in min && ';' !in max
    ensures var r := PerfDataString(name, value, warn, crit, uom, min, max);
      Count(';', r) == 5 && r[|r| - 1] == ';'
  {
    PerfDataFields(name, value, warn, crit, uom, min, max);
    SplitCount(PerfDataString(name, value, warn, crit, uom, min, max), ';');
  }

  lemma ValueUnitRoundTrip(value: string, uom: string)
    requires '[' !in value
    ensures ParseValueUnit(value + (if uom != "" then "[" + uom + "]" else "")) == Some((value, uom))
  {
    if uom == "" {
      assert value + "" == value;
      IndexOfAbsent(value, '[');
    } else {
      var vu := value + ("[" + uom + "]");
      assert vu == value + ['['] + (uom + "]");
      IndexOfFirst(value, '[', uom + "]");
      assert vu[..|value|] == value;
      assert vu[|value| + 1..|vu| - 1] == uom;
    }
  }

  lemma QuotedRoundTrip(name: string, vu: string)
    requires '\'' !in name
    ensures ParseQuoted(name + ['\''] + ("=" + vu))
         == match ParseValueUnit(vu)
            case None => None
            case Some((value, uom)) => Some((name, value, uom))
  {
    var rest := name + ['\''] + ("=" + vu);
    IndexOfFirst(name, '\'', "=" + vu);
    assert rest[..|name|] == name;
    assert rest[|name| + 1] == '=';
    assert rest[|name| + 2..] == vu;
  }

  lemma HeadRoundTrip(name: string, value: string, uom: string)
    requires '\'' !in name && '[' !in value
    ensures ParseHead(TokenHead(name, value, uom)) == Some((name, value, uom))
  {
    var vu := value + (if uom != "" then "[" + uom + "]" else "");
    var head := TokenHead(name, value, uom);
    assert head == ['\''] + (name + ['\''] + ("=" + vu));
    assert head[1..] == name + ['\''] + ("=" + vu);
    QuotedRoundTrip(name, vu);
    ValueUnitRoundTrip(value, uom);
  }

  /**
   * Reading a token back gives the fields it was made from, the unit
   * included exactly when it was non-empty.
   */
  lemma PerfDataRoundTrip(name: string, value: string, warn: string, crit: string,
                          uom: string, min: string, max: string)
    requires ';' !in name && ';' !in value && ';' !in uom
    requires ';' !in warn && ';' !in crit && ';' !in min && ';' !in max
    requires '\'' !in name && '[' !in value
    ensures ParsePerfData(PerfDataString(name, value, warn, crit, uom, min, max))
         == Some(PerfDatum(name, value, warn, crit, uom, min, max))
  {
    var r := PerfDataString(name, value, warn, crit, uom, min, max);
    PerfDataFields(name, value, warn, crit, uom, min, max);
    HeadRoundTrip(name, value, uom);
    var fields := Split(r, ';');
    assert |fields| == 6 && fields[0] == TokenHead(name, value, uom) && fields[5] == "";
    assert fields[1] == warn && fields[2] == crit && fields[3] == min && fields[4] == max;
  }

  // ---------------------------------------------------------------------
  // Status line
  // ---------------------------------------------------------------------

  /** The message as printed: an empty one becomes `-`, any other is kept verbatim. */
  function DisplayedMessage(message: string): (m: string)
    ensures m != ""
    ensures message != "" ==> m == message
    ensures message == "" ==> m == "-"
  {
    if message == "" then "-" else message
  }

  /** The tokens, each with one space before and one after. */
  function Join(perfdata: seq<string>): string
  {
    if perfdata == [] then "" else " " + perfdata[0] + " " + Join(perfdata[1..])
  }

  /** Total occurrences of `c` over all the tokens. */
  function SumCount(c: char, perfdata: seq<string>): nat
  {
    if perfdata == [] then 0 else Count(c, perfdata[0]) + SumCount(c, perfdata[1..])
  }

  /**
   * `check_output_string`: rejects an unknown state; otherwise
   * `state: message ` without perfdata and `state: message |` followed by
   * the space-padded tokens with it.
   */
  function CheckOutputString(state: string, message: string, perfdata: Option<seq<string>> := None)
    : (r: Result<string>)
    ensures r.Ok? <==> IsState(state)
    ensures r.Err? ==> r.msg == BadState
  {
    if !IsState(state) then Err(BadState)
    else
      var m := DisplayedMessage(message);
      match perfdata
      case Some(ps) => Ok(state + ": " + m + " |" + Join(ps))
      case None => Ok(state + ": " + m + " ")
  }

  lemma {:induction false} JoinCount(c: char, perfdata: seq<string>)
    requires c != ' '
    ensures Count(c, Join(perfdata)) == SumCount(c, perfdata)
  {
    if perfdata != [] {
      var p := perfdata[0];
      CountConcat(c, " " + p + " ", Join(perfdata[1..]));
      CountConcat(c, " " + p, " ");
      CountConcat(c, " ", p);
      JoinCount(c, perfdata[1..]);
    }
  }

  lemma NoPipeInState(state: string)
    requires IsState(state)
    ensures Count('|', state) == 0
  {
  }

  /** Without perfdata the line is `state: message ` and adds no `|`. */
  lemma OutputWithoutPerfdata(state: string, message: string)
    requires IsState(state)
    ensures CheckOutputString(state, message) == Ok(state + ": " + DisplayedMessage(message) + " ")
    ensures Count('|', CheckOutputString(state, message).value) == Count('|', message)
  {
    var m := DisplayedMessage(message);
    NoPipeInState(state);
    CountConcat('|', state + ": " + m, " ");
    CountConcat('|', state + ": ", m);
    CountConcat('|', state, ": ");
  }

  /**
   * With perfdata the line is `state: message |` and the padded tokens in
   * order: one `|` beyond those of the message and the tokens, ending in
   * that `|` when the list is empty.
   */
  lemma OutputWithPerfdata(state: string, message: string, perfdata: seq<string>)
    requires IsState(state)
    ensures CheckOutputString(state, message, Some(perfdata))
         == Ok(state + ": " + DisplayedMessage(message) + " |" + Join(perfdata))
    ensures var line := CheckOutputString(state, message, Some(perfdata)).value;
      && Count('|', line) == Count('|', message) + 1 + SumCount('|', perfdata)
      && line[|line| - 1] == (if perfdata == [] then '|' else ' ')
  {
    var m := DisplayedMessage(message);
    NoPipeInState(state);
    JoinCount('|', perfdata);
    CountConcat('|', state + ": " + m + " |", Join(perfdata));
    CountConcat('|', state + ": " + m, " |");
    CountConcat('|', state + ": ", m);
    CountConcat('|', state, ": ");
  }

  /** Every accepted line starts with its state and `: `. */
  lemma LineStartsWithState(state: string, message: string, perfdata: Option<seq<string>>)
    requires IsState(state)
    ensures var line := CheckOutputString(state, message, perfdata).value;
      |line| >= |state| + 2 && line[..|state| + 2] == state + ": "
  {
    var head := state + ": " + DisplayedMessage(message);
    var tail := if perfdata.Some? then " |" + Join(perfdata.value) else " ";
    assert CheckOutputString(state, message, perfdata).value == head + tail;
    assert (head + tail)[..|state| + 2] == head[..|state| + 2];
  }

  /** The line with a single token, as the latency, percentage and client probes print it. */
  lemma LineOfOne(state: string, message: string, token: string)
    requires IsState(state) && message != ""
    ensures CheckOutputString(state, message, Some([token])) == Ok(state + ": " + message + " | " + token + " ")
  {
    assert [token][1..] == [];
    assert Join([token]) == " " + token + " " + "";
    var p := state + ": " + message;
    assert p + " |" + (" " + token + " " + "") == p + " | " + token + " ";
  }

  /** The line with two tokens, as the absolute memory probe prints it. */
  lemma LineOfTwo(state: string, message: string, first: string, second: string)
    requires IsState(state) && message != ""
    ensures CheckOutputString(state, message, Some([first, second]))
         == Ok(state + ": " + message + " | " + first + "  " + second + " ")
  {
    var ps := [first, second];
    assert ps[1..] == [second] && ps[1..][1..] == [];
    assert Join(ps[1..]) == " " + second + " " + "";
    assert Join(ps) == " " + first + " " + (" " + second + " " + "");
    var p := state + ": " + message;
    assert p + " |" + (" " + first + " " + (" " + second + " " + ""))
        == p + " | " + first + "  " + second + " ";
  }

  /** The literal examples of the output grammar. */
  lemma FormatExamples()
    ensures PerfDataString("x", "5") == "'x'=5;;;;;"
    ensures PerfDataString("x", "5", "1", "2") == "'x'=5;1;2;;;"
    ensures PerfDataString("x", "5", "1", "2", "ms") == "'x'=5[ms];1;2;;;"
    ensures CheckOutputString("OK", "fine", Some(["'a'=1;;;;;"])) == Ok("OK: fine | 'a'=1;;;;; ")
    ensures CheckOutputString("OK", "") == Ok("OK: - ")
    ensures CheckOutputString("Critial", "Failed to ping-pong") == Err(BadState)
  {
    var token := "'a'=1;;;;;";
    assert [token][1..] == [];
    assert Join([token]) == " " + token + " ";
    assert "OK" + ": " + "fine" + " |" + (" " + token + " ") == "OK: fine | 'a'=1;;;;; ";
    assert "OK" + ": " + "-" + " " == "OK: - ";
  }
}
