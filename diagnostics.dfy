/** The `textDocument/publishDiagnostics` handler registered by `start_server`:
    what it logs for one notification. */
module Diagnostics {
  import opened Wrappers
  import opened Json

  const SEVERITY_NAMES: seq<string> := ["Error", "Warning", "Info", "Hint"]
  const MAX_DETAILS := 5
  const UNKNOWN_MESSAGE := "Unknown diagnostic"

  /** A logged line, before string formatting: the count line
      `Diagnostics for <uri>: <n> issues found`, or the detail line
      `  Line <line>: <severity> - <message>`. */
  datatype LogLine =
    | CountLine(uri: Json, count: nat)
    | DetailLine(line: Json, severity: string, message: Json)

  /** The lines one call logs, and whether the call raised after them. */
  datatype Logged = Logged(lines: seq<LogLine>, raised: bool)

  /** `['Error', 'Warning', 'Info', 'Hint'][min(severity, 3)]`, None where it raises.
      `min` compares ints and bools (a bool is 0 or 1 and is returned as itself);
      any other value raises TypeError. A negative index counts from the end of
      the list; below -4 it raises IndexError. */
  function SeverityName(severity: Json): (r: Option<string>)
    ensures r.Some? <==> severity.JBool? || (severity.JInt? && severity.i >= -|SEVERITY_NAMES|)
    ensures r.Some? ==> r.value in SEVERITY_NAMES
    ensures severity.JInt? && 0 <= severity.i < 3 ==> r == Some(SEVERITY_NAMES[severity.i])
    ensures severity.JInt? && severity.i >= 3 ==> r == Some("Hint")
    ensures severity.JInt? && -|SEVERITY_NAMES| <= severity.i < 0 ==>
      r == Some(SEVERITY_NAMES[|SEVERITY_NAMES| + severity.i])
    ensures severity.JBool? ==> r == Some(if severity.b then "Warning" else "Error")
  {
    var index := match severity
      case JInt(i) => Some(if i < 3 then i else 3)
      case JBool(b) => Some(if b then 1 else 0)
      case _ => None;
    if index.None? then None
    else if 0 <= index.value then Some(SEVERITY_NAMES[index.value])
    else if -|SEVERITY_NAMES| <= index.value then Some(SEVERITY_NAMES[|SEVERITY_NAMES| + index.value])
    else None
  }

  /** The detail line for one entry of `diagnostics`, None where building it
      raises: the entry is not a dict, its severity has no name, or its `range`
      or `range.start` is present but not a dict. */
  function Describe(diag: Json): (r: Option<LogLine>)
    ensures r.Some? <==>
      && diag.JObj?
      && SeverityName(Get(diag.fields, "severity", JInt(1))).Some?
      && Get(diag.fields, "range", JObj(map[])).JObj?
      && Get(Get(diag.fields, "range", JObj(map[])).fields, "start", JObj(map[])).JObj?
    ensures r.Some? ==>
      && r.value.DetailLine?
      && r.value.message == Get(diag.fields, "message", JStr(UNKNOWN_MESSAGE))
      && Some(r.value.severity) == SeverityName(Get(diag.fields, "severity", JInt(1)))
      && r.value.line == Get(Get(Get(diag.fields, "range", JObj(map[])).fields, "start", JObj(map[])).fields, "line", JStr("?"))
  {
    if !diag.JObj? then None
    else
      var message := Get(diag.fields, "message", JStr(UNKNOWN_MESSAGE));
      var severity := SeverityName(Get(diag.fields, "severity", JInt(1)));
      if severity.None? then None
      else
        var range := Get(diag.fields, "range", JObj(map[]));
        if !range.JObj? then None
        else
          var start := Get(range.fields, "start", JObj(map[]));
          if !start.JObj? then None
          else Some(DetailLine(Get(start.fields, "line", JStr("?")), severity.value, message))
  }

  /** The detail lines for `diags` in order, up to the first entry that raises;
      the flag says whether one did. */
  function Details(diags: seq<Json>): Logged
    decreases |diags|
  {
    if diags == [] then Logged([], false)
    else match Describe(diags[0])
      case None => Logged([], true)
      case Some(line) =>
        var rest := Details(diags[1..]);
        Logged([line] + rest.lines, rest.raised)
  }

  /** The detail lines describe a prefix of `diags`, position by position; the
      loop raises exactly when it stops short, and then at an entry that cannot
      be described. */
  lemma {:induction false} DetailsDescribePrefix(diags: seq<Json>)
    ensures var r := Details(diags);
      && |r.lines| <= |diags|
      && (forall k :: 0 <= k < |r.lines| ==> Describe(diags[k]) == Some(r.lines[k]))
      && (r.raised <==> |r.lines| < |diags|)
      && (r.raised ==> Describe(diags[|r.lines|]).None?)
    decreases |diags|
  {
    if diags != [] && Describe(diags[0]).Some? {
      DetailsDescribePrefix(diags[1..]);
      var rest := Details(diags[1..]);
      var r := Details(diags);
      assert r.lines == [Describe(diags[0]).value] + rest.lines;
      forall k | 1 <= k < |r.lines| ensures Describe(diags[k]) == Some(r.lines[k]) {
        assert diags[k] == diags[1..][k - 1];
      }
    }
  }

  /** What the handler logs for `params`, and whether it raises. `len` and
      `[:5]` also apply to strings and dicts: a truthy string or dict is counted
      and then raises (iterating a string yields strings, which have no `get`;
      a dict cannot be sliced); a truthy number has no `len` and raises before
      anything is logged. */
  function OnPublishDiagnostics(params: Json): Logged
  {
    if !(params.JObj? && "uri" in params.fields && "diagnostics" in params.fields) then Logged([], false)
    else
      var uri := params.fields["uri"];
      var diags := params.fields["diagnostics"];
      if !Truthy(diags) then Logged([], false)
      else match diags
        case JArr(items) =>
          var d := Details(items[..if |items| < MAX_DETAILS then |items| else MAX_DETAILS]);
          Logged([CountLine(uri, |items|)] + d.lines, d.raised)
        case JStr(s) => Logged([CountLine(uri, |s|)], true)
        case JObj(fields) => Logged([CountLine(uri, |fields|)], true)
        case _ => Logged([], true)
  }

  lemma DetailsStep(diags: seq<Json>, k: nat)
    requires k < |diags|
    ensures Describe(diags[k]).None? ==> Details(diags[k..]) == Logged([], true)
    ensures Describe(diags[k]).Some? ==>
      var rest := Details(diags[k + 1..]);
      Details(diags[k..]) == Logged([Describe(diags[k]).value] + rest.lines, rest.raised)
  {
    assert diags[k..][0] == diags[k];
    assert diags[k..][1..] == diags[k + 1..];
  }

  /** The `for diag in diagnostics[:5]` loop: one detail line per entry,
      stopping at the first entry that raises. */
  method LogDetails(batch: seq<Json>) returns (details: seq<LogLine>, raised: bool)
    ensures Logged(details, raised) == Details(batch)
  {
    details, raised := [], false;
    var k := 0;
    while k < |batch|
      invariant 0 <= k <= |batch|
      invariant var rest := Details(batch[k..]);
        Details(batch) == Logged(details + rest.lines, rest.raised)
      decreases |batch| - k
    {
      DetailsStep(batch, k);
      var line := Describe(batch[k]);
      if line.None? {
        raised := true;
        assert details + [] == details;
        return;
      }
      assert details + ([line.value] + Details(batch[k + 1..]).lines)
          == (details + [line.value]) + Details(batch[k + 1..]).lines;
      details := details + [line.value];
      k := k + 1;
    }
    assert batch[k..] == [];
    assert details + [] == details;
  }

  /** The handler: the count line, then the detail lines of the first five
      entries. */
  method PublishDiagnostics(params: Json) returns (lines: seq<LogLine>, raised: bool)
    ensures Logged(lines, raised) == OnPublishDiagnostics(params)
  {
    lines, raised := [], false;
    if !(params.JObj? && "uri" in params.fields && "diagnostics" in params.fields) {
      return;
    }
    var uri := params.fields["uri"];
    var diags := params.fields["diagnostics"];
    if !Truthy(diags) {
      return;
    }
    match diags {
      case JArr(items) =>
        var details;
        details, raised := LogDetails(items[..if |items| < MAX_DETAILS then |items| else MAX_DETAILS]);
        lines := [CountLine(uri, |items|)] + details;
      case JStr(s) =>
        lines := [CountLine(uri, |s|)];
        raised := true;
      case JObj(fields) =>
        lines := [CountLine(uri, |fields|)];
        raised := true;
      case _ =>
        raised := true;
    }
  }

  // ---------------------------------------------------------------------------
  // Properties

  /** Nothing is logged and nothing raises unless `params` is a dict with `uri`
      and a truthy `diagnostics`; anything logged starts with the count line. */
  lemma LogsOnlyNonEmptyDiagnostics(params: Json)
    ensures var r := OnPublishDiagnostics(params);
      (r.lines != [] || r.raised) <==>
        params.JObj? && "uri" in params.fields && "diagnostics" in params.fields
        && Truthy(params.fields["diagnostics"])
    ensures var r := OnPublishDiagnostics(params);
      r.lines != [] ==> r.lines[0].CountLine? && r.lines[0].uri == params.fields["uri"]
  {
  }

  /** For a list of diagnostics: the count is the full length, and at most five
      detail lines follow, each describing the entry at its position. */
  lemma ListLogsCountThenFirstFive(params: Json)
    requires params.JObj? && "uri" in params.fields && "diagnostics" in params.fields
    requires params.fields["diagnostics"].JArr? && params.fields["diagnostics"].items != []
    ensures var items := params.fields["diagnostics"].items;
      var r := OnPublishDiagnostics(params);
      && r.lines[0] == CountLine(params.fields["uri"], |items|)
      && 1 <= |r.lines| <= 1 + MAX_DETAILS && |r.lines| <= 1 + |items|
      && forall k :: 1 <= k < |r.lines| ==> Describe(items[k - 1]) == Some(r.lines[k])
  {
    var items := params.fields["diagnostics"].items;
    DetailsDescribePrefix(items[..if |items| < MAX_DETAILS then |items| else MAX_DETAILS]);
  }

  /** When every entry of the first five can be described, exactly
      `min(len(diagnostics), 5)` detail lines follow the count and nothing raises. */
  lemma WellFormedListLogsExactly(params: Json)
    requires params.JObj? && "uri" in params.fields && "diagnostics" in params.fields
    requires params.fields["diagnostics"].JArr? && params.fields["diagnostics"].items != []
    requires var items := params.fields["diagnostics"].items;
      forall k :: 0 <= k < |items| && k < MAX_DETAILS ==> Describe(items[k]).Some?
    ensures var items := params.fields["diagnostics"].items;
      var r := OnPublishDiagnostics(params);
      && !r.raised
      && |r.lines| == 1 + (if |items| < MAX_DETAILS then |items| else MAX_DETAILS)
  {
    var items := params.fields["diagnostics"].items;
    var batch := items[..if |items| < MAX_DETAILS then |items| else MAX_DETAILS];
    DetailsDescribePrefix(batch);
    if Details(batch).raised {
      assert Describe(batch[|Details(batch).lines|]).Some?;
    }
  }

  /** An entry without `severity` is logged as a `Warning`: the default 1 indexes
      the second name, although LSP numbers Error as 1. */
  lemma MissingSeverityIsWarning(diag: Json)
    requires diag.JObj? && "severity" !in diag.fields
    requires "range" !in diag.fields
    ensures Describe(diag) == Some(DetailLine(JStr("?"), "Warning", Get(diag.fields, "message", JStr(UNKNOWN_MESSAGE))))
  {
  }

  /** Seven well-formed entries: a count of 7 and details for exactly the first five. */
  lemma SevenDiagnosticsLogFive(uri: Json)
    ensures var diag := JObj(map["message" := JStr("unused variable"), "severity" := JInt(2)]);
      var params := JObj(map["uri" := uri, "diagnostics" := JArr(seq(7, _ => diag))]);
      var r := OnPublishDiagnostics(params);
      && !r.raised
      && r.lines == [CountLine(uri, 7)] + seq(5, _ => DetailLine(JStr("?"), "Info", JStr("unused variable")))
  {
    var diag := JObj(map["message" := JStr("unused variable"), "severity" := JInt(2)]);
    var items := seq(7, _ => diag);
    var line := DetailLine(JStr("?"), "Info", JStr("unused variable"));
    assert Describe(diag) == Some(line);
    var d := Details(items[..5]);
    DetailsDescribePrefix(items[..5]);
    assert !d.raised;
    assert d.lines == seq(5, _ => line);
  }
}
