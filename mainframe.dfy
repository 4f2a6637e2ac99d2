// The main frame's chart logic: the router for tagged messages posted by the
// page, the error and double-click handlers, the write-back of a confirmed
// series edit, the grid edit rules and the initial chart data.

module MainFrame {
  import opened Json
  import opened ChartHelper

  /** Every chart message starts with this prefix. */
  const ChartMessagePrefix: string := "wxECharts::"

  /** The field delimiter of chart messages. */
  const FieldDelimiter: char := '\t'

  // ---------------------------------------------------------------------
  // Splitting a message into fields
  // ---------------------------------------------------------------------

  /** The pending field, if there is one. */
  function Flush(cur: string): seq<string>
  {
    if cur == [] then [] else [cur]
  }

  /** The fields of `s`, `cur` being the part of a field read so far. A tab
      ends a field; runs of tabs produce no empty fields. */
  function TokensFrom(s: string, cur: string): (fields: seq<string>)
    requires FieldDelimiter !in cur
    ensures forall i :: 0 <= i < |fields| ==> fields[i] != [] && FieldDelimiter !in fields[i]
    decreases |s|
  {
    if s == [] then Flush(cur)
    else if s[0] == FieldDelimiter then Flush(cur) + TokensFrom(s[1..], [])
    else TokensFrom(s[1..], cur + [s[0]])
  }

  /** Splitting on the tab character with empty fields dropped, as the
      toolkit's tokenizer does when its delimiters are all whitespace. */
  function Tokenize(s: string): (fields: seq<string>)
    ensures forall i :: 0 <= i < |fields| ==> fields[i] != [] && FieldDelimiter !in fields[i]
  {
    TokensFrom(s, [])
  }

  /** Text without a tab only extends the pending field. */
  lemma {:induction false} TokensFromWord(w: string, rest: string, cur: string)
    requires FieldDelimiter !in cur && FieldDelimiter !in w
    ensures TokensFrom(w + rest, cur) == TokensFrom(rest, cur + w)
  {
    if w == [] {
      assert w + rest == rest && cur + w == cur;
    } else {
      assert (w + rest)[0] == w[0];
      assert (w + rest)[1..] == w[1..] + rest;
      TokensFromWord(w[1..], rest, cur + [w[0]]);
      assert cur + [w[0]] + w[1..] == cur + w;
    }
  }

  lemma {:induction false} TokensFromSplit(a: string, b: string, cur: string)
    requires FieldDelimiter !in cur
    ensures TokensFrom(a + [FieldDelimiter] + b, cur) == TokensFrom(a, cur) + Tokenize(b)
  {
    var s := a + [FieldDelimiter] + b;
    if a == [] {
      assert s == [FieldDelimiter] + b;
      assert s[1..] == b;
    } else {
      assert s[0] == a[0];
      assert s[1..] == a[1..] + [FieldDelimiter] + b;
      if a[0] == FieldDelimiter {
        TokensFromSplit(a[1..], b, []);
      } else {
        TokensFromSplit(a[1..], b, cur + [a[0]]);
      }
    }
  }

  /** The fields on either side of a tab are the fields of the whole. */
  lemma TokenizeSplit(a: string, b: string)
    ensures Tokenize(a + [FieldDelimiter] + b) == Tokenize(a) + Tokenize(b)
  {
    TokensFromSplit(a, b, []);
  }

  /** A non-empty text without a tab is a single field. */
  lemma TokenizeField(w: string)
    requires w != [] && FieldDelimiter !in w
    ensures Tokenize(w) == [w]
  {
    TokensFromWord(w, [], []);
    assert w + [] == w;
    assert [] + w == w;
    assert TokensFrom([], w) == [w];
  }

  /** Fields joined with tabs. */
  function JoinFields(fields: seq<string>): string
    requires fields != []
  {
    if |fields| == 1 then fields[0] else fields[0] + [FieldDelimiter] + JoinFields(fields[1..])
  }

  /** Non-empty, tab-free fields joined with tabs split back into the same fields. */
  lemma {:induction false} TokenizeJoin(fields: seq<string>)
    requires fields != []
    requires forall i :: 0 <= i < |fields| ==> fields[i] != [] && FieldDelimiter !in fields[i]
    ensures Tokenize(JoinFields(fields)) == fields
  {
    TokenizeField(fields[0]);
    if |fields| > 1 {
      TokenizeJoin(fields[1..]);
      TokenizeSplit(fields[0], JoinFields(fields[1..]));
      assert [fields[0]] + fields[1..] == fields;
    }
  }

  // ---------------------------------------------------------------------
  // Routing
  // ---------------------------------------------------------------------

  /** What the router does with a message posted by the page. */
  datatype Route =
    | NotChartMessage                                  // ignored, nothing logged
    | InvalidMessage(msg: string)                      // fewer than two fields, logged
    | ErrorMessage(params: seq<string>, msg: string)
    | DoubleClickMessage(params: seq<string>, msg: string)
    | ContextMenuMessage
    | UnexpectedMessage(msg: string)                   // unknown type, logged

  /** The prefix is stripped and the rest split into fields; the first field
      is the message type and the others are the handler's parameters. */
  function RouteMessage(s: string): (r: Route)
    ensures r == NotChartMessage <==> !(ChartMessagePrefix <= s)
    ensures r.ErrorMessage? || r.DoubleClickMessage? ==>
      r.params != [] && forall i :: 0 <= i < |r.params| ==> r.params[i] != [] && FieldDelimiter !in r.params[i]
  {
    if !(ChartMessagePrefix <= s) then NotChartMessage
    else
      var msg := s[|ChartMessagePrefix|..];
      var fields := Tokenize(msg);
      if |fields| < 2 then InvalidMessage(msg)
      else
        var params := fields[1..];
        if fields[0] == "error" then ErrorMessage(params, msg)
        else if fields[0] == "dblclick" then DoubleClickMessage(params, msg)
        else if fields[0] == "contextmenu" then ContextMenuMessage
        else UnexpectedMessage(msg)
  }

  /** A message is routed by the fields after the prefix: ignored without
      the exact prefix, invalid with fewer than two fields, and otherwise
      dispatched on the exact type tag with the remaining fields as parameters. */
  lemma RouteByFields(body: string)
    ensures var fields := Tokenize(body);
      var r := RouteMessage(ChartMessagePrefix + body);
      && (|fields| < 2 <==> r == InvalidMessage(body))
      && (|fields| >= 2 && fields[0] == "error" ==> r == ErrorMessage(fields[1..], body))
      && (|fields| >= 2 && fields[0] == "dblclick" ==> r == DoubleClickMessage(fields[1..], body))
      && (|fields| >= 2 && fields[0] == "contextmenu" ==> r == ContextMenuMessage)
      && (|fields| >= 2 && fields[0] !in {"error", "dblclick", "contextmenu"} ==> r == UnexpectedMessage(body))
  {
    assert (ChartMessagePrefix + body)[|ChartMessagePrefix|..] == body;
  }

  /** The outcome of the error handler: a malformed message, or the error's
      name, the function it happened in and its message, as logged. */
  datatype ErrorReport = MalformedError(msg: string) | ScriptError(name: string, source: string, message: string)

  function OnScriptChartError(params: seq<string>, msg: string): (r: ErrorReport)
    ensures r.ScriptError? <==> |params| >= 3
    ensures r.ScriptError? ==> [r.name, r.source, r.message] == params[..3]
  {
    if |params| < 3 then MalformedError(msg)
    else ScriptError(params[0], params[1], params[2])
  }

  /** The outcome of the double-click handler. */
  datatype DoubleClickReport =
    | MalformedDoubleClick(msg: string)
    | JsonError                                         // parse or key error, caught
    | YAxisDoubleClicked(axisIndex: int, targetType: string)
    | SeriesDoubleClicked(variableIdx: nat, seriesIdx: nat, value: real, color: string)
    | UnexpectedDoubleClick(msg: string)

  /** The second parameter is parsed as JSON (`parse`; None when the text is
      not JSON) before the target, the first parameter, is looked at. */
  function OnScriptChartDoubleClick(params: seq<string>, msg: string, parse: string -> Option<Json>): (r: DoubleClickReport)
    ensures r.MalformedDoubleClick? <==> |params| < 2
    ensures r.YAxisDoubleClicked? ==>
      params[0] == "yAxis" && parse(params[1]).Some? &&
      IntAt(parse(params[1]).value, "yAxisIndex") == Some(r.axisIndex) &&
      StringAt(parse(params[1]).value, "targetType") == Some(r.targetType)
    ensures r.SeriesDoubleClicked? ==>
      params[0] == "series" && parse(params[1]).Some? &&
      SizeAt(parse(params[1]).value, "dataIndex") == Some(r.variableIdx) &&
      SizeAt(parse(params[1]).value, "seriesIndex") == Some(r.seriesIdx) &&
      DoubleAt(parse(params[1]).value, "value") == Some(r.value) &&
      StringAt(parse(params[1]).value, "color") == Some(r.color)
    ensures r.UnexpectedDoubleClick? ==> params[0] != "yAxis" && params[0] != "series"
    ensures (|params| >= 2 && parse(params[1]).Some? && params[0] == "yAxis" &&
             IntAt(parse(params[1]).value, "yAxisIndex").Some? &&
             StringAt(parse(params[1]).value, "targetType").Some?) ==> r.YAxisDoubleClicked?
    ensures (|params| >= 2 && parse(params[1]).Some? && params[0] == "series" &&
             SizeAt(parse(params[1]).value, "dataIndex").Some? &&
             SizeAt(parse(params[1]).value, "seriesIndex").Some? &&
             DoubleAt(parse(params[1]).value, "value").Some? &&
             StringAt(parse(params[1]).value, "color").Some?) ==> r.SeriesDoubleClicked?
    ensures |params| >= 2 && parse(params[1]).Some? && params[0] != "yAxis" && params[0] != "series" ==>
      r == UnexpectedDoubleClick(msg)
    ensures r.JsonError? <==> (|params| >= 2 && (parse(params[1]).None? ||
      (params[0] == "yAxis" && (IntAt(parse(params[1]).value, "yAxisIndex").None? ||
                                StringAt(parse(params[1]).value, "targetType").None?)) ||
      (params[0] == "series" && (SizeAt(parse(params[1]).value, "dataIndex").None? ||
                                 SizeAt(parse(params[1]).value, "seriesIndex").None? ||
                                 DoubleAt(parse(params[1]).value, "value").None? ||
                                 StringAt(parse(params[1]).value, "color").None?))))
  {
    if |params| < 2 then MalformedDoubleClick(msg)
    else
      var j := parse(params[1]);
      if j.None? then JsonError
      else if params[0] == "yAxis" then
        var axisIndex := IntAt(j.value, "yAxisIndex");
        var targetType := StringAt(j.value, "targetType");
        if axisIndex.None? || targetType.None? then JsonError
        else YAxisDoubleClicked(axisIndex.value, targetType.value)
      else if params[0] == "series" then
        var variableIdx := SizeAt(j.value, "dataIndex");
        var seriesIdx := SizeAt(j.value, "seriesIndex");
        var value := DoubleAt(j.value, "value");
        var color := StringAt(j.value, "color");
        if variableIdx.None? || seriesIdx.None? || value.None? || color.None? then JsonError
        else SeriesDoubleClicked(variableIdx.value, seriesIdx.value, value.value, color.value)
      else UnexpectedDoubleClick(msg)
  }

  // ---------------------------------------------------------------------
  // Writing back a confirmed series edit
  // ---------------------------------------------------------------------

  /** What the user did with the data-properties dialog: cancel it, or
      confirm a variable name, a series name and a series kind (0 or 1, the
      index of the chosen radio button). */
  datatype DialogOutcome = Cancelled | Confirmed(variableName: string, seriesName: string, seriesType: int)

  /** The table after a confirmed edit: each setter is tried in turn and
      keeps the table as it was when its own checks fail. */
  function WriteBack(t: Table, variableIdx: nat, seriesIdx: nat, variableName: string,
                     seriesName: string, kind: SeriesType): Table
  {
    var t1 := Apply(t.SetVariableName(variableIdx, variableName), t);
    var t2 := Apply(t1.SetSeriesName(seriesIdx, seriesName), t1);
    Apply(t2.SetSeriesType(seriesIdx, kind), t2)
  }

  /** A confirmed edit of an existing cell changes no values and no counts,
      always sets the chosen kind, and keeps the table consistent and its
      names unique. */
  lemma WriteBackKeepsValues(t: Table, variableIdx: nat, seriesIdx: nat, variableName: string,
                             seriesName: string, kind: SeriesType)
    requires variableIdx < |t.variableNames| && seriesIdx < |t.series|
    ensures var r := WriteBack(t, variableIdx, seriesIdx, variableName, seriesName, kind);
      && |r.variableNames| == |t.variableNames|
      && |r.series| == |t.series|
      && (forall i :: 0 <= i < |t.series| ==> r.series[i].data == t.series[i].data)
      && r.series[seriesIdx].kind == kind
      && (t.Consistent() ==> r.Consistent())
      && (t.UniqueNames() ==> r.UniqueNames())
  {
    var t1 := Apply(t.SetVariableName(variableIdx, variableName), t);
    var t2 := Apply(t1.SetSeriesName(seriesIdx, seriesName), t1);
    var names: seq<string> := [];
    if t.Consistent() {
      UpdatesPreserveConsistency(t, variableIdx, variableName, names, DefaultValueSeries(), kind, []);
      UpdatesPreserveConsistency(t1, seriesIdx, seriesName, names, DefaultValueSeries(), kind, []);
      UpdatesPreserveConsistency(t2, seriesIdx, seriesName, names, DefaultValueSeries(), kind, []);
    }
    if t.UniqueNames() {
      UpdatesPreserveUniqueNames(t, variableIdx, variableName, names, DefaultValueSeries(), kind, []);
      UpdatesPreserveUniqueNames(t1, seriesIdx, seriesName, names, DefaultValueSeries(), kind, []);
      UpdatesPreserveUniqueNames(t2, seriesIdx, seriesName, names, DefaultValueSeries(), kind, []);
    }
  }

  /** The series branch of the double-click handler after the JSON has been
      read: look up the variable name, series name and kind; if all three
      exist, show them in the dialog, and on confirmation store the edited
      name and kind, resend the variable names only if that rename took, and
      always resend the series. */
  method WriteBackSeriesEdit(h: ChartHelper, variableIdx: nat, seriesIdx: nat, dialog: DialogOutcome)
    requires dialog.Confirmed? ==> 0 <= dialog.seriesType < 2
    modifies h`variableNames, h`series, h.webView
    ensures var t := old(h.Data());
      var applies := variableIdx < |t.variableNames| && seriesIdx < |t.series| && dialog.Confirmed?;
      h.Data() == if applies
        then WriteBack(t, variableIdx, seriesIdx, dialog.variableName, dialog.seriesName,
                       SeriesTypeFromInt(dialog.seriesType))
        else t
    ensures var t := old(h.Data());
      var applies := variableIdx < |t.variableNames| && seriesIdx < |t.series| && dialog.Confirmed?;
      h.webView != null ==> (h.webView.scripts == old(h.webView.scripts) +
        if !applies then []
        else
          var renamed := t.SetVariableName(variableIdx, dialog.variableName);
          (if renamed.Some? then UpdateVariableNamesCalls(renamed.value.variableNames) else []) +
          UpdateSeriesCalls(h.series))
  {
    var okVariable, variableName := h.GetVariableName(variableIdx, "");
    if !okVariable {
      return;
    }
    var okSeries, seriesName := h.GetSeriesName(seriesIdx, "");
    if !okSeries {
      return;
    }
    var okType, seriesType := h.GetSeriesType(seriesIdx, Bar);
    if !okType {
      return;
    }
    var seriesTypeInt := SeriesTypeToInt(seriesType);
    // The dialog starts from these values; its outcome is the user's choice.
    if dialog.Cancelled? {
      return;
    }
    variableName, seriesName, seriesTypeInt := dialog.variableName, dialog.seriesName, dialog.seriesType;
    var renamed := h.SetVariableName(variableIdx, variableName);
    if renamed {
      h.RunChartUpdateVariableNames();
    }
    var _ := h.SetSeriesName(seriesIdx, seriesName);
    var _ := h.SetSeriesType(seriesIdx, SeriesTypeFromInt(seriesTypeInt));
    h.RunChartUpdateSeries();
  }

  /** A message from the page: route it and, for a series double-click whose
      JSON reads, write back what the dialog returns. Every other message
      leaves the data and the commands sent as they were. */
  method OnWebViewMessageReceived(h: ChartHelper, s: string, parse: string -> Option<Json>,
                                  dialog: DialogOutcome) returns (route: Route)
    requires dialog.Confirmed? ==> 0 <= dialog.seriesType < 2
    modifies h`variableNames, h`series, h.webView
    ensures route == RouteMessage(s)
    ensures !(route.DoubleClickMessage? && OnScriptChartDoubleClick(route.params, route.msg, parse).SeriesDoubleClicked?) ==>
      h.Data() == old(h.Data()) && (h.webView != null ==> h.webView.scripts == old(h.webView.scripts))
    ensures route.DoubleClickMessage? && OnScriptChartDoubleClick(route.params, route.msg, parse).SeriesDoubleClicked? ==>
      var report := OnScriptChartDoubleClick(route.params, route.msg, parse);
      var t := old(h.Data());
      h.Data() == if report.variableIdx < |t.variableNames| && report.seriesIdx < |t.series| && dialog.Confirmed?
        then WriteBack(t, report.variableIdx, report.seriesIdx, dialog.variableName, dialog.seriesName,
                       SeriesTypeFromInt(dialog.seriesType))
        else t
  {
    route := RouteMessage(s);
    if route.DoubleClickMessage? {
      var report := OnScriptChartDoubleClick(route.params, route.msg, parse);
      if report.SeriesDoubleClicked? {
        WriteBackSeriesEdit(h, report.variableIdx, report.seriesIdx, dialog);
      }
    }
  }

  // ---------------------------------------------------------------------
  // Grid edits
  // ---------------------------------------------------------------------

  const MinAllowedValue: real := -100.0
  const MaxAllowedValue: real := 100.0

  /** Whether a grid edit may go ahead (it is vetoed otherwise). `parsed`
      is the edited text read as a number, None when it does not read as one. */
  function CellEditAllowed(parsed: Option<real>): (allowed: bool)
    ensures allowed <==> parsed.Some? && MinAllowedValue <= parsed.value <= MaxAllowedValue
  {
    !(parsed.None? || parsed.value < MinAllowedValue || parsed.value > MaxAllowedValue)
  }

  /** All series values lie in the range the grid accepts. */
  ghost predicate ValuesInRange(t: Table)
  {
    forall i, k :: 0 <= i < |t.series| && 0 <= k < |t.series[i].data| ==>
      MinAllowedValue <= t.series[i].data[k] <= MaxAllowedValue
  }

  /** The table after the value at `row` of series `col` is replaced; an
      edit is stored only if the series' length matches the variable count. */
  function EditCell(t: Table, row: nat, col: nat, value: real): Table
    requires col < |t.series| ==> row < |t.series[col].data|
  {
    if col >= |t.series| then t
    else Apply(t.SetSeriesData(col, t.series[col].data[row := value]), t)
  }

  /** In a consistent table an edit replaces exactly one value and nothing else. */
  lemma EditCellReplacesOneValue(t: Table, row: nat, col: nat, value: real)
    requires t.Consistent()
    requires col < |t.series| && row < |t.variableNames|
    ensures var r := EditCell(t, row, col, value);
      && r.variableNames == t.variableNames
      && |r.series| == |t.series|
      && r.Consistent()
      && (forall c :: 0 <= c < |t.series| ==>
            r.series[c].name == t.series[c].name && r.series[c].kind == t.series[c].kind)
      && (forall c, k :: 0 <= c < |t.series| && 0 <= k < |t.variableNames| ==>
            r.series[c].data[k] == if c == col && k == row then value else t.series[c].data[k])
  {
  }

  /** An edit that passed the range check keeps every value in range. */
  lemma AllowedEditKeepsRange(t: Table, row: nat, col: nat, value: real)
    requires ValuesInRange(t)
    requires col < |t.series| ==> row < |t.series[col].data|
    requires CellEditAllowed(Some(value))
    ensures ValuesInRange(EditCell(t, row, col, value))
  {
  }

  /** After an accepted edit: store the new value at `row` of series `col`
      and resend the series. `value` is the cell's text read as a number. */
  method OnGridCellChanged(h: ChartHelper, row: nat, col: nat, value: real)
    requires col < |h.series| ==> row < |h.series[col].data|
    modifies h`series, h.webView
    ensures h.Data() == EditCell(old(h.Data()), row, col, value)
    ensures h.webView != null ==> (h.webView.scripts == old(h.webView.scripts) +
      if col < |old(h.series)| then UpdateSeriesCalls(h.series) else [])
  {
    var ok, data := h.GetSeriesData(col, []);
    if ok {
      data := data[row := value];
      var _ := h.SetSeriesData(col, data);
      h.RunChartUpdateSeries();
    }
  }

  // ---------------------------------------------------------------------
  // Initial data
  // ---------------------------------------------------------------------

  function InitialTable(): Table
  {
    Table(["Variable 1", "Variable 2", "Variable 3"],
          [ValueSeries("Group A", Bar, [10.0, 20.0, 30.0]),
           ValueSeries("Group B", Bar, [15.0, 25.0, 35.0])])
  }

  /** The initial data is consistent, has unique names and lies in the grid's range. */
  lemma InitialTableWellFormed()
    ensures InitialTable().Consistent()
    ensures InitialTable().UniqueNames()
    ensures ValuesInRange(InitialTable())
  {
    var t := InitialTable();
    assert SeriesNames(t.series) == ["Group A", "Group B"];
  }

  /** Fills an empty helper with three variables and two bar series. */
  method InitChartData(h: ChartHelper)
    requires h.variableNames == [] && h.series == []
    modifies h`variableNames, h`series
    ensures h.Data() == InitialTable()
  {
    var ok := h.AddVariableNames(["Variable 1", "Variable 2", "Variable 3"]);
    var s := DefaultValueSeries();
    s := s.(name := "Group A", kind := Bar, data := [10.0, 20.0, 30.0]);
    ok := h.AddSeries(s);
    s := s.(name := "Group B", kind := Bar, data := [15.0, 25.0, 35.0]);
    ok := h.AddSeries(s);
  }
}
