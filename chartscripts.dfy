// The older revision of the page script. Its messages carry the prefix
// "WXChart::", only JSON parse errors are caught and reported (with a JSON
// payload), and the chart fit runs without error trapping.

module ChartScripts {
  import opened Json
  import opened EChartsPage

  const MessagePrefix: string := "WXChart::"

  /** The label under which parse errors are reported. */
  const JsonParseLabel: string := "JSON.parse()"

  function Message(prefix: string, params: Option<Json>, stringify: Json -> string): string
  {
    MessagePrefix + prefix + "\t" + Stringified(params, stringify)
  }

  /** An error report: the type "error", a label, then the parameters as JSON. */
  function ErrorMessage(errorLabel: string, params: Option<Json>, stringify: Json -> string): string
  {
    Message("error\t" + errorLabel, params, stringify)
  }

  /** The parameters of a parse-error report. */
  function JsonErrorPayload(errorName: string, errorMessage: string, functionName: string): Json
  {
    JObj([("name", JStr(errorName)), ("message", JStr(errorMessage)), ("function", JStr(functionName))])
  }

  function JsonErrorMessage(error: JsError, functionName: string, stringify: Json -> string): string
  {
    ErrorMessage(JsonParseLabel, Some(JsonErrorPayload(error.name, error.message, functionName)), stringify)
  }

  /** A parse-error report names the error, its message and the function,
      each readable under its own key. */
  lemma JsonErrorPayloadReads(errorName: string, errorMessage: string, functionName: string)
    ensures var p := JsonErrorPayload(errorName, errorMessage, functionName);
      && StringAt(p, "name") == Some(errorName)
      && StringAt(p, "message") == Some(errorMessage)
      && StringAt(p, "function") == Some(functionName)
  {
    var p := JsonErrorPayload(errorName, errorMessage, functionName);
    FindFirst(p.members, 1, "message");
    FindFirst(p.members, 2, "function");
  }

  /** The page: its sizing options, the messages it has posted, the sizes the
      chart was resized to and the options handed to the chart's setOption. */
  class Page {
    var sizingOptions: SizingOptions
    var outbox: seq<string>
    var resizes: seq<(real, real)>
    var optionUpdates: seq<Json>
    /** JSON.stringify. */
    const stringify: Json -> string

    constructor(stringify: Json -> string)
      ensures sizingOptions == InitialSizingOptions()
      ensures outbox == [] && resizes == [] && optionUpdates == []
      ensures this.stringify == stringify
    {
      sizingOptions := InitialSizingOptions();
      outbox := [];
      resizes := [];
      optionUpdates := [];
      this.stringify := stringify;
    }

    method SendMessage(prefix: string, params: Option<Json>)
      modifies this`outbox
      ensures outbox == old(outbox) + [Message(prefix, params, stringify)]
    {
      var message := MessagePrefix + prefix + "\t" + Stringified(params, stringify);
      outbox := outbox + [message];
    }

    method SendErrorMessage(errorLabel: string, params: Option<Json>)
      modifies this`outbox
      ensures outbox == old(outbox) + [ErrorMessage(errorLabel, params, stringify)]
    {
      SendMessage("error\t" + errorLabel, params);
    }

    method SendErrorMessageJson(errorName: string, errorMessage: string, functionName: string)
      modifies this`outbox
      ensures outbox == old(outbox) + [JsonErrorMessage(JsError(errorName, errorMessage), functionName, stringify)]
    {
      SendErrorMessage(JsonParseLabel, Some(JsonErrorPayload(errorName, errorMessage, functionName)));
    }

    /** Fits the chart into a container of the given client size and
      resizes it when the fitted size reaches both minimums. */
    method ResizeChart(divWidth: real, divHeight: real) returns (resized: Option<(real, real)>)
      modifies this`resizes
      ensures resized == ResizeDecision(sizingOptions, divWidth, divHeight)
      ensures resizes == old(resizes) + if resized.Some? then [resized.value] else []
    {
      resized := None;
      var ratio := NumberOf(sizingOptions.widthToHeightRatio);
      var minWidth := NumberOf(sizingOptions.minWidth);
      var minHeight := NumberOf(sizingOptions.minHeight);
      if ratio.None? || minWidth.None? || minHeight.None? || (ratio.value == 0.0 && divWidth == 0.0) {
        return;
      }
      var chartWidth := divWidth;
      // A zero ratio gives an infinite height, which always takes the branch below.
      var tooTall := ratio.value == 0.0 || chartWidth / ratio.value >= divHeight;
      var chartHeight := if ratio.value == 0.0 then divHeight else chartWidth / ratio.value;
      if tooTall {
        chartHeight := divHeight;
        chartWidth := divHeight * ratio.value;
      }
      if chartWidth >= minWidth.value && chartHeight >= minHeight.value {
        resized := Some((chartWidth, chartHeight));
        resizes := resizes + [(chartWidth, chartHeight)];
      }
    }

    /** Copies the three options from the parsed argument and fits the chart
      again. A parse error is reported and the function returns; a null
      argument throws a TypeError (`thrown`) that nothing catches. Either
      way the options stay as they were. */
    method SetChartSizingOptions(options: Parsed, typeError: JsError, divWidth: real, divHeight: real)
      returns (resized: Option<(real, real)>, thrown: Option<JsError>)
      modifies this`sizingOptions, this`resizes, this`outbox
      ensures options.ParseError? ==>
        && sizingOptions == old(sizingOptions) && resizes == old(resizes) && resized.None? && thrown.None?
        && outbox == old(outbox) + [JsonErrorMessage(options.error, "WXChartSetChartSizingOptions", stringify)]
      ensures options.Parsed? && options.value.JNull? ==>
        && sizingOptions == old(sizingOptions) && resizes == old(resizes) && resized.None?
        && outbox == old(outbox) && thrown == Some(typeError)
      ensures options.Parsed? && !options.value.JNull? ==>
        && sizingOptions == CopySizingOptions(options.value)
        && outbox == old(outbox) && thrown.None?
        && resized == ResizeDecision(sizingOptions, divWidth, divHeight)
        && resizes == old(resizes) + (if resized.Some? then [resized.value] else [])
    {
      resized, thrown := None, None;
      if options.ParseError? {
        SendErrorMessageJson(options.error.name, options.error.message, "WXChartSetChartSizingOptions");
        return;
      }
      var o := options.value;
      var ratio := Prop(o, "widthToHeightRatio");
      if ratio.NullAccess? {
        thrown := Some(typeError);
        return;
      }
      sizingOptions := sizingOptions.(widthToHeightRatio := ratio.value);
      sizingOptions := sizingOptions.(minWidth := Prop(o, "minWidth").value);
      sizingOptions := sizingOptions.(minHeight := Prop(o, "minHeight").value);
      resized := ResizeChart(divWidth, divHeight);
    }

    /** The current options, as JSON.stringify writes them. */
    method GetChartSizingOptions() returns (options: Json)
      ensures options == SizingOptionsJson(sizingOptions)
    {
      options := SizingOptionsJson(sizingOptions);
    }

    /** Hands the parsed series option to the chart; a parse error is
      reported and the chart is not touched. */
    method UpdateSeries(series: Parsed)
      modifies this`optionUpdates, this`outbox
      ensures series.Parsed? ==> optionUpdates == old(optionUpdates) + [series.value] && outbox == old(outbox)
      ensures series.ParseError? ==>
        && optionUpdates == old(optionUpdates)
        && outbox == old(outbox) + [JsonErrorMessage(series.error, "WXChartUpdateSeries", stringify)]
    {
      if series.ParseError? {
        SendErrorMessageJson(series.error.name, series.error.message, "WXChartUpdateSeries");
        return;
      }
      optionUpdates := optionUpdates + [series.value];
    }

    method UpdateVariableNames(variableNames: Parsed)
      modifies this`optionUpdates, this`outbox
      ensures variableNames.Parsed? ==>
        && optionUpdates == old(optionUpdates) + [JObj([("xAxis", JObj([("data", variableNames.value)]))])]
        && outbox == old(outbox)
      ensures variableNames.ParseError? ==>
        && optionUpdates == old(optionUpdates)
        && outbox == old(outbox) + [JsonErrorMessage(variableNames.error, "WXChartUpdateVariableNames", stringify)]
    {
      if variableNames.ParseError? {
        SendErrorMessageJson(variableNames.error.name, variableNames.error.message, "WXChartUpdateVariableNames");
        return;
      }
      optionUpdates := optionUpdates + [JObj([("xAxis", JObj([("data", variableNames.value)]))])];
    }

    method SetChartColors(colors: Parsed)
      modifies this`optionUpdates, this`outbox
      ensures colors.Parsed? ==>
        optionUpdates == old(optionUpdates) + [JObj([("color", colors.value)])] && outbox == old(outbox)
      ensures colors.ParseError? ==>
        && optionUpdates == old(optionUpdates)
        && outbox == old(outbox) + [JsonErrorMessage(colors.error, "WXChartSetChartColors", stringify)]
    {
      if colors.ParseError? {
        SendErrorMessageJson(colors.error.name, colors.error.message, "WXChartSetChartColors");
        return;
      }
      optionUpdates := optionUpdates + [JObj([("color", colors.value)])];
    }

    method OnYAxisDoubleClick(yAxisIndex: Option<Json>, targetType: Option<Json>)
      modifies this`outbox
      ensures outbox == old(outbox) + [Message("dblclick\tyAxis", Some(YAxisClickPayload(yAxisIndex, targetType)), stringify)]
    {
      SendMessage("dblclick\tyAxis", Some(YAxisClickPayload(yAxisIndex, targetType)));
    }

    method OnSeriesDoubleClick(p: SeriesClick)
      modifies this`outbox
      ensures outbox == old(outbox) + [Message("dblclick\tseries", Some(SeriesClickPayload(p)), stringify)]
    {
      SendMessage("dblclick\tseries", Some(SeriesClickPayload(p)));
    }

    method OnChartContextMenu(componentType: Option<Json>, clientX: Option<Json>, clientY: Option<Json>)
      modifies this`outbox
      ensures outbox == old(outbox) +
        [Message("contextmenu\tchart", Some(ChartContextMenuPayload(componentType, clientX, clientY)), stringify)]
    {
      SendMessage("contextmenu\tchart", Some(ChartContextMenuPayload(componentType, clientX, clientY)));
    }

    method OnWindowContextMenu(clientX: Option<Json>, clientY: Option<Json>)
      modifies this`outbox
      ensures outbox == old(outbox) +
        [Message("contextmenu\tnochart", Some(WindowContextMenuPayload(clientX, clientY)), stringify)]
    {
      SendMessage("contextmenu\tnochart", Some(WindowContextMenuPayload(clientX, clientY)));
    }
  }
}
