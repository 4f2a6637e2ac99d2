// The page script in its current revision: the messages it posts to the
// native side, its sizing-options record, the chart fit and the functions
// the native side calls. Every function catches what it throws and reports
// it as an error message.

module WxECharts {
  import opened Json
  import opened EChartsPage

  const MessagePrefix: string := "wxECharts::"

  /** A posted message: the prefix, the message's leading fields, a tab and
      the parameters as JSON. */
  function Message(prefix: string, params: Option<Json>, stringify: Json -> string): string
  {
    MessagePrefix + prefix + "\t" + Stringified(params, stringify)
  }

  /** An error report: the error's name, the function it was caught in and
      its message as fields. No parameters are passed, so a last field
      "undefined" follows. */
  function ErrorMessage(error: JsError, where: string, stringify: Json -> string): string
  {
    Message("error\t" + error.name + "\t" + where + "\t" + error.message, None, stringify)
  }

  /** The page: its sizing options, the messages it has posted, the sizes the
      chart was resized to and the options handed to the chart's setOption. */
  class Page {
    var sizingOptions: SizingOptions
    var outbox: seq<string>
    var resizes: seq<(real, real)>
    var optionUpdates: seq<Json>
    /** JSON.stringify. */
    const stringify: Json -> string

    constructor(stringify: Json -> string)
      ensures sizingOptions == InitialSizingOptions()
      ensures outbox == [] && resizes == [] && optionUpdates == []
      ensures this.stringify == stringify
    {
      sizingOptions := InitialSizingOptions();
      outbox := [];
      resizes := [];
      optionUpdates := [];
      this.stringify := stringify;
    }

    method SendMessage(prefix: string, params: Option<Json>)
      modifies this`outbox
      ensures outbox == old(outbox) + [Message(prefix, params, stringify)]
    {
      var message := MessagePrefix + prefix + "\t" + Stringified(params, stringify);
      outbox := outbox + [message];
    }

    method SendErrorMessage(error: JsError, where: string)
      modifies this`outbox
      ensures outbox == old(outbox) + [ErrorMessage(error, where, stringify)]
    {
      SendMessage("error\t" + error.name + "\t" + where + "\t" + error.message, None);
    }

    /** Fits the chart into a container of the given client size and
      resizes it when the fitted size reaches both minimums. */
    method ResizeChart(divWidth: real, divHeight: real) returns (resized: Option<(real, real)>)
      modifies this`resizes
      ensures resized == ResizeDecision(sizingOptions, divWidth, divHeight)
      ensures resizes == old(resizes) + if resized.Some? then [resized.value] else []
    {
      resized := None;
      var ratio := NumberOf(sizingOptions.widthToHeightRatio);
      var minWidth := NumberOf(sizingOptions.minWidth);
      var minHeight := NumberOf(sizingOptions.minHeight);
      if ratio.None? || minWidth.None? || minHeight.None? || (ratio.value == 0.0 && divWidth == 0.0) {
        return;
      }
      var chartWidth := divWidth;
      // A zero ratio gives an infinite height, which always takes the branch below.
      var tooTall := ratio.value == 0.0 || chartWidth / ratio.value >= divHeight;
      var chartHeight := if ratio.value == 0.0 then divHeight else chartWidth / ratio.value;
      if tooTall {
        chartHeight := divHeight;
        chartWidth := divHeight * ratio.value;
      }
      if chartWidth >= minWidth.value && chartHeight >= minHeight.value {
        resized := Some((chartWidth, chartHeight));
        resizes := resizes + [(chartWidth, chartHeight)];
      }
    }

    /** Copies the three options from the parsed argument and fits the chart
      again. A parse error, or a TypeError from reading a property of null
      (`typeError`), is reported and leaves the options as they were. */
    method SetChartSizingOptions(options: Parsed, typeError: JsError, divWidth: real, divHeight: real)
      returns (resized: Option<(real, real)>)
      modifies this`sizingOptions, this`resizes, this`outbox
      ensures options.ParseError? ==>
        && sizingOptions == old(sizingOptions) && resizes == old(resizes) && resized.None?
        && outbox == old(outbox) + [ErrorMessage(options.error, "wxEChartsSetChartSizingOptions", stringify)]
      ensures options.Parsed? && options.value.JNull? ==>
        && sizingOptions == old(sizingOptions) && resizes == old(resizes) && resized.None?
        && outbox == old(outbox) + [ErrorMessage(typeError, "wxEChartsSetChartSizingOptions", stringify)]
      ensures options.Parsed? && !options.value.JNull? ==>
        && sizingOptions == CopySizingOptions(options.value)
        && outbox == old(outbox)
        && resized == ResizeDecision(sizingOptions, divWidth, divHeight)
        && resizes == old(resizes) + (if resized.Some? then [resized.value] else [])
    {
      resized := None;
      if options.ParseError? {
        SendErrorMessage(options.error, "wxEChartsSetChartSizingOptions");
        return;
      }
      var o := options.value;
      var ratio := Prop(o, "widthToHeightRatio");
      if ratio.NullAccess? {
        SendErrorMessage(typeError, "wxEChartsSetChartSizingOptions");
        return;
      }
      sizingOptions := sizingOptions.(widthToHeightRatio := ratio.value);
      sizingOptions := sizingOptions.(minWidth := Prop(o, "minWidth").value);
      sizingOptions := sizingOptions.(minHeight := Prop(o, "minHeight").value);
      resized := ResizeChart(divWidth, divHeight);
    }

    /** The current options, as JSON.stringify writes them. */
    method GetChartSizingOptions() returns (options: Json)
      ensures options == SizingOptionsJson(sizingOptions)
    {
      options := SizingOptionsJson(sizingOptions);
    }

    /** Hands the parsed series option to the chart, or reports the parse error. */
    method UpdateSeries(series: Parsed)
      modifies this`optionUpdates, this`outbox
      ensures series.Parsed? ==> optionUpdates == old(optionUpdates) + [series.value] && outbox == old(outbox)
      ensures series.ParseError? ==>
        && optionUpdates == old(optionUpdates)
        && outbox == old(outbox) + [ErrorMessage(series.error, "wxEChartsUpdateSeries", stringify)]
    {
      if series.ParseError? {
        SendErrorMessage(series.error, "wxEChartsUpdateSeries");
        return;
      }
      optionUpdates := optionUpdates + [series.value];
    }

    /** Sets the parsed names as the category axis data, or reports the parse error. */
    method UpdateVariableNames(variableNames: Parsed)
      modifies this`optionUpdates, this`outbox
      ensures variableNames.Parsed? ==>
        && optionUpdates == old(optionUpdates) + [JObj([("xAxis", JObj([("data", variableNames.value)]))])]
        && outbox == old(outbox)
      ensures variableNames.ParseError? ==>
        && optionUpdates == old(optionUpdates)
        && outbox == old(outbox) + [ErrorMessage(variableNames.error, "wxEChartsUpdateVariableNames", stringify)]
    {
      if variableNames.ParseError? {
        SendErrorMessage(variableNames.error, "wxEChartsUpdateVariableNames");
        return;
      }
      optionUpdates := optionUpdates + [JObj([("xAxis", JObj([("data", variableNames.value)]))])];
    }

    /** Sets the parsed colour list as the chart's palette, or reports the parse error. */
    method SetChartColors(colors: Parsed)
      modifies this`optionUpdates, this`outbox
      ensures colors.Parsed? ==>
        optionUpdates == old(optionUpdates) + [JObj([("color", colors.value)])] && outbox == old(outbox)
      ensures colors.ParseError? ==>
        && optionUpdates == old(optionUpdates)
        && outbox == old(outbox) + [ErrorMessage(colors.error, "wxEChartsSetChartColors", stringify)]
    {
      if colors.ParseError? {
        SendErrorMessage(colors.error, "wxEChartsSetChartColors");
        return;
      }
      optionUpdates := optionUpdates + [JObj([("color", colors.value)])];
    }

    /** A double-click on the y axis posts its index and target type. */
    method OnYAxisDoubleClick(yAxisIndex: Option<Json>, targetType: Option<Json>)
      modifies this`outbox
      ensures outbox == old(outbox) + [Message("dblclick\tyAxis", Some(YAxisClickPayload(yAxisIndex, targetType)), stringify)]
    {
      SendMessage("dblclick\tyAxis", Some(YAxisClickPayload(yAxisIndex, targetType)));
    }

    /** A double-click on a data item posts the copied event properties. */
    method OnSeriesDoubleClick(p: SeriesClick)
      modifies this`outbox
      ensures outbox == old(outbox) + [Message("dblclick\tseries", Some(SeriesClickPayload(p)), stringify)]
    {
      SendMessage("dblclick\tseries", Some(SeriesClickPayload(p)));
    }

    method OnChartContextMenu(componentType: Option<Json>, clientX: Option<Json>, clientY: Option<Json>)
      modifies this`outbox
      ensures outbox == old(outbox) +
        [Message("contextmenu\tchart", Some(ChartContextMenuPayload(componentType, clientX, clientY)), stringify)]
    {
      SendMessage("contextmenu\tchart", Some(ChartContextMenuPayload(componentType, clientX, clientY)));
    }

    method OnWindowContextMenu(clientX: Option<Json>, clientY: Option<Json>)
      modifies this`outbox
      ensures outbox == old(outbox) +
        [Message("contextmenu\tnochart", Some(WindowContextMenuPayload(clientX, clientY)), stringify)]
    {
      SendMessage("contextmenu\tnochart", Some(WindowContextMenuPayload(clientX, clientY)));
    }
  }

  /** Options set from a parsed object and read back give the object's three
      properties; a failed set leaves the previous options readable. */
  method SetThenGetSizingOptions(page: Page, options: Parsed, typeError: JsError, divWidth: real, divHeight: real)
    returns (got: Json)
    modifies page`sizingOptions, page`resizes, page`outbox
    ensures options.Parsed? && !options.value.JNull? ==>
      && Prop(got, "widthToHeightRatio") == Prop(options.value, "widthToHeightRatio")
      && Prop(got, "minWidth") == Prop(options.value, "minWidth")
      && Prop(got, "minHeight") == Prop(options.value, "minHeight")
    ensures options.ParseError? || options.value.JNull? ==> got == SizingOptionsJson(old(page.sizingOptions))
  {
    var _ := page.SetChartSizingOptions(options, typeError, divWidth, divHeight);
    got := page.GetChartSizingOptions();
    if options.Parsed? && !options.value.JNull? {
      SetThenGet(options.value);
    }
  }
}
