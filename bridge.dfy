// How the messages the page script posts arrive at the native router and
// handlers, and how sizing options survive the trip through the page.

module Bridge {
  import opened Json
  import opened ChartHelper
  import opened MainFrame
  import opened EChartsPage
  import WxECharts
  import ChartScripts

  /** A message of the current page script is a chart message whose fields
      are the fields of its prefix followed by its parameters as JSON. */
  lemma PageMessageFields(prefix: string, params: Option<Json>, stringify: Json -> string)
    requires Stringified(params, stringify) != [] && FieldDelimiter !in Stringified(params, stringify)
    ensures var body := prefix + [FieldDelimiter] + Stringified(params, stringify);
      && WxECharts.Message(prefix, params, stringify) == ChartMessagePrefix + body
      && Tokenize(body) == Tokenize(prefix) + [Stringified(params, stringify)]
  {
    var text := Stringified(params, stringify);
    TokenizeSplit(prefix, text);
    TokenizeField(text);
  }

  /** An error caught by the current page script reaches the error handler
      with the error's name, the function and the message, when none of
      them is empty or holds a tab. */
  lemma ErrorMessageReachesHandler(error: EChartsPage.JsError, where: string, stringify: Json -> string)
    requires error.name != [] && FieldDelimiter !in error.name
    requires where != [] && FieldDelimiter !in where
    requires error.message != [] && FieldDelimiter !in error.message
    ensures var r := RouteMessage(WxECharts.ErrorMessage(error, where, stringify));
      && r.ErrorMessage?
      && r.params == [error.name, where, error.message, "undefined"]
      && OnScriptChartError(r.params, r.msg) == ScriptError(error.name, where, error.message)
  {
    var t := [FieldDelimiter];
    var body := "error" + t + (error.name + t + (where + t + (error.message + t + "undefined")));
    assert WxECharts.ErrorMessage(error, where, stringify) == ChartMessagePrefix + body;
    ConsField("error", error.name + t + (where + t + (error.message + t + "undefined")));
    ConsField(error.name, where + t + (error.message + t + "undefined"));
    ConsField(where, error.message + t + "undefined");
    ConsField(error.message, "undefined");
    TokenizeField("undefined");
    RouteByFields(body);
  }

  /** A tab inside an error's message splits it: the handler reports only
      the part before the tab. */
  lemma ErrorMessageCutAtTab(name: string, where: string, first: string, second: string,
                             stringify: Json -> string)
    requires name != [] && FieldDelimiter !in name
    requires where != [] && FieldDelimiter !in where
    requires first != [] && FieldDelimiter !in first
    requires second != [] && FieldDelimiter !in second
    ensures var error := EChartsPage.JsError(name, first + "\t" + second);
      var r := RouteMessage(WxECharts.ErrorMessage(error, where, stringify));
      && r.ErrorMessage?
      && r.params == [name, where, first, second, "undefined"]
      && OnScriptChartError(r.params, r.msg) == ScriptError(name, where, first)
  {
    var t := [FieldDelimiter];
    var body := "error" + t + (name + t + (where + t + (first + t + (second + t + "undefined"))));
    assert WxECharts.ErrorMessage(EChartsPage.JsError(name, first + "\t" + second), where, stringify) ==
      ChartMessagePrefix + body;
    ConsField("error", name + t + (where + t + (first + t + (second + t + "undefined"))));
    ConsField(name, where + t + (first + t + (second + t + "undefined")));
    ConsField(where, first + t + (second + t + "undefined"));
    ConsField(first, second + t + "undefined");
    ConsField(second, "undefined");
    TokenizeField("undefined");
    var fields := Tokenize(body);
    assert fields == ["error", name, where, first, second, "undefined"];
    assert fields[1..] == [name, where, first, second, "undefined"];
    RouteByFields(body);
  }

  /** A double-click message of the current page script is routed to the
      double-click handler with the target and the payload's text. */
  lemma PostedDoubleClickRoute(target: string, payload: Json, stringify: Json -> string)
    requires target != [] && FieldDelimiter !in target
    requires stringify(payload) != [] && FieldDelimiter !in stringify(payload)
    ensures RouteMessage(WxECharts.Message("dblclick\t" + target, Some(payload), stringify)).DoubleClickMessage?
    ensures RouteMessage(WxECharts.Message("dblclick\t" + target, Some(payload), stringify)).params
         == [target, stringify(payload)]
  {
    var t := [FieldDelimiter];
    var text := stringify(payload);
    var body := "dblclick" + t + (target + t + text);
    assert WxECharts.Message("dblclick\t" + target, Some(payload), stringify) == ChartMessagePrefix + body;
    ConsField("dblclick", target + t + text);
    ConsField(target, text);
    TokenizeField(text);
    RouteByFields(body);
  }

  /** A series double-click posted by the current page script, whose JSON
      text is read back as the payload, reaches the handler with the item's
      variable index, series index, value and colour. */
  lemma SeriesDoubleClickReachesHandler(p: SeriesClick, stringify: Json -> string,
                                        parse: string -> Option<Json>,
                                        dataIndex: nat, seriesIndex: nat, value: real, color: string)
    requires p.dataIndex == Some(JNum(dataIndex as real)) && dataIndex < SizeModulus
    requires p.seriesIndex == Some(JNum(seriesIndex as real)) && seriesIndex < SizeModulus
    requires p.value == Some(JNum(value)) && p.color == Some(JStr(color))
    requires stringify(SeriesClickPayload(p)) != [] && FieldDelimiter !in stringify(SeriesClickPayload(p))
    requires parse(stringify(SeriesClickPayload(p))) == Some(SeriesClickPayload(p))
    ensures var r := RouteMessage(WxECharts.Message("dblclick\tseries", Some(SeriesClickPayload(p)), stringify));
      && r.DoubleClickMessage?
      && r.params == ["series", stringify(SeriesClickPayload(p))]
      && OnScriptChartDoubleClick(r.params, r.msg, parse) == SeriesDoubleClicked(dataIndex, seriesIndex, value, color)
  {
    var payload := SeriesClickPayload(p);
    assert "dblclick\t" + "series" == "dblclick\tseries";
    PostedDoubleClickRoute("series", payload, stringify);
    SeriesClickPayloadReads(p);
    SizeThroughNumber(dataIndex);
    SizeThroughNumber(seriesIndex);
  }

  /** A y-axis double-click posted by the current page script reaches the
      handler with the axis index and target type. */
  lemma YAxisDoubleClickReachesHandler(yAxisIndex: int, targetType: string, stringify: Json -> string,
                                       parse: string -> Option<Json>)
    requires var payload := YAxisClickPayload(Some(JNum(yAxisIndex as real)), Some(JStr(targetType)));
      stringify(payload) != [] && FieldDelimiter !in stringify(payload) && parse(stringify(payload)) == Some(payload)
    ensures var payload := YAxisClickPayload(Some(JNum(yAxisIndex as real)), Some(JStr(targetType)));
      var r := RouteMessage(WxECharts.Message("dblclick\tyAxis", Some(payload), stringify));
      && r.DoubleClickMessage?
      && r.params == ["yAxis", stringify(payload)]
      && OnScriptChartDoubleClick(r.params, r.msg, parse) == YAxisDoubleClicked(yAxisIndex, targetType)
  {
    var payload := YAxisClickPayload(Some(JNum(yAxisIndex as real)), Some(JStr(targetType)));
    assert "dblclick\t" + "yAxis" == "dblclick\tyAxis";
    PostedDoubleClickRoute("yAxis", payload, stringify);
    YAxisClickPayloadReads(Some(JNum(yAxisIndex as real)), Some(JStr(targetType)));
    IntThroughNumber(yAxisIndex);
  }

  /** A y-axis event without a target type leaves the key out of the
      payload, and the handler reports a JSON error. */
  lemma YAxisWithoutTargetTypeIsJsonError(yAxisIndex: Option<Json>, stringify: Json -> string,
                                          parse: string -> Option<Json>)
    requires var payload := YAxisClickPayload(yAxisIndex, None);
      stringify(payload) != [] && FieldDelimiter !in stringify(payload) && parse(stringify(payload)) == Some(payload)
    ensures var payload := YAxisClickPayload(yAxisIndex, None);
      var r := RouteMessage(WxECharts.Message("dblclick\tyAxis", Some(payload), stringify));
      r.DoubleClickMessage? && OnScriptChartDoubleClick(r.params, r.msg, parse) == JsonError
  {
    var payload := YAxisClickPayload(yAxisIndex, None);
    assert "dblclick\t" + "yAxis" == "dblclick\tyAxis";
    PostedDoubleClickRoute("yAxis", payload, stringify);
    YAxisClickPayloadReads(yAxisIndex, None);
  }

  /** A field followed by a tab is the first of the fields. */
  lemma ConsField(first: string, rest: string)
    requires first != [] && FieldDelimiter !in first
    ensures Tokenize(first + [FieldDelimiter] + rest) == [first] + Tokenize(rest)
  {
    TokenizeSplit(first, rest);
    TokenizeField(first);
  }

  lemma SizeThroughNumber(k: nat)
    requires k < SizeModulus
    ensures GetSize(JNum(k as real)) == Some(k)
  {
  }

  /** The older page script's messages never pass the router's prefix
      check, whatever they carry. */
  lemma OlderPageMessagesIgnored(prefix: string, params: Option<Json>, stringify: Json -> string)
    ensures RouteMessage(ChartScripts.Message(prefix, params, stringify)) == NotChartMessage
  {
    var m := ChartScripts.Message(prefix, params, stringify);
    assert m[0] == 'W' && ChartMessagePrefix[0] == 'w';
  }

  /** Even under the right prefix, the older script's parse-error report
      has too few fields for the error handler. */
  lemma OlderParseErrorIsMalformed(error: EChartsPage.JsError, functionName: string, stringify: Json -> string)
    requires var text := stringify(ChartScripts.JsonErrorPayload(error.name, error.message, functionName));
      text != [] && FieldDelimiter !in text
    ensures var m := ChartScripts.JsonErrorMessage(error, functionName, stringify);
      var r := RouteMessage(ChartMessagePrefix + m[|ChartScripts.MessagePrefix|..]);
      r.ErrorMessage? && OnScriptChartError(r.params, r.msg).MalformedError?
  {
    var t := [FieldDelimiter];
    var text := stringify(ChartScripts.JsonErrorPayload(error.name, error.message, functionName));
    var body := "error" + t + ("JSON.parse()" + t + text);
    ConsField("error", "JSON.parse()" + t + text);
    ConsField("JSON.parse()", text);
    TokenizeField(text);
    var m := ChartScripts.JsonErrorMessage(error, functionName, stringify);
    assert m == ChartScripts.MessagePrefix + body;
    assert m[|ChartScripts.MessagePrefix|..] == body;
    RouteByFields(body);
  }

  /** Sizing options sent by the native side, set on the page and read back
      from it decode to the values that were sent. */
  lemma SizingOptionsThroughPage(widthToHeightRatio: real, minWidth: int, minHeight: int,
                                 r0: real, w0: int, h0: int)
    ensures var sent := SizingOptionsPayload(widthToHeightRatio, minWidth, minHeight);
      JsonToSizingOptions(Some(SizingOptionsJson(CopySizingOptions(sent))), r0, w0, h0)
        == SizingDecode(true, widthToHeightRatio, minWidth, minHeight)
  {
    var sent := SizingOptionsPayload(widthToHeightRatio, minWidth, minHeight);
    FindFirst(sent.members, 1, "minWidth");
    FindFirst(sent.members, 2, "minHeight");
    var copied := CopySizingOptions(sent);
    assert copied == SizingOptions(Some(JNum(widthToHeightRatio)), Some(JNum(minWidth as real)),
                                   Some(JNum(minHeight as real)));
    var props := SizingOptionsProps(copied);
    assert DefinedMembers(props[2..]) == sent.members[2..];
    assert DefinedMembers(props[1..]) == sent.members[1..];
    assert DefinedMembers(props) == sent.members;
    SizingOptionsRoundTrip(widthToHeightRatio, minWidth, minHeight, r0, w0, h0);
  }

  /** The same trip through the page's own methods: the set, the get and
      the native decoder. */
  method SetSizingOptionsOnPage(page: WxECharts.Page, widthToHeightRatio: real, minWidth: int, minHeight: int,
                                typeError: EChartsPage.JsError, divWidth: real, divHeight: real)
    returns (decoded: SizingDecode)
    modifies page`sizingOptions, page`resizes, page`outbox
    ensures decoded == SizingDecode(true, widthToHeightRatio, minWidth, minHeight)
    ensures page.outbox == old(page.outbox)
  {
    var sent := SizingOptionsPayload(widthToHeightRatio, minWidth, minHeight);
    var _ := page.SetChartSizingOptions(Parsed(sent), typeError, divWidth, divHeight);
    var got := page.GetChartSizingOptions();
    decoded := JsonToSizingOptions(Some(got), 1.0, 150, 150);
    SizingOptionsThroughPage(widthToHeightRatio, minWidth, minHeight, 1.0, 150, 150);
  }
}
