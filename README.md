# wxECharts chart core in Dafny

wxECharts is a wxWidgets demo that shows an Apache ECharts chart in a
`wxWebView`. A native `ChartHelper` keeps the chart's data table and sends
it to the page as JavaScript calls carrying JSON. The page posts tagged,
tab-separated messages back, and the main frame routes them to handlers.
This project models both halves of that conversation and proves properties
of them.

- `json.dfy` (`Json`) holds an abstract JSON value, the lookup of an
  insertion-ordered object, and the `at(key).get<T>()` conversions of
  nlohmann::json. `get<int>` truncates and accepts booleans. `get<size_t>`
  takes numbers only, modulo 2^64. `get<double>` takes numbers only.
- `charthelper.dfy` (`ChartHelper`) holds the series kinds, the value
  series and the script result tags. A `Table` value specifies the data,
  with one `Option<Table>` update per mutator. The `ChartHelper` class has
  the fields `webView`, `variableNames` and `series`. Its mutators run the
  source's uniqueness scans as loops, and each is proved equal to its
  `Table` update. The `RunChart*` commands append script calls to a
  `WebView` outbox. `JsonToColors` is a loop proved against a recursive
  decoder. `JsonToSizingOptions` is a function that keeps the partial
  overwrite.
- `mainframe.dfy` (`MainFrame`) holds the tab tokenizer, which drops empty
  fields. It also holds the message router, the error and double-click
  handlers, the write-back of a confirmed series edit, the grid edit rules
  and the initial data.
- `echartspage.dfy` (`EChartsPage`) holds what both page scripts share:
  property reads on parsed JSON, objects as `JSON.stringify` writes them
  (undefined properties dropped), the sizing-options record, the fit rule,
  the resize gate and the click payloads.
- `wxecharts.dfy` (`WxECharts`) models `wxecharts.js`. `chartscripts.dfy`
  (`ChartScripts`) models the older `chartscripts.js`. Each is a `Page`
  class with the sizing options, an outbox of posted messages, the resize
  calls and the options handed to `setOption`.
- `bridge.dfy` (`Bridge`) connects the two halves. It covers messages
  posted by the page as the router splits them, errors and double-clicks
  as the handlers read them, the older script's prefix, and sizing options
  sent from the native side, set on the page, read back and decoded.

JSON text is not modelled. A parse is an `Option<Json>` or `Parsed` input,
or a `string -> Option<Json>` parameter. `JSON.stringify` is a
`Json -> string` parameter. The bridge lemmas state what they assume of
these functions: the text holds no tab, and parsing it gives the value back.

Where the code and its description disagree, the model follows the code:

- Names are compared case-sensitively (`IsSameAs(name, true)`), so
  `"Total"` and `"total"` can coexist.
- `AddVariableNames` does not check the batch against itself.
- The main frame calls `ChartUpdateSeries` and `ChartUpdateVariableNames`.
  `charthelper.h` declares only `RunChartUpdateSeries` and
  `RunChartUpdateVariableNames`, and the model uses those.
- An error message from `wxecharts.js` carries one more field. It passes
  no parameters, so the text `undefined` follows the error's message.

## Model

| member | source | states |
|---|---|---|
| ChartHelper.SeriesTypeToInt | charthelper.h:63-67 | Bar casts to 0 and Line to 1, and no other value occurs |
| ChartHelper.SeriesTypeFromInt | charthelper.h:63-67 | casting 0 or 1 back gives the kind that casts to that integer |
| ChartHelper.DefaultValueSeries | charthelper.h:69-74 | a default series has kind Bar, no name and no values |
| ChartHelper.SeriesNames | charthelper.cpp:119-128 | one name per series, in stored order |
| ChartHelper.AddVariableNamesOutcome | charthelper.cpp:63-76 | adding a batch succeeds iff the batch is non-empty, no series exists and no new name is already present; on success the batch is appended in order |
| ChartHelper.AddVariableNamesAcceptsDuplicateBatch | charthelper.cpp:63-76 | a batch with a repeated name is accepted and leaves duplicate names |
| ChartHelper.AddVariableNameBreaksConsistency | charthelper.cpp:52-61 | as written, adding one name to a consistent table succeeds only when a series exists, and it then leaves every series one value short |
| ChartHelper.AddVariableNameAsIntendedIsBatchOfOne | charthelper.cpp:52-61 | with the guard its message describes, adding one name equals adding a batch of one, succeeds iff no series exists and the name is new, and keeps the table consistent with unique names |
| ChartHelper.NamesAreCaseSensitive | charthelper.cpp:63-76 | names differing only in case are both accepted |
| ChartHelper.UpdatesPreserveConsistency | charthelper.cpp:63-173 | batch add, rename, add series, set kind and set data keep one value per variable in every series |
| ChartHelper.UpdatesPreserveUniqueNames | charthelper.cpp:52-173 | all updates keep variable and series names unique; a batch add only when the batch has no repeats |
| ChartHelper.RenameToOwnNameSucceeds | charthelper.cpp:78-144 | renaming an entry to its own non-empty name succeeds and changes nothing |
| ChartHelper.UpdatesAtIndexTouchOnlyThatEntry | charthelper.cpp:78-173 | a successful rename, kind change or data change alters only the entry at its index |
| ChartHelper.NumbersJson | charthelper.cpp:201 | the data array holds one JSON number per value, in order |
| ChartHelper.SeriesRoundTrip | charthelper.cpp:192-203 | a series object reads back as the same name, kind and values |
| ChartHelper.SeriesPayloadRoundTrip | charthelper.cpp:181-217 | the update-series payload reads back as the stored series, in order |
| ChartHelper.DecodeColorList | charthelper.cpp:326-360 | decoding succeeds iff every element is a string naming a valid colour, and then gives their colours in order |
| ChartHelper.ColorsRoundTrip | charthelper.cpp:249-272 | the set-colors payload decodes to the same colours when each colour's HTML string parses back to it |
| ChartHelper.JsonToSizingOptions | charthelper.cpp:362-378 | success iff the answer parses and has a number ratio and integer-convertible minimums; on failure the outputs read before the failing key are already overwritten |
| ChartHelper.SizingOptionsRoundTrip | charthelper.cpp:283-305 | the set-sizing-options payload decodes to the values sent |
| ChartHelper.SizingOptionsPartialOverwrite | charthelper.cpp:362-378 | an answer with only the ratio fails and still overwrites the ratio |
| ChartHelper.WebView.RunScriptAsync | charthelper.cpp:178 | a script run appends one call with its result tag |
| ChartHelper.ChartHelper.constructor | charthelper.h:119-122 | a new helper has no web view and no data |
| ChartHelper.ChartHelper.SetWebView | charthelper.cpp:29-33 | the web view is set and nothing else changes |
| ChartHelper.ChartHelper.GetVariableNamesCount | charthelper.cpp:35-38 | the number of variable names |
| ChartHelper.ChartHelper.GetVariableName | charthelper.cpp:40-45 | true with the name iff the index is in range, otherwise the output is untouched |
| ChartHelper.ChartHelper.GetVariableNames | charthelper.cpp:47-50 | a copy of the names |
| ChartHelper.ChartHelper.AddVariableName | charthelper.cpp:52-61 | the result and new data are those of the table update; unchanged on failure |
| ChartHelper.ChartHelper.AddVariableNames | charthelper.cpp:63-76 | the result and new data are those of the table update; unchanged on failure |
| ChartHelper.ChartHelper.SetVariableName | charthelper.cpp:78-92 | the result and new data are those of the table update; unchanged on failure |
| ChartHelper.ChartHelper.GetSeriesCount | charthelper.cpp:94-97 | the number of series |
| ChartHelper.ChartHelper.AddSeries | charthelper.cpp:99-110 | the result and new data are those of the table update; unchanged on failure |
| ChartHelper.ChartHelper.GetSeriesName | charthelper.cpp:112-117 | true with the name iff the index is in range, otherwise the output is untouched |
| ChartHelper.ChartHelper.GetSeriesNames | charthelper.cpp:119-128 | the series names in order |
| ChartHelper.ChartHelper.SetSeriesName | charthelper.cpp:130-144 | the result and new data are those of the table update; unchanged on failure |
| ChartHelper.ChartHelper.GetSeriesType | charthelper.cpp:146-151 | true with the kind iff the index is in range, otherwise the output is untouched |
| ChartHelper.ChartHelper.SetSeriesType | charthelper.cpp:153-158 | the result and new data are those of the table update; unchanged on failure |
| ChartHelper.ChartHelper.GetSeriesData | charthelper.cpp:160-165 | true with a copy of the values iff the index is in range, otherwise the output is untouched |
| ChartHelper.ChartHelper.SetSeriesData | charthelper.cpp:167-173 | the result and new data are those of the table update; unchanged on failure |
| ChartHelper.ChartHelper.RunChartCreate | charthelper.cpp:175-179 | with a web view, one create call for the div "chart" is queued |
| ChartHelper.ChartHelper.RunChartUpdateSeries | charthelper.cpp:181-217 | with a web view, one update-series call carrying every series in order is queued, none when there are no series |
| ChartHelper.ChartHelper.RunChartUpdateVariableNames | charthelper.cpp:219-241 | with a web view, one call carrying the names in order is queued, none when there are no names |
| ChartHelper.ChartHelper.RunChartGetColors | charthelper.cpp:243-247 | with a web view, one get-colors call is queued |
| ChartHelper.ChartHelper.RunChartSetColors | charthelper.cpp:249-272 | with a web view, one call carrying the colours' HTML strings in order is queued |
| ChartHelper.ChartHelper.RunChartGetSizingOptions | charthelper.cpp:274-280 | with a web view, one get-sizing-options call is queued |
| ChartHelper.ChartHelper.RunChartSetSizingOptions | charthelper.cpp:283-305 | with a web view, one call carrying the three options is queued |
| ChartHelper.ChartHelper.RunChartGetPNG | charthelper.cpp:308-316 | with a web view, one save-as-image call with the width is queued |
| ChartHelper.ChartHelper.RunChartGetEChartsVersion | charthelper.cpp:319-324 | with a web view, one get-version call is queued |
| ChartHelper.ChartHelper.JsonToColors | charthelper.cpp:326-360 | all or nothing: true with the decoded colours iff the decoder succeeds, otherwise the colours are returned untouched |
| ChartHelper.CreateChartInDocumentedOrder | charthelper.h:29-34 | for any non-empty names and any series the table updates accept, using the helper in that order leaves exactly those names and series, and queues the create call followed by one update carrying every series (none without series) |
| ChartHelper.AddSeriesListAppends | charthelper.cpp:99-110 | series added one after another, all accepted, are appended in order and leave the variable names untouched |
| ChartHelper.RenameReachesChartOnUpdate | charthelper.h:36-38 | renaming any series queues nothing itself; the next update-series call carries every series with the new name at that index when the rename succeeded, and the old series when it failed |
| MainFrame.TokensFrom | mainframe.cpp:387-388 | every field is non-empty and holds no tab |
| MainFrame.Tokenize | mainframe.cpp:387-388 | every field is non-empty and holds no tab |
| MainFrame.TokenizeSplit | mainframe.cpp:387-388 | the fields on both sides of a tab are the fields of the whole |
| MainFrame.TokenizeField | mainframe.cpp:387-388 | a non-empty tab-free text is one field |
| MainFrame.TokenizeJoin | mainframe.cpp:387-388 | non-empty tab-free fields joined with tabs split back into the same fields |
| MainFrame.RouteMessage | mainframe.cpp:378-417 | a message is ignored iff it lacks the exact prefix; error and double-click handlers get at least one non-empty, tab-free parameter |
| MainFrame.RouteByFields | mainframe.cpp:385-415 | after the exact prefix, a message with fewer than two fields is invalid; otherwise it is dispatched on the exact type with the remaining fields as parameters |
| MainFrame.OnScriptChartError | mainframe.cpp:419-430 | an error is reported iff there are at least three parameters, as the first three |
| MainFrame.OnScriptChartDoubleClick | mainframe.cpp:432-495 | malformed iff fewer than two parameters; an axis click is reported iff the payload parses with an int index and a string target, with those values; a series click iff it parses with two size indices, a number value and a string colour, with those values; a JSON error iff the payload does not parse or a key the target needs is missing or of the wrong type; a parsed payload for another target is unexpected |
| MainFrame.WriteBackKeepsValues | mainframe.cpp:464-483 | a confirmed edit keeps all values and counts, always sets the chosen kind, and keeps the table consistent and its names unique |
| MainFrame.WriteBackSeriesEdit | mainframe.cpp:464-483 | the edit applies only when all three lookups succeed and the dialog is confirmed; names are resent only after a successful rename, and the series always |
| MainFrame.OnWebViewMessageReceived | mainframe.cpp:378-417 | the data changes only for a well-formed series double-click, and then as the write-back says |
| MainFrame.CellEditAllowed | mainframe.cpp:222-235 | an edit is allowed iff the text reads as a number in [-100, 100] |
| MainFrame.EditCellReplacesOneValue | mainframe.cpp:237-253 | an edit replaces exactly the value at its row and column |
| MainFrame.AllowedEditKeepsRange | mainframe.cpp:222-253 | an allowed edit keeps every value in [-100, 100] |
| MainFrame.OnGridCellChanged | mainframe.cpp:237-253 | the data becomes the edited table, and the series are resent when the column exists |
| MainFrame.InitialTableWellFormed | mainframe.cpp:112-127 | the initial data is consistent, has unique names and lies in the grid's range |
| MainFrame.InitChartData | mainframe.cpp:112-127 | an empty helper ends with three variables and two bar series |
| EChartsPage.Prop | chart-assets/wxecharts.js:180-184 | reading a property of null throws; of an object gives its member; of anything else gives undefined |
| EChartsPage.SetThenGet | chart-assets/wxecharts.js:170-190 | options set from an object and read back give the object's three properties |
| EChartsPage.InitialSizingOptionsJson | chart-assets/wxecharts.js:15-20 | the initial options read back as ratio 1 and minimums 150 |
| EChartsPage.FitWithinContainer | chart-assets/wxecharts.js:109-120 | with a positive ratio the fitted chart keeps the ratio, fits the container and touches one side |
| EChartsPage.FitIsLargest | chart-assets/wxecharts.js:109-120 | no larger chart of that ratio fits the container |
| EChartsPage.ResizeBounds | chart-assets/wxecharts.js:109-123 | a resize lies between the minimums and the container; no resize means the fit misses a minimum |
| EChartsPage.InitialResizeIsSquare | chart-assets/wxecharts.js:109-123 | with the initial options the chart is the largest square, applied only from side 150 |
| EChartsPage.YAxisClickPayloadReads | chart-assets/wxecharts.js:64-71 | the axis payload's keys read back what was copied |
| EChartsPage.SeriesClickPayloadReads | chart-assets/wxecharts.js:73-86 | the keys the native side reads from a series payload read back what was copied |
| WxECharts.Page.constructor | chart-assets/wxecharts.js:15-20 | the page starts with the initial options and nothing posted |
| WxECharts.Page.SendMessage | chart-assets/wxecharts.js:22-25 | one message is posted |
| WxECharts.Page.SendErrorMessage | chart-assets/wxecharts.js:27-30 | one error message is posted |
| WxECharts.Page.ResizeChart | chart-assets/wxecharts.js:109-128 | the resize made is the resize decision, recorded only when there is one |
| WxECharts.Page.SetChartSizingOptions | chart-assets/wxecharts.js:178-190 | a parse error or a null argument is reported and changes nothing; otherwise the three properties are copied and the chart refitted |
| WxECharts.Page.GetChartSizingOptions | chart-assets/wxecharts.js:170-176 | the current options as written by JSON.stringify |
| WxECharts.Page.UpdateSeries | chart-assets/wxecharts.js:130-136 | the parsed option reaches the chart, or the parse error is reported |
| WxECharts.Page.UpdateVariableNames | chart-assets/wxecharts.js:138-144 | the parsed names become the axis data, or the parse error is reported |
| WxECharts.Page.SetChartColors | chart-assets/wxecharts.js:162-168 | the parsed colours become the palette, or the parse error is reported |
| WxECharts.Page.OnYAxisDoubleClick | chart-assets/wxecharts.js:64-71 | one axis double-click message is posted |
| WxECharts.Page.OnSeriesDoubleClick | chart-assets/wxecharts.js:73-86 | one series double-click message is posted |
| WxECharts.Page.OnChartContextMenu | chart-assets/wxecharts.js:88-96 | one chart context-menu message is posted |
| WxECharts.Page.OnWindowContextMenu | chart-assets/wxecharts.js:98-106 | one window context-menu message is posted |
| WxECharts.SetThenGetSizingOptions | chart-assets/wxecharts.js:170-190 | getting after a successful set gives the set properties; after a failed set, the old options |
| ChartScripts.JsonErrorPayloadReads | chart-assets/chartscripts.js:32-39 | the parse-error payload carries the error name, message and function under their keys |
| ChartScripts.Page.constructor | chart-assets/chartscripts.js:15-20 | the page starts with the initial options and nothing posted |
| ChartScripts.Page.SendMessage | chart-assets/chartscripts.js:22-25 | one message is posted |
| ChartScripts.Page.SendErrorMessage | chart-assets/chartscripts.js:27-30 | one error message is posted |
| ChartScripts.Page.SendErrorMessageJson | chart-assets/chartscripts.js:32-39 | one parse-error message is posted |
| ChartScripts.Page.ResizeChart | chart-assets/chartscripts.js:114-128 | the resize made is the resize decision, recorded only when there is one |
| ChartScripts.Page.SetChartSizingOptions | chart-assets/chartscripts.js:166-178 | a parse error is reported and changes nothing; a null argument throws uncaught and changes nothing; otherwise the properties are copied and the chart refitted |
| ChartScripts.Page.GetChartSizingOptions | chart-assets/chartscripts.js:162-164 | the current options as written by JSON.stringify |
| ChartScripts.Page.UpdateSeries | chart-assets/chartscripts.js:130-136 | the parsed option reaches the chart, or a parse-error message is posted and the chart is untouched |
| ChartScripts.Page.UpdateVariableNames | chart-assets/chartscripts.js:138-144 | the parsed names become the axis data, or a parse-error message is posted |
| ChartScripts.Page.SetChartColors | chart-assets/chartscripts.js:154-160 | the parsed colours become the palette, or a parse-error message is posted |
| ChartScripts.Page.OnYAxisDoubleClick | chart-assets/chartscripts.js:69-76 | one axis double-click message is posted |
| ChartScripts.Page.OnSeriesDoubleClick | chart-assets/chartscripts.js:78-91 | one series double-click message is posted |
| ChartScripts.Page.OnChartContextMenu | chart-assets/chartscripts.js:93-101 | one chart context-menu message is posted |
| ChartScripts.Page.OnWindowContextMenu | chart-assets/chartscripts.js:103-111 | one window context-menu message is posted |
| Bridge.PageMessageFields | chart-assets/wxecharts.js:22-25 | a posted message is the router's prefix and a body whose fields are the message's leading fields followed by the parameters' JSON text |
| Bridge.ErrorMessageReachesHandler | chart-assets/wxecharts.js:27-30 | a caught error reaches the error handler as its name, function and message, plus a trailing "undefined" |
| Bridge.ErrorMessageCutAtTab | mainframe.cpp:419-430 | a tab inside an error's message splits it, and only the part before the tab is reported |
| Bridge.PostedDoubleClickRoute | mainframe.cpp:396-407 | a posted double-click is routed with its target and its payload text as parameters |
| Bridge.SeriesDoubleClickReachesHandler | mainframe.cpp:452-457 | a posted series double-click is read back with its variable index, series index, value and colour |
| Bridge.YAxisDoubleClickReachesHandler | mainframe.cpp:446-451 | a posted axis double-click is read back with its axis index and target type |
| Bridge.YAxisWithoutTargetTypeIsJsonError | chart-assets/wxecharts.js:64-71 | an axis event without a target type makes the handler report a JSON error |
| Bridge.OlderPageMessagesIgnored | chart-assets/chartscripts.js:22-25 | no message of the older script passes the router's prefix check |
| Bridge.OlderParseErrorIsMalformed | chart-assets/chartscripts.js:27-39 | even under the right prefix, the older parse-error report has too few fields for the error handler |
| Bridge.SizingOptionsThroughPage | charthelper.cpp:362-378 | options sent by the native side, set on the page and read back decode to the values sent |
| Bridge.SetSizingOptionsOnPage | chart-assets/wxecharts.js:170-190 | the same trip through the page's set and get methods |

## Findings

| source | as written | input that shows it | evidently intended | confidence | as-written member | corrected member |
|---|---|---|---|---|---|---|
| charthelper.cpp:54 | `AddVariableName` refuses when there is no series, and accepts once a series exists | a table with variable "A" and one series holding one value; adding "B" succeeds and the series now lacks a value for "B" | refuse once a series exists, as the check's message and `AddVariableNames` (line 66) say | high, not executed | ChartHelper.AddVariableNameBreaksConsistency | ChartHelper.AddVariableNameAsIntendedIsBatchOfOne |

The class method `ChartHelper.ChartHelper.AddVariableName` keeps the guard
as written. The intended guard is the table update
`Table.AddVariableNameAsIntended`.

## Left out

- Text encoding: `dump`, `JSON.parse`, `JSON.stringify`, UTF-8 conversion and the `'...'` quoting in scripts are not modelled. A name holding a quote would break the script text, and the model does not show this.
- `RunChartSetColors` omits the closing `;` of its script. The model records the call, not the text.
- `wxColour` parsing and validity are a `string -> Option<C>` parameter. The HTML form of a colour is a `C -> string` parameter.
- `wxString::ToDouble`, `FromDouble` and `%g` formatting are left out. The grid handlers take the number the edited text reads as.
- Logging, grid labels, dialogs and menus are left out, and so are the web view's construction, configuration, developer tools and page loading. The dialog's outcome is a `DialogOutcome` parameter. Its kind is 0 or 1, the two radio buttons of the properties dialog.
- The context-menu handler only logs, and is routed to `ContextMenuMessage`.
- ECharts and DOM calls are left out: `echarts.init`, chart creation options, `getDataURL`, `getOption().color`, `echarts.version` and the resize and context-menu wiring. `setOption` and `resize` are records in the page's state. Errors thrown inside ECharts are not modelled.
- The page's save-as-image, get-colors and get-version functions are left out because they only call ECharts.
- IEEE-754 arithmetic, NaN and infinity are left out. Numbers are `real`. A zero ratio is handled as an infinite height, and 0 / 0 as no resize.
- 32-bit overflow of `int` is left out. `get<int>` truncates into an unbounded integer.
- EChartsPage.ResizeDecision: a sizing field holding null, a boolean, a string or an array gives no resize. JavaScript would coerce it to a number first.
- Duplicate keys in parsed JSON are not modelled. Lookups take the first member; the parsers keep the last.
- The native-to-script call round trip is not modelled beyond the sizing options. The main frame calls `ChartCreate`, `ChartGetColors`, `ChartSaveAsImage` and `GetEChartsVersion`, which the helper does not declare.
- `MainFrame.OnWebViewMessageReceived` models only the series write-back. The axis branch and the error handler only log.
- The asset-folder search in `wxecharts.cpp` and the declarations in `mainframe.h` and `wxecharts.h` are not part of this model.
