// ChartHelper: the data table behind the chart (variable names and value
// series), the commands that push it to the embedded page, and the decoders
// for what the page returns.

module ChartHelper {
  import opened Json

  /** The two series kinds, in declaration order: Bar is 0 and Line is 1. */
  datatype SeriesType = Bar | Line

  /** The integer a series kind casts to. */
  function SeriesTypeToInt(t: SeriesType): (i: int)
    ensures 0 <= i < 2
    ensures i == 0 <==> t == Bar
  {
    if t == Bar then 0 else 1
  }

  /** The series kind an integer 0 or 1 casts back to. */
  function SeriesTypeFromInt(i: int): (t: SeriesType)
    requires 0 <= i < 2
    ensures SeriesTypeToInt(t) == i
  {
    if i == 0 then Bar else Line
  }

  /** One named series: its kind and one value per variable. */
  datatype ValueSeries = ValueSeries(name: string, kind: SeriesType, data: seq<real>)

  /** A default-constructed series: no name, no values, and kind Bar. */
  function DefaultValueSeries(): (s: ValueSeries)
    ensures s.kind == Bar && s.name == [] && s.data == []
  {
    ValueSeries([], Bar, [])
  }

  /** The tag passed with each script call, telling its result apart. */
  datatype ScriptResult =
    | CreateChart
    | UpdateSeries
    | UpdateVariableNames
    | GetColors
    | SetColors
    | GetSizingOptions
    | SetSizingOptions
    | GetPNG
    | GetEChartsVersion

  /** The argument of a page function call, before it is formatted into the script text. */
  datatype ScriptArg = NoArg | StrArg(text: string) | IntArg(number: int) | JsonArg(payload: Json)

  /** A script calling one page function with one argument. */
  datatype Script = Script(callee: string, arg: ScriptArg)

  /** One asynchronous script run requested from the web view. */
  datatype ScriptCall = ScriptCall(script: Script, tag: ScriptResult)

  /** True when no two entries of `names` are equal. */
  ghost predicate Unique(names: seq<string>)
  {
    forall i, j :: 0 <= i < j < |names| ==> names[i] != names[j]
  }

  /** True when `name` occurs in `names` at an index other than `skip`. */
  predicate UsedElsewhere(names: seq<string>, skip: nat, name: string)
  {
    exists i :: 0 <= i < |names| && i != skip && names[i] == name
  }

  function SeriesNames(series: seq<ValueSeries>): (names: seq<string>)
    ensures |names| == |series|
    ensures forall i :: 0 <= i < |series| ==> names[i] == series[i].name
  {
    seq(|series|, i requires 0 <= i < |series| => series[i].name)
  }

  /** The state of a ChartHelper as a value. Each update returns the new
      table, or None when one of its checks fails and nothing may change. */
  datatype Table = Table(variableNames: seq<string>, series: seq<ValueSeries>)
  {
    /** Every series holds exactly one value per variable. */
    ghost predicate Consistent()
    {
      forall i :: 0 <= i < |series| ==> |series[i].data| == |variableNames|
    }

    /** Variable names are pairwise different, and so are series names. */
    ghost predicate UniqueNames()
    {
      Unique(variableNames) && Unique(SeriesNames(series))
    }

    predicate HasSeriesName(name: string)
    {
      exists i :: 0 <= i < |series| && series[i].name == name
    }

    function AddVariableName(name: string): Option<Table>
    {
      if series == [] then None
      else if name in variableNames then None
      else Some(this.(variableNames := variableNames + [name]))
    }

    /** AddVariableName with the guard its message describes: names are
        refused once a series exists. */
    function AddVariableNameAsIntended(name: string): Option<Table>
    {
      if series != [] then None
      else if name in variableNames then None
      else Some(this.(variableNames := variableNames + [name]))
    }

    function AddVariableNames(names: seq<string>): Option<Table>
    {
      if names == [] || series != [] then None
      else if exists i, k :: 0 <= i < |variableNames| && 0 <= k < |names| && names[k] == variableNames[i] then None
      else Some(this.(variableNames := variableNames + names))
    }

    function SetVariableName(idx: nat, name: string): Option<Table>
    {
      if name == [] || idx >= |variableNames| then None
      else if UsedElsewhere(variableNames, idx, name) then None
      else Some(this.(variableNames := variableNames[idx := name]))
    }

    function AddSeries(s: ValueSeries): Option<Table>
    {
      if variableNames == [] || s.name == [] || |s.data| != |variableNames| then None
      else if HasSeriesName(s.name) then None
      else Some(this.(series := series + [s]))
    }

    function SetSeriesName(idx: nat, name: string): Option<Table>
    {
      if name == [] || idx >= |series| then None
      else if UsedElsewhere(SeriesNames(series), idx, name) then None
      else Some(this.(series := series[idx := series[idx].(name := name)]))
    }

    function SetSeriesType(idx: nat, kind: SeriesType): Option<Table>
    {
      if idx >= |series| then None
      else Some(this.(series := series[idx := series[idx].(kind := kind)]))
    }

    function SetSeriesData(idx: nat, data: seq<real>): Option<Table>
    {
      if idx >= |series| || |data| != |variableNames| then None
      else Some(this.(series := series[idx := series[idx].(data := data)]))
    }
  }

  /** The table after an update: the new one on success, the old one on failure. */
  function Apply(r: Option<Table>, t: Table): Table
  {
    if r.Some? then r.value else t
  }

  // ---------------------------------------------------------------------
  // Properties of the table updates
  // ---------------------------------------------------------------------

  /** Adding a batch of variable names fails exactly when the batch is
      empty, a series exists, or a new name equals an existing one; the batch
      itself may hold duplicates and empty names. */
  lemma AddVariableNamesOutcome(t: Table, names: seq<string>)
    ensures t.AddVariableNames(names).Some? <==>
      names != [] && t.series == [] && forall k :: 0 <= k < |names| ==> names[k] !in t.variableNames
    ensures t.AddVariableNames(names).Some? ==>
      t.AddVariableNames(names).value == Table(t.variableNames + names, t.series)
  {
    if names != [] && t.series == [] && forall k :: 0 <= k < |names| ==> names[k] !in t.variableNames {
      forall i, k | 0 <= i < |t.variableNames| && 0 <= k < |names|
        ensures names[k] != t.variableNames[i]
      {
        assert names[k] !in t.variableNames;
      }
    }
  }

  /** A batch with a repeated name is accepted into an empty table: the
      batch is not checked against itself. */
  lemma AddVariableNamesAcceptsDuplicateBatch()
    ensures Table([], []).AddVariableNames(["A", "A"]) == Some(Table(["A", "A"], []))
    ensures !Table(["A", "A"], []).UniqueNames()
  {
    var names: seq<string> := ["A", "A"];
    assert [] + names == names;
    assert names[0] == names[1];
  }

  /** Adding one variable name succeeds only once a series exists, and then
      leaves every series one value short. */
  lemma AddVariableNameBreaksConsistency(t: Table, name: string)
    requires t.Consistent()
    requires t.AddVariableName(name).Some?
    ensures t.series != []
    ensures !t.AddVariableName(name).value.Consistent()
    ensures var r := t.AddVariableName(name).value;
      forall i :: 0 <= i < |r.series| ==> |r.series[i].data| + 1 == |r.variableNames|
  {
    var r := t.AddVariableName(name).value;
    assert r.series == t.series && |r.variableNames| == |t.variableNames| + 1;
    assert |r.series[0].data| == |t.variableNames|;
  }

  /** With the guard as intended, adding one name is adding a batch of one:
      it succeeds iff no series exists and the name is new, and it keeps the
      table consistent and its names unique. */
  lemma AddVariableNameAsIntendedIsBatchOfOne(t: Table, name: string)
    ensures t.AddVariableNameAsIntended(name) == t.AddVariableNames([name])
    ensures t.AddVariableNameAsIntended(name).Some? <==> t.series == [] && name !in t.variableNames
    ensures t.Consistent() ==> Apply(t.AddVariableNameAsIntended(name), t).Consistent()
    ensures t.UniqueNames() ==> Apply(t.AddVariableNameAsIntended(name), t).UniqueNames()
  {
    AddVariableNamesOutcome(t, [name]);
    if name in t.variableNames {
      var i :| 0 <= i < |t.variableNames| && t.variableNames[i] == name;
      assert [name][0] == t.variableNames[i];
    }
    if t.UniqueNames() && t.AddVariableNameAsIntended(name).Some? {
      var r := t.AddVariableNameAsIntended(name).value;
      forall i, j | 0 <= i < j < |r.variableNames|
        ensures r.variableNames[i] != r.variableNames[j]
      {
        if j == |t.variableNames| {
          assert r.variableNames[i] == t.variableNames[i];
        }
      }
    }
  }

  /** Case-sensitive names: two variable names that differ only in case can coexist. */
  lemma NamesAreCaseSensitive()
    ensures Table([], []).AddVariableNames(["Total", "total"]).Some?
  {
  }

  /** Every update except adding a single variable name keeps each series at
      one value per variable. */
  lemma UpdatesPreserveConsistency(t: Table, idx: nat, name: string, names: seq<string>,
                                   s: ValueSeries, kind: SeriesType, data: seq<real>)
    requires t.Consistent()
    ensures Apply(t.AddVariableNames(names), t).Consistent()
    ensures Apply(t.SetVariableName(idx, name), t).Consistent()
    ensures Apply(t.AddSeries(s), t).Consistent()
    ensures Apply(t.SetSeriesName(idx, name), t).Consistent()
    ensures Apply(t.SetSeriesType(idx, kind), t).Consistent()
    ensures Apply(t.SetSeriesData(idx, data), t).Consistent()
  {
  }

  /** Renaming, adding a series and adding a single variable name keep
      names unique; adding a batch of variable names does when the batch
      itself holds no repeats. */
  lemma UpdatesPreserveUniqueNames(t: Table, idx: nat, name: string, names: seq<string>,
                                   s: ValueSeries, kind: SeriesType, data: seq<real>)
    requires t.UniqueNames()
    ensures Apply(t.AddVariableName(name), t).UniqueNames()
    ensures Unique(names) ==> Apply(t.AddVariableNames(names), t).UniqueNames()
    ensures Apply(t.SetVariableName(idx, name), t).UniqueNames()
    ensures Apply(t.AddSeries(s), t).UniqueNames()
    ensures Apply(t.SetSeriesName(idx, name), t).UniqueNames()
    ensures Apply(t.SetSeriesType(idx, kind), t).UniqueNames()
    ensures Apply(t.SetSeriesData(idx, data), t).UniqueNames()
  {
    var sn := SeriesNames(t.series);
    if t.SetVariableName(idx, name).Some? {
      SetKeepsUnique(t.variableNames, idx, name);
    }
    if t.SetSeriesName(idx, name).Some? {
      SetKeepsUnique(sn, idx, name);
      assert SeriesNames(t.SetSeriesName(idx, name).value.series) == sn[idx := name];
    }
    if t.SetSeriesType(idx, kind).Some? {
      assert SeriesNames(t.SetSeriesType(idx, kind).value.series) == sn;
    }
    if t.SetSeriesData(idx, data).Some? {
      assert SeriesNames(t.SetSeriesData(idx, data).value.series) == sn;
    }
    if t.AddSeries(s).Some? {
      assert SeriesNames(t.AddSeries(s).value.series) == sn + [s.name];
    }
    if Unique(names) && t.AddVariableNames(names).Some? {
      var all := t.variableNames + names;
      forall i, j | 0 <= i < j < |all| ensures all[i] != all[j] {
        if j >= |t.variableNames| && i < |t.variableNames| {
          assert names[j - |t.variableNames|] == all[j];
        }
      }
    }
  }

  /** Writing `name` at `idx` of a list where it is used nowhere else keeps the list unique. */
  lemma SetKeepsUnique(names: seq<string>, idx: nat, name: string)
    requires Unique(names)
    requires idx < |names| && !UsedElsewhere(names, idx, name)
    ensures Unique(names[idx := name])
  {
    var r := names[idx := name];
    forall i, j | 0 <= i < j < |r| ensures r[i] != r[j] {
      if i == idx {
        assert names[j] != name;
      } else if j == idx {
        assert names[i] != name;
      }
    }
  }

  /** Renaming an entry to its own non-empty name succeeds and changes
      nothing, as long as names are unique. */
  lemma RenameToOwnNameSucceeds(t: Table, idx: nat)
    requires t.UniqueNames()
    ensures idx < |t.variableNames| && t.variableNames[idx] != [] ==>
      t.SetVariableName(idx, t.variableNames[idx]) == Some(t)
    ensures idx < |t.series| && t.series[idx].name != [] ==>
      t.SetSeriesName(idx, t.series[idx].name) == Some(t)
  {
    if idx < |t.variableNames| && t.variableNames[idx] != [] {
      assert !UsedElsewhere(t.variableNames, idx, t.variableNames[idx]) by {
        forall i | 0 <= i < |t.variableNames| && i != idx
          ensures t.variableNames[i] != t.variableNames[idx]
        {
          if i < idx {
            assert t.variableNames[i] != t.variableNames[idx];
          } else {
            assert t.variableNames[idx] != t.variableNames[i];
          }
        }
      }
      assert t.variableNames[idx := t.variableNames[idx]] == t.variableNames;
    }
    if idx < |t.series| && t.series[idx].name != [] {
      var sn := SeriesNames(t.series);
      assert !UsedElsewhere(sn, idx, sn[idx]) by {
        forall i | 0 <= i < |sn| && i != idx ensures sn[i] != sn[idx] {
          if i < idx {
            assert sn[i] != sn[idx];
          } else {
            assert sn[idx] != sn[i];
          }
        }
      }
      assert t.series[idx := t.series[idx].(name := t.series[idx].name)] == t.series;
    }
  }

  /** A rename or a change of kind or values touches only the entry at its index. */
  lemma UpdatesAtIndexTouchOnlyThatEntry(t: Table, idx: nat, name: string, kind: SeriesType,
                                         data: seq<real>, j: nat)
    requires j != idx
    ensures t.SetVariableName(idx, name).Some? ==>
      var r := t.SetVariableName(idx, name).value;
      r.series == t.series && |r.variableNames| == |t.variableNames| &&
      r.variableNames[idx] == name && (j < |r.variableNames| ==> r.variableNames[j] == t.variableNames[j])
    ensures t.SetSeriesName(idx, name).Some? ==>
      var r := t.SetSeriesName(idx, name).value;
      r.variableNames == t.variableNames && |r.series| == |t.series| &&
      r.series[idx] == ValueSeries(name, t.series[idx].kind, t.series[idx].data) &&
      (j < |r.series| ==> r.series[j] == t.series[j])
    ensures t.SetSeriesType(idx, kind).Some? ==>
      var r := t.SetSeriesType(idx, kind).value;
      r.variableNames == t.variableNames && |r.series| == |t.series| &&
      r.series[idx] == ValueSeries(t.series[idx].name, kind, t.series[idx].data) &&
      (j < |r.series| ==> r.series[j] == t.series[j])
    ensures t.SetSeriesData(idx, data).Some? ==>
      var r := t.SetSeriesData(idx, data).value;
      r.variableNames == t.variableNames && |r.series| == |t.series| &&
      r.series[idx] == ValueSeries(t.series[idx].name, t.series[idx].kind, data) &&
      (j < |r.series| ==> r.series[j] == t.series[j])
  {
  }

  // ---------------------------------------------------------------------
  // Command payloads
  // ---------------------------------------------------------------------

  /** The update-series command for these series; none while there are no series. */
  function UpdateSeriesCalls(series: seq<ValueSeries>): seq<ScriptCall>
  {
    if series == [] then []
    else [ScriptCall(Script("wxEChartsUpdateSeries", JsonArg(SeriesPayload(series))), UpdateSeries)]
  }

  /** The update-variable-names command for these names; none while there are no names. */
  function UpdateVariableNamesCalls(names: seq<string>): seq<ScriptCall>
  {
    if names == [] then []
    else [ScriptCall(Script("wxEChartsUpdateVariableNames", JsonArg(VariableNamesPayload(names))), UpdateVariableNames)]
  }

  /** The tag ECharts knows a series kind by. */
  function TypeTag(kind: SeriesType): string
  {
    if kind == Bar then "bar" else "line"
  }

  function NumbersJson(data: seq<real>): (j: Json)
    ensures j.JArr? && |j.elems| == |data|
    ensures forall i :: 0 <= i < |data| ==> j.elems[i] == JNum(data[i])
  {
    JArr(seq(|data|, i requires 0 <= i < |data| => JNum(data[i])))
  }

  /** One series as the object `{"name":…, "type":…, "data":[…]}`. */
  function SeriesJson(s: ValueSeries): Json
  {
    JObj([("name", JStr(s.name)), ("type", JStr(TypeTag(s.kind))), ("data", NumbersJson(s.data))])
  }

  /** The update-series payload `{"series":[…]}`, one object per series in stored order. */
  function SeriesPayload(series: seq<ValueSeries>): Json
  {
    JObj([("series", JArr(seq(|series|, i requires 0 <= i < |series| => SeriesJson(series[i]))))])
  }

  /** The update-variable-names payload: the names, in order. */
  function VariableNamesPayload(names: seq<string>): Json
  {
    JArr(seq(|names|, i requires 0 <= i < |names| => JStr(names[i])))
  }

  /** The set-colors payload: each colour as its HTML string, in order. */
  function ColorsPayload<C>(colors: seq<C>, html: C -> string): Json
  {
    JArr(seq(|colors|, i requires 0 <= i < |colors| => JStr(html(colors[i]))))
  }

  /** The set-sizing-options payload. */
  function SizingOptionsPayload(widthToHeightRatio: real, minWidth: int, minHeight: int): Json
  {
    JObj([("widthToHeightRatio", JNum(widthToHeightRatio)),
          ("minWidth", JNum(minWidth as real)),
          ("minHeight", JNum(minHeight as real))])
  }

  // A reader of the update-series payload, as the page's chart reads it:
  // the inverse the payload builders are checked against.

  function ReadNumbers(elems: seq<Json>): (r: Option<seq<real>>)
    ensures r.Some? ==> |r.value| == |elems|
  {
    if elems == [] then Some([])
    else if !elems[0].JNum? then None
    else
      var rest := ReadNumbers(elems[1..]);
      if rest.None? then None else Some([elems[0].n] + rest.value)
  }

  function ReadSeriesType(tag: string): Option<SeriesType>
  {
    if tag == "bar" then Some(Bar) else if tag == "line" then Some(Line) else None
  }

  function ReadSeries(j: Json): Option<ValueSeries>
  {
    var name := StringAt(j, "name");
    var tag := StringAt(j, "type");
    var data := At(j, "data");
    if name.None? || tag.None? || data.None? || !data.value.JArr? then None
    else
      var kind := ReadSeriesType(tag.value);
      var values := ReadNumbers(data.value.elems);
      if kind.None? || values.None? then None
      else Some(ValueSeries(name.value, kind.value, values.value))
  }

  function ReadSeriesList(elems: seq<Json>): (r: Option<seq<ValueSeries>>)
    ensures r.Some? ==> |r.value| == |elems|
  {
    if elems == [] then Some([])
    else
      var first := ReadSeries(elems[0]);
      var rest := ReadSeriesList(elems[1..]);
      if first.None? || rest.None? then None else Some([first.value] + rest.value)
  }

  /** The series an update-series payload describes, or None if it is not one. */
  function ReadSeriesPayload(j: Json): Option<seq<ValueSeries>>
  {
    var list := At(j, "series");
    if list.None? || !list.value.JArr? then None else ReadSeriesList(list.value.elems)
  }

  lemma {:induction false} ReadNumbersRoundTrip(data: seq<real>)
    ensures ReadNumbers(NumbersJson(data).elems) == Some(data)
  {
    if data != [] {
      assert NumbersJson(data).elems[1..] == NumbersJson(data[1..]).elems;
      ReadNumbersRoundTrip(data[1..]);
      assert [data[0]] + data[1..] == data;
    }
  }

  lemma SeriesRoundTrip(s: ValueSeries)
    ensures ReadSeries(SeriesJson(s)) == Some(s)
  {
    var j := SeriesJson(s);
    FindFirst(j.members, 1, "type");
    FindFirst(j.members, 2, "data");
    ReadNumbersRoundTrip(s.data);
  }

  lemma {:induction false} SeriesListRoundTrip(series: seq<ValueSeries>)
    ensures ReadSeriesList(seq(|series|, i requires 0 <= i < |series| => SeriesJson(series[i]))) == Some(series)
  {
    var elems := seq(|series|, i requires 0 <= i < |series| => SeriesJson(series[i]));
    if series != [] {
      assert elems[1..] == seq(|series[1..]|, i requires 0 <= i < |series[1..]| => SeriesJson(series[1..][i]));
      SeriesListRoundTrip(series[1..]);
      SeriesRoundTrip(series[0]);
      assert [series[0]] + series[1..] == series;
    }
  }

  /** Reading back the update-series payload gives every series' name,
      kind and values, in stored order. */
  lemma SeriesPayloadRoundTrip(series: seq<ValueSeries>)
    ensures ReadSeriesPayload(SeriesPayload(series)) == Some(series)
  {
    SeriesListRoundTrip(series);
  }

  // ---------------------------------------------------------------------
  // Decoders of the page's answers
  // ---------------------------------------------------------------------

  /** The colours a list of JSON elements names, when every element is a
      string that `parse` accepts as a valid colour. */
  function DecodeColorList<C>(elems: seq<Json>, parse: string -> Option<C>): (r: Option<seq<C>>)
    ensures r.Some? <==> forall i :: 0 <= i < |elems| ==> elems[i].JStr? && parse(elems[i].s).Some?
    ensures r.Some? ==> (|r.value| == |elems| &&
      forall i :: 0 <= i < |elems| ==> Some(r.value[i]) == parse(elems[i].s))
  {
    if elems == [] then Some([])
    else if !elems[0].JStr? then None
    else
      var c := parse(elems[0].s);
      var rest := DecodeColorList(elems[1..], parse);
      if c.None? then None
      else if rest.None? then
        assert exists i :: 1 <= i < |elems| && !(elems[i].JStr? && parse(elems[i].s).Some?) by {
          var k :| 0 <= k < |elems[1..]| && !(elems[1..][k].JStr? && parse(elems[1..][k].s).Some?);
          assert elems[k + 1] == elems[1..][k];
        }
        None
      else
        var r := [c.value] + rest.value;
        assert forall i :: 1 <= i < |elems| ==> Some(r[i]) == parse(elems[i].s) by {
          forall i | 1 <= i < |elems| ensures Some(r[i]) == parse(elems[i].s) {
            assert elems[i] == elems[1..][i - 1];
          }
        }
        Some(r)
  }

  /** The colours a parsed answer names: all of them, or None when the
      answer is not an array or any element is not a valid colour string. */
  function DecodeColors<C>(answer: Option<Json>, parse: string -> Option<C>): Option<seq<C>>
  {
    if answer.Some? && answer.value.JArr? then DecodeColorList(answer.value.elems, parse) else None
  }

  /** Colours sent as HTML strings decode to the same colours, provided each
      HTML string parses back to its colour. */
  lemma ColorsRoundTrip<C>(colors: seq<C>, html: C -> string, parse: string -> Option<C>)
    requires forall i :: 0 <= i < |colors| ==> parse(html(colors[i])) == Some(colors[i])
    ensures DecodeColors(Some(ColorsPayload(colors, html)), parse) == Some(colors)
  {
    var r := DecodeColors(Some(ColorsPayload(colors, html)), parse);
    assert r.Some?;
    assert r.value == colors;
  }

  /** The outcome of JSONToSizingOptions: its result and its three out-parameters. */
  datatype SizingDecode = SizingDecode(ok: bool, widthToHeightRatio: real, minWidth: int, minHeight: int)

  /** Sizing options from a parsed answer (None: the text did not parse).
      The three keys are read in order and each is stored as soon as it is
      read, so a failure on a later key leaves the earlier ones overwritten. */
  function JsonToSizingOptions(answer: Option<Json>, widthToHeightRatio: real, minWidth: int,
                               minHeight: int): (r: SizingDecode)
    ensures r.ok <==> (answer.Some? && DoubleAt(answer.value, "widthToHeightRatio").Some? &&
      IntAt(answer.value, "minWidth").Some? && IntAt(answer.value, "minHeight").Some?)
    ensures answer.None? || DoubleAt(answer.value, "widthToHeightRatio").None? ==>
      r == SizingDecode(false, widthToHeightRatio, minWidth, minHeight)
    ensures answer.Some? && DoubleAt(answer.value, "widthToHeightRatio").Some? ==>
      r.widthToHeightRatio == DoubleAt(answer.value, "widthToHeightRatio").value
    ensures r.minWidth != minWidth ==> (answer.Some? && DoubleAt(answer.value, "widthToHeightRatio").Some? &&
      IntAt(answer.value, "minWidth") == Some(r.minWidth))
    ensures !r.ok ==> r.minHeight == minHeight
    ensures r.ok ==> r == SizingDecode(true, DoubleAt(answer.value, "widthToHeightRatio").value,
      IntAt(answer.value, "minWidth").value, IntAt(answer.value, "minHeight").value)
    ensures (answer.Some? && DoubleAt(answer.value, "widthToHeightRatio").Some? &&
             IntAt(answer.value, "minWidth").Some?) ==> r.minWidth == IntAt(answer.value, "minWidth").value
  {
    if answer.None? then SizingDecode(false, widthToHeightRatio, minWidth, minHeight)
    else
      var j := answer.value;
      var ratio := DoubleAt(j, "widthToHeightRatio");
      if ratio.None? then SizingDecode(false, widthToHeightRatio, minWidth, minHeight)
      else
        var w := IntAt(j, "minWidth");
        if w.None? then SizingDecode(false, ratio.value, minWidth, minHeight)
        else
          var h := IntAt(j, "minHeight");
          if h.None? then SizingDecode(false, ratio.value, w.value, minHeight)
          else SizingDecode(true, ratio.value, w.value, h.value)
  }

  /** Sizing options sent by the set-sizing-options payload decode to the same values. */
  lemma SizingOptionsRoundTrip(widthToHeightRatio: real, minWidth: int, minHeight: int,
                               r0: real, w0: int, h0: int)
    ensures JsonToSizingOptions(Some(SizingOptionsPayload(widthToHeightRatio, minWidth, minHeight)), r0, w0, h0)
         == SizingDecode(true, widthToHeightRatio, minWidth, minHeight)
  {
    var j := SizingOptionsPayload(widthToHeightRatio, minWidth, minHeight);
    assert DoubleAt(j, "widthToHeightRatio") == Some(widthToHeightRatio);
    FindFirst(j.members, 1, "minWidth");
    FindFirst(j.members, 2, "minHeight");
    IntThroughNumber(minWidth);
    IntThroughNumber(minHeight);
  }

  /** An answer that carries only the ratio fails, yet the ratio output has
      already been overwritten. */
  lemma SizingOptionsPartialOverwrite()
    ensures JsonToSizingOptions(Some(JObj([("widthToHeightRatio", JNum(2.0))])), 1.0, 150, 150)
         == SizingDecode(false, 2.0, 150, 150)
  {
  }

  // ---------------------------------------------------------------------
  // The web view and the helper
  // ---------------------------------------------------------------------

  /** The embedded browser, reduced to the scripts it has been asked to run. */
  class WebView {
    var scripts: seq<ScriptCall>

    constructor ()
      ensures scripts == []
    {
      scripts := [];
    }

    /** Queues a script; its result arrives later, tagged with `tag`. */
    method RunScriptAsync(script: Script, tag: ScriptResult)
      modifies this
      ensures scripts == old(scripts) + [ScriptCall(script, tag)]
    {
      scripts := scripts + [ScriptCall(script, tag)];
    }
  }

  class ChartHelper {
    var webView: WebView?
    var variableNames: seq<string>
    var series: seq<ValueSeries>

    /** The helper's data as a table value. */
    function Data(): Table
      reads this
    {
      Table(variableNames, series)
    }

    /** A new helper holds no data and has no web view to send commands to. */
    constructor ()
      ensures webView == null && variableNames == [] && series == []
    {
      webView := null;
      variableNames := [];
      series := [];
    }

    method SetWebView(view: WebView)
      modifies this`webView
      ensures webView == view
    {
      webView := view;
    }

    method GetVariableNamesCount() returns (n: nat)
      ensures n == |variableNames|
    {
      n := |variableNames|;
    }

    /** The name at `nameIdx`, or false with `name` left as it was. */
    method GetVariableName(nameIdx: nat, prior: string) returns (ok: bool, name: string)
      ensures ok <==> nameIdx < |variableNames|
      ensures name == if ok then variableNames[nameIdx] else prior
    {
      if nameIdx >= |variableNames| {
        return false, prior;
      }
      return true, variableNames[nameIdx];
    }

    method GetVariableNames() returns (names: seq<string>)
      ensures names == variableNames
    {
      names := variableNames;
    }

    method AddVariableName(name: string) returns (ok: bool)
      modifies this`variableNames
      ensures ok == old(Data()).AddVariableName(name).Some?
      ensures Data() == Apply(old(Data()).AddVariableName(name), old(Data()))
    {
      if series == [] {
        return false;
      }
      var i := 0;
      while i < |variableNames|
        invariant 0 <= i <= |variableNames|
        invariant forall k :: 0 <= k < i ==> variableNames[k] != name
      {
        if variableNames[i] == name {
          return false;
        }
        i := i + 1;
      }
      variableNames := variableNames + [name];
      ok := true;
    }

    method AddVariableNames(names: seq<string>) returns (ok: bool)
      modifies this`variableNames
      ensures ok == old(Data()).AddVariableNames(names).Some?
      ensures Data() == Apply(old(Data()).AddVariableNames(names), old(Data()))
    {
      if names == [] || series != [] {
        return false;
      }
      var i := 0;
      while i < |variableNames|
        invariant 0 <= i <= |variableNames|
        invariant forall a, k :: 0 <= a < i && 0 <= k < |names| ==> names[k] != variableNames[a]
      {
        var k := 0;
        while k < |names|
          invariant 0 <= k <= |names|
          invariant forall m :: 0 <= m < k ==> names[m] != variableNames[i]
        {
          if names[k] == variableNames[i] {
            return false;
          }
          k := k + 1;
        }
        i := i + 1;
      }
      variableNames := variableNames + names;
      ok := true;
    }

    method SetVariableName(nameIdx: nat, name: string) returns (ok: bool)
      modifies this`variableNames
      ensures ok == old(Data()).SetVariableName(nameIdx, name).Some?
      ensures Data() == Apply(old(Data()).SetVariableName(nameIdx, name), old(Data()))
    {
      if name == [] || nameIdx >= |variableNames| {
        return false;
      }
      var i := 0;
      while i < |variableNames|
        invariant 0 <= i <= |variableNames|
        invariant forall k :: 0 <= k < i && k != nameIdx ==> variableNames[k] != name
      {
        if i != nameIdx && variableNames[i] == name {
          return false;
        }
        i := i + 1;
      }
      variableNames := variableNames[nameIdx := name];
      ok := true;
    }

    method GetSeriesCount() returns (n: nat)
      ensures n == |series|
    {
      n := |series|;
    }

    method AddSeries(s: ValueSeries) returns (ok: bool)
      modifies this`series
      ensures ok == old(Data()).AddSeries(s).Some?
      ensures Data() == Apply(old(Data()).AddSeries(s), old(Data()))
    {
      if variableNames == [] || s.name == [] || |s.data| != |variableNames| {
        return false;
      }
      var i := 0;
      while i < |series|
        invariant 0 <= i <= |series|
        invariant forall k :: 0 <= k < i ==> series[k].name != s.name
      {
        if series[i].name == s.name {
          return false;
        }
        i := i + 1;
      }
      series := series + [s];
      ok := true;
    }

    method GetSeriesName(seriesIdx: nat, prior: string) returns (ok: bool, name: string)
      ensures ok <==> seriesIdx < |series|
      ensures name == if ok then series[seriesIdx].name else prior
    {
      if seriesIdx >= |series| {
        return false, prior;
      }
      return true, series[seriesIdx].name;
    }

    /** The series names, in stored order. */
    method GetSeriesNames() returns (names: seq<string>)
      ensures |names| == |series|
      ensures forall i :: 0 <= i < |series| ==> names[i] == series[i].name
    {
      names := [];
      var i := 0;
      while i < |series|
        invariant 0 <= i <= |series|
        invariant |names| == i
        invariant forall k :: 0 <= k < i ==> names[k] == series[k].name
      {
        names := names + [series[i].name];
        i := i + 1;
      }
    }

    method SetSeriesName(seriesIdx: nat, name: string) returns (ok: bool)
      modifies this`series
      ensures ok == old(Data()).SetSeriesName(seriesIdx, name).Some?
      ensures Data() == Apply(old(Data()).SetSeriesName(seriesIdx, name), old(Data()))
    {
      if name == [] || seriesIdx >= |series| {
        return false;
      }
      var i := 0;
      while i < |series|
        invariant 0 <= i <= |series|
        invariant forall k :: 0 <= k < i && k != seriesIdx ==> series[k].name != name
      {
        if i != seriesIdx && series[i].name == name {
          return false;
        }
        i := i + 1;
      }
      series := series[seriesIdx := series[seriesIdx].(name := name)];
      ok := true;
    }

    method GetSeriesType(seriesIdx: nat, prior: SeriesType) returns (ok: bool, kind: SeriesType)
      ensures ok <==> seriesIdx < |series|
      ensures kind == if ok then series[seriesIdx].kind else prior
    {
      if seriesIdx >= |series| {
        return false, prior;
      }
      return true, series[seriesIdx].kind;
    }

    method SetSeriesType(seriesIdx: nat, kind: SeriesType) returns (ok: bool)
      modifies this`series
      ensures ok == old(Data()).SetSeriesType(seriesIdx, kind).Some?
      ensures Data() == Apply(old(Data()).SetSeriesType(seriesIdx, kind), old(Data()))
    {
      if seriesIdx >= |series| {
        return false;
      }
      series := series[seriesIdx := series[seriesIdx].(kind := kind)];
      ok := true;
    }

    method GetSeriesData(seriesIdx: nat, prior: seq<real>) returns (ok: bool, data: seq<real>)
      ensures ok <==> seriesIdx < |series|
      ensures data == if ok then series[seriesIdx].data else prior
    {
      if seriesIdx >= |series| {
        return false, prior;
      }
      return true, series[seriesIdx].data;
    }

    method SetSeriesData(seriesIdx: nat, data: seq<real>) returns (ok: bool)
      modifies this`series
      ensures ok == old(Data()).SetSeriesData(seriesIdx, data).Some?
      ensures Data() == Apply(old(Data()).SetSeriesData(seriesIdx, data), old(Data()))
    {
      if seriesIdx >= |series| || |data| != |variableNames| {
        return false;
      }
      series := series[seriesIdx := series[seriesIdx].(data := data)];
      ok := true;
    }

    // Commands. Each one is sent only when a web view has been set; the
    // helper's own data never changes.

    method RunChartCreate()
      modifies webView
      ensures webView != null ==> (webView.scripts ==
        old(webView.scripts) + [ScriptCall(Script("wxEChartsCreateChart", StrArg("chart")), CreateChart)])
    {
      if webView == null {
        return;
      }
      webView.RunScriptAsync(Script("wxEChartsCreateChart", StrArg("chart")), CreateChart);
    }

    /** Sends all series, in stored order; nothing is sent while there are none. */
    method RunChartUpdateSeries()
      modifies webView
      ensures webView != null ==> webView.scripts == old(webView.scripts) + UpdateSeriesCalls(series)
    {
      if webView == null || series == [] {
        return;
      }
      var ss := series;
      var all: seq<Json> := [];
      var i := 0;
      while i < |ss|
        invariant 0 <= i <= |ss|
        invariant all == seq(i, k requires 0 <= k < i => SeriesJson(ss[k]))
      {
        var s := ss[i];
        var data := [];
        var k := 0;
        while k < |s.data|
          invariant 0 <= k <= |s.data|
          invariant data == seq(k, m requires 0 <= m < k => JNum(s.data[m]))
        {
          data := data + [JNum(s.data[k])];
          k := k + 1;
        }
        var one := JObj([("name", JStr(s.name)), ("type", JStr(if s.kind == Bar then "bar" else "line")),
                         ("data", JArr(data))]);
        assert JArr(data) == NumbersJson(s.data);
        all := all + [one];
        i := i + 1;
      }
      webView.RunScriptAsync(Script("wxEChartsUpdateSeries", JsonArg(JObj([("series", JArr(all))]))), UpdateSeries);
    }

    /** Sends the variable names, in order; nothing is sent while there are none. */
    method RunChartUpdateVariableNames()
      modifies webView
      ensures webView != null ==> webView.scripts == old(webView.scripts) + UpdateVariableNamesCalls(variableNames)
    {
      if webView == null || variableNames == [] {
        return;
      }
      var vn := variableNames;
      var names: seq<Json> := [];
      var i := 0;
      while i < |vn|
        invariant 0 <= i <= |vn|
        invariant names == seq(i, k requires 0 <= k < i => JStr(vn[k]))
      {
        names := names + [JStr(vn[i])];
        i := i + 1;
      }
      webView.RunScriptAsync(Script("wxEChartsUpdateVariableNames", JsonArg(JArr(names))), UpdateVariableNames);
    }

    method RunChartGetColors()
      modifies webView
      ensures webView != null ==> (webView.scripts ==
        old(webView.scripts) + [ScriptCall(Script("wxEChartsGetChartColors", NoArg), GetColors)])
    {
      if webView == null {
        return;
      }
      webView.RunScriptAsync(Script("wxEChartsGetChartColors", NoArg), GetColors);
    }

    /** Sends the colours as HTML strings, in order (an empty list too). */
    method RunChartSetColors<C>(colors: seq<C>, html: C -> string)
      modifies webView
      ensures webView != null ==> (webView.scripts ==
        old(webView.scripts) + [ScriptCall(Script("wxEChartsSetChartColors", JsonArg(ColorsPayload(colors, html))),
                                           SetColors)])
    {
      if webView == null {
        return;
      }
      var strs: seq<Json> := [];
      var i := 0;
      while i < |colors|
        invariant 0 <= i <= |colors|
        invariant strs == seq(i, k requires 0 <= k < i => JStr(html(colors[k])))
      {
        strs := strs + [JStr(html(colors[i]))];
        i := i + 1;
      }
      webView.RunScriptAsync(Script("wxEChartsSetChartColors", JsonArg(JArr(strs))), SetColors);
    }

    method RunChartGetSizingOptions()
      modifies webView
      ensures webView != null ==> (webView.scripts ==
        old(webView.scripts) + [ScriptCall(Script("wxEChartsGetChartSizingOptions", NoArg), GetSizingOptions)])
    {
      if webView == null {
        return;
      }
      webView.RunScriptAsync(Script("wxEChartsGetChartSizingOptions", NoArg), GetSizingOptions);
    }

    method RunChartSetSizingOptions(widthToHeightRatio: real, minWidth: int, minHeight: int)
      modifies webView
      ensures webView != null ==> (webView.scripts ==
        old(webView.scripts) +
        [ScriptCall(Script("wxEChartsSetChartSizingOptions",
                           JsonArg(SizingOptionsPayload(widthToHeightRatio, minWidth, minHeight))), SetSizingOptions)])
    {
      if webView == null {
        return;
      }
      var j := JObj([("widthToHeightRatio", JNum(widthToHeightRatio)),
                     ("minWidth", JNum(minWidth as real)),
                     ("minHeight", JNum(minHeight as real))]);
      webView.RunScriptAsync(Script("wxEChartsSetChartSizingOptions", JsonArg(j)), SetSizingOptions);
    }

    method RunChartGetPNG(imageWidth: int)
      modifies webView
      ensures webView != null ==> (webView.scripts ==
        old(webView.scripts) + [ScriptCall(Script("wxEChartsSaveChartAsImage", IntArg(imageWidth)), GetPNG)])
    {
      if webView == null {
        return;
      }
      webView.RunScriptAsync(Script("wxEChartsSaveChartAsImage", IntArg(imageWidth)), GetPNG);
    }

    method RunChartGetEChartsVersion()
      modifies webView
      ensures webView != null ==> (webView.scripts ==
        old(webView.scripts) + [ScriptCall(Script("wxEChartsGetEChartsVersion", NoArg), GetEChartsVersion)])
    {
      if webView == null {
        return;
      }
      webView.RunScriptAsync(Script("wxEChartsGetEChartsVersion", NoArg), GetEChartsVersion);
    }

    /** The colours in a parsed answer (None: the text did not parse), all or
        nothing: on failure `colors` is returned untouched. */
    static method JsonToColors<C>(answer: Option<Json>, parse: string -> Option<C>, colors: seq<C>)
      returns (ok: bool, result: seq<C>)
      ensures ok <==> DecodeColors(answer, parse).Some?
      ensures result == if ok then DecodeColors(answer, parse).value else colors
    {
      if answer.None? || !answer.value.JArr? {
        return false, colors;
      }
      var elems := answer.value.elems;
      var tmpColors: seq<C> := [];
      var i := 0;
      while i < |elems|
        invariant 0 <= i <= |elems|
        invariant DecodeColorList(elems[..i], parse) == Some(tmpColors)
      {
        if !elems[i].JStr? {
          assert !DecodeColorList(elems, parse).Some?;
          return false, colors;
        }
        var color := parse(elems[i].s);
        if color.None? {
          assert !DecodeColorList(elems, parse).Some?;
          return false, colors;
        }
        assert elems[..i + 1] == elems[..i] + [elems[i]];
        DecodeColorListSnoc(elems[..i], elems[i], parse);
        tmpColors := tmpColors + [color.value];
        i := i + 1;
      }
      assert elems[..i] == elems;
      return true, tmpColors;
    }
  }

  /** Decoding one more element appends its colour. */
  lemma DecodeColorListSnoc<C>(elems: seq<Json>, e: Json, parse: string -> Option<C>)
    requires DecodeColorList(elems, parse).Some?
    requires e.JStr? && parse(e.s).Some?
    ensures DecodeColorList(elems + [e], parse) == Some(DecodeColorList(elems, parse).value + [parse(e.s).value])
  {
    var all := elems + [e];
    var r := DecodeColorList(all, parse);
    assert forall i :: 0 <= i < |all| ==> all[i].JStr? && parse(all[i].s).Some? by {
      forall i | 0 <= i < |all| ensures all[i].JStr? && parse(all[i].s).Some? {
        if i < |elems| {
          assert all[i] == elems[i];
        }
      }
    }
    var want := DecodeColorList(elems, parse).value + [parse(e.s).value];
    assert r.value == want by {
      forall i | 0 <= i < |all| ensures r.value[i] == want[i] {
        if i < |elems| {
          assert all[i] == elems[i];
        }
      }
    }
  }

  /** Series added one after another; None as soon as one is refused. */
  function AddSeriesList(t: Table, ss: seq<ValueSeries>): Option<Table>
    decreases |ss|
  {
    if ss == [] then Some(t)
    else if t.AddSeries(ss[0]).None? then None
    else AddSeriesList(t.AddSeries(ss[0]).value, ss[1..])
  }

  /** Series that are all accepted end up appended in order, and the
      variable names are untouched. */
  lemma {:induction false} AddSeriesListAppends(t: Table, ss: seq<ValueSeries>)
    ensures AddSeriesList(t, ss).Some? ==> AddSeriesList(t, ss).value == Table(t.variableNames, t.series + ss)
    decreases |ss|
  {
    if ss != [] && t.AddSeries(ss[0]).Some? {
      var t1 := t.AddSeries(ss[0]).value;
      AddSeriesListAppends(t1, ss[1..]);
      assert t1.series + ss[1..] == t.series + ss;
    }
  }

  /** The documented order of use: add the variable names, add the series,
      set the web view, create the chart, update the series. For any names
      and series the table updates accept, the page is asked to create the
      chart and then receives every series in order. */
  method CreateChartInDocumentedOrder(view: WebView, names: seq<string>, ss: seq<ValueSeries>)
    returns (h: ChartHelper)
    requires view.scripts == []
    requires names != []
    requires AddSeriesList(Table(names, []), ss).Some?
    modifies view
    ensures fresh(h) && h.webView == view
    ensures h.Data() == Table(names, ss)
    ensures view.scripts ==
      [ScriptCall(Script("wxEChartsCreateChart", StrArg("chart")), CreateChart)] + UpdateSeriesCalls(ss)
  {
    h := new ChartHelper();
    var ok := h.AddVariableNames(names);
    assert [] + names == names;
    var i := 0;
    while i < |ss|
      invariant 0 <= i <= |ss|
      invariant h.webView == null && view.scripts == []
      invariant h.Data() == Table(names, ss[..i])
      invariant AddSeriesList(h.Data(), ss[i..]).Some?
    {
      assert ss[i..][0] == ss[i] && ss[i..][1..] == ss[i + 1..];
      ok := h.AddSeries(ss[i]);
      assert ss[..i + 1] == ss[..i] + [ss[i]];
      i := i + 1;
    }
    assert ss[..|ss|] == ss;
    h.SetWebView(view);
    h.RunChartCreate();
    h.RunChartUpdateSeries();
  }

  /** Renaming a series queues nothing: the page receives the new name only
      with the next update-series command, which carries every series. */
  method RenameReachesChartOnUpdate(h: ChartHelper, idx: nat, newName: string) returns (ok: bool)
    requires h.webView != null
    modifies h`series, h.webView
    ensures ok == old(h.Data()).SetSeriesName(idx, newName).Some?
    ensures h.webView.scripts == old(h.webView.scripts) +
      UpdateSeriesCalls(if ok then old(h.series)[idx := old(h.series)[idx].(name := newName)] else old(h.series))
  {
    ok := h.SetSeriesName(idx, newName);
    assert h.webView.scripts == old(h.webView.scripts);
    h.RunChartUpdateSeries();
  }
}
