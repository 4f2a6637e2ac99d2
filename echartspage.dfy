// What the two revisions of the page script share: JavaScript property reads
// on parsed JSON, objects as JSON.stringify writes them, the sizing-options
// record, the chart-fitting rule and the click payloads.

module EChartsPage {
  import opened Json

  /** A thrown JavaScript error: its `name` and `message` properties. */
  datatype JsError = JsError(name: string, message: string)

  /** What JSON.parse made of a script argument: a value, or a thrown error. */
  datatype Parsed = Parsed(value: Json) | ParseError(error: JsError)

  /** Reading `o.key`: the property's value (None when it is undefined), or
      a TypeError when `o` is null. */
  datatype PropRead = Read(value: Option<Json>) | NullAccess

  function Prop(o: Json, key: string): (r: PropRead)
    ensures r.NullAccess? <==> o.JNull?
    ensures r.Read? && r.value.Some? ==>
      o.JObj? && exists i :: 0 <= i < |o.members| && o.members[i] == (key, r.value.value)
    ensures o.JObj? ==> r == Read(At(o, key))
  {
    match o
    case JNull => NullAccess
    case JObj(members) => Read(Find(members, key))
    case _ => Read(None)
  }

  /** JSON.stringify of a value that may be undefined: undefined gives no
      string, and concatenating that gives the text "undefined". */
  function Stringified(v: Option<Json>, stringify: Json -> string): string
  {
    if v.None? then "undefined" else stringify(v.value)
  }

  // ---------------------------------------------------------------------
  // Objects built property by property
  // ---------------------------------------------------------------------

  /** The members of an object whose properties were assigned in this
      order, as JSON.stringify writes it: properties holding undefined are
      left out. */
  function DefinedMembers(props: seq<(string, Option<Json>)>): (members: seq<(string, Json)>)
    ensures |members| <= |props|
  {
    if props == [] then []
    else
      (if props[0].1.Some? then [(props[0].0, props[0].1.value)] else []) + DefinedMembers(props[1..])
  }

  /** No property is assigned twice under `key`. */
  ghost predicate KeyAtMostOnce(props: seq<(string, Option<Json>)>, key: string)
  {
    forall i, j :: 0 <= i < j < |props| ==> props[i].0 != key || props[j].0 != key
  }

  /** The value assigned to property `key`, None when it is undefined. */
  function Lookup(props: seq<(string, Option<Json>)>, key: string): (r: Option<Json>)
    ensures (forall i :: 0 <= i < |props| ==> props[i].0 != key) ==> r.None?
    ensures r.Some? ==> exists i :: 0 <= i < |props| && props[i] == (key, r)
  {
    if props == [] then None
    else if props[0].0 == key then props[0].1
    else
      var r := Lookup(props[1..], key);
      assert r.Some? ==> exists i :: 1 <= i < |props| && props[i] == (key, r) by {
        if r.Some? {
          var k :| 0 <= k < |props[1..]| && props[1..][k] == (key, r);
          assert props[k + 1] == (key, r);
        }
      }
      r
  }

  /** The first assignment under the key is the one looked up. */
  lemma {:induction false} LookupFirst(props: seq<(string, Option<Json>)>, k: nat, key: string)
    requires k < |props| && props[k].0 == key
    requires forall i :: 0 <= i < k ==> props[i].0 != key
    ensures Lookup(props, key) == props[k].1
  {
    if k > 0 {
      LookupFirst(props[1..], k - 1, key);
    }
  }

  /** Reading a property back from the written object gives what was
      assigned to it, undefined included. */
  lemma {:induction false} FindDefined(props: seq<(string, Option<Json>)>, key: string)
    requires KeyAtMostOnce(props, key)
    ensures Find(DefinedMembers(props), key) == Lookup(props, key)
  {
    if props != [] {
      var rest := props[1..];
      assert KeyAtMostOnce(rest, key) by {
        forall i, j | 0 <= i < j < |rest| ensures rest[i].0 != key || rest[j].0 != key {
          assert rest[i] == props[i + 1] && rest[j] == props[j + 1];
        }
      }
      FindDefined(rest, key);
      var head := if props[0].1.Some? then [(props[0].0, props[0].1.value)] else [];
      assert DefinedMembers(props) == head + DefinedMembers(rest);
      if props[0].0 == key {
        if props[0].1.None? {
          assert forall i :: 0 <= i < |rest| ==> rest[i].0 != key by {
            forall i | 0 <= i < |rest| ensures rest[i].0 != key {
              assert rest[i] == props[i + 1];
              assert props[0].0 != key || props[i + 1].0 != key;
            }
          }
          assert head + DefinedMembers(rest) == DefinedMembers(rest);
        }
      } else if props[0].1.Some? {
        assert (head + DefinedMembers(rest))[1..] == DefinedMembers(rest);
      } else {
        assert head + DefinedMembers(rest) == DefinedMembers(rest);
      }
    }
  }

  // ---------------------------------------------------------------------
  // Sizing options
  // ---------------------------------------------------------------------

  /** The page's sizing-options record. Its fields hold whatever was copied
      into them, undefined (None) included. */
  datatype SizingOptions = SizingOptions(widthToHeightRatio: Option<Json>, minWidth: Option<Json>,
                                         minHeight: Option<Json>)

  /** Ratio 1, minimum width 150, minimum height 150. */
  function InitialSizingOptions(): SizingOptions
  {
    SizingOptions(Some(JNum(1.0)), Some(JNum(150.0)), Some(JNum(150.0)))
  }

  /** The record's properties in declaration order. */
  function SizingOptionsProps(opts: SizingOptions): seq<(string, Option<Json>)>
  {
    [("widthToHeightRatio", opts.widthToHeightRatio), ("minWidth", opts.minWidth),
     ("minHeight", opts.minHeight)]
  }

  /** The record as JSON.stringify writes it. */
  function SizingOptionsJson(opts: SizingOptions): Json
  {
    JObj(DefinedMembers(SizingOptionsProps(opts)))
  }

  /** The record after its three fields have been copied from the parsed
      value `o`, which is not null. */
  function CopySizingOptions(o: Json): SizingOptions
    requires !o.JNull?
  {
    SizingOptions(Prop(o, "widthToHeightRatio").value, Prop(o, "minWidth").value,
                  Prop(o, "minHeight").value)
  }

  /** Getting the options after setting them from `o` gives back each of
      the three properties of `o`, undefined ones included. */
  lemma SetThenGet(o: Json)
    requires !o.JNull?
    ensures var got := SizingOptionsJson(CopySizingOptions(o));
      && Prop(got, "widthToHeightRatio") == Prop(o, "widthToHeightRatio")
      && Prop(got, "minWidth") == Prop(o, "minWidth")
      && Prop(got, "minHeight") == Prop(o, "minHeight")
  {
    var props := SizingOptionsProps(CopySizingOptions(o));
    FindDefined(props, "widthToHeightRatio");
    FindDefined(props, "minWidth");
    FindDefined(props, "minHeight");
  }

  /** The initial options, read back, are the numbers 1, 150 and 150. */
  lemma InitialSizingOptionsJson()
    ensures SizingOptionsJson(InitialSizingOptions()) ==
      JObj([("widthToHeightRatio", JNum(1.0)), ("minWidth", JNum(150.0)), ("minHeight", JNum(150.0))])
  {
  }

  // ---------------------------------------------------------------------
  // Fitting the chart into its container
  // ---------------------------------------------------------------------

  /** Whether the chart, at the container's full width, would be at least as
      tall as the container. A zero ratio makes that height infinite. */
  predicate TooTall(divWidth: real, divHeight: real, ratio: real)
  {
    ratio == 0.0 || divWidth / ratio >= divHeight
  }

  /** The fit rule: the container's width and the height the ratio gives
      for it; if that is too tall, the container's height and the width the
      ratio gives for that. A zero ratio with a zero width is 0 / 0, which
      has no value. */
  function Fit(divWidth: real, divHeight: real, ratio: real): (real, real)
    requires ratio != 0.0 || divWidth != 0.0
  {
    if TooTall(divWidth, divHeight, ratio) then (divHeight * ratio, divHeight)
    else (divWidth, divWidth / ratio)
  }

  /** With a positive ratio the fitted chart has that ratio, stays inside the
      container and touches it on at least one side. */
  lemma FitWithinContainer(divWidth: real, divHeight: real, ratio: real)
    requires divWidth >= 0.0 && divHeight >= 0.0 && ratio > 0.0
    ensures var (w, h) := Fit(divWidth, divHeight, ratio);
      && 0.0 <= w <= divWidth && 0.0 <= h <= divHeight
      && w == h * ratio
      && (w == divWidth || h == divHeight)
  {
    if TooTall(divWidth, divHeight, ratio) {
      assert divWidth >= divHeight * ratio by {
        assert divWidth == (divWidth / ratio) * ratio;
        MulMonotone(divHeight, divWidth / ratio, ratio);
      }
      MulMonotone(0.0, divHeight, ratio);
    } else {
      assert (divWidth / ratio) * ratio == divWidth;
      DivNonNegative(divWidth, ratio);
    }
  }

  /** With a positive ratio no larger chart of that ratio fits the container. */
  lemma FitIsLargest(divWidth: real, divHeight: real, ratio: real, w: real, h: real)
    requires divWidth >= 0.0 && divHeight >= 0.0 && ratio > 0.0
    requires 0.0 <= h && w == h * ratio && w <= divWidth && h <= divHeight
    ensures w <= Fit(divWidth, divHeight, ratio).0 && h <= Fit(divWidth, divHeight, ratio).1
  {
    if TooTall(divWidth, divHeight, ratio) {
      MulMonotone(h, divHeight, ratio);
    } else {
      assert h == w / ratio;
      DivMonotone(w, divWidth, ratio);
    }
  }

  lemma MulMonotone(a: real, b: real, c: real)
    requires a <= b && c >= 0.0
    ensures a * c <= b * c
  {
  }

  lemma DivMonotone(a: real, b: real, c: real)
    requires a <= b && c > 0.0
    ensures a / c <= b / c
  {
    assert b / c - a / c == (b - a) / c;
  }

  lemma DivNonNegative(a: real, c: real)
    requires a >= 0.0 && c > 0.0
    ensures a / c >= 0.0
  {
  }

  /** A field's value as a number; anything else is not. */
  function NumberOf(v: Option<Json>): (r: Option<real>)
    ensures r.Some? <==> v.Some? && v.value.JNum?
  {
    if v.Some? && v.value.JNum? then Some(v.value.n) else None
  }

  /** The size the chart is resized to, None when it is left as it is: the
      fitted size, applied only when it reaches both minimums. An undefined
      field gives no number and every comparison with it fails. */
  function ResizeDecision(opts: SizingOptions, divWidth: real, divHeight: real): Option<(real, real)>
  {
    var ratio := NumberOf(opts.widthToHeightRatio);
    var minWidth := NumberOf(opts.minWidth);
    var minHeight := NumberOf(opts.minHeight);
    if ratio.None? || minWidth.None? || minHeight.None? then None
    else if ratio.value == 0.0 && divWidth == 0.0 then None
    else
      var size := Fit(divWidth, divHeight, ratio.value);
      if size.0 >= minWidth.value && size.1 >= minHeight.value then Some(size) else None
  }

  /** A resize with a positive ratio lands between the minimums and the
      container and keeps the ratio; with numeric options, no resize means
      the fitted size misses a minimum. */
  lemma ResizeBounds(opts: SizingOptions, divWidth: real, divHeight: real)
    requires divWidth >= 0.0 && divHeight >= 0.0
    requires NumberOf(opts.widthToHeightRatio).Some? && NumberOf(opts.widthToHeightRatio).value > 0.0
    requires NumberOf(opts.minWidth).Some? && NumberOf(opts.minHeight).Some?
    ensures var r := ResizeDecision(opts, divWidth, divHeight);
      var ratio := NumberOf(opts.widthToHeightRatio).value;
      && (r.Some? ==>
            && NumberOf(opts.minWidth).value <= r.value.0 <= divWidth
            && NumberOf(opts.minHeight).value <= r.value.1 <= divHeight
            && r.value.0 == r.value.1 * ratio)
      && (r.None? ==>
            Fit(divWidth, divHeight, ratio).0 < NumberOf(opts.minWidth).value ||
            Fit(divWidth, divHeight, ratio).1 < NumberOf(opts.minHeight).value)
  {
    FitWithinContainer(divWidth, divHeight, NumberOf(opts.widthToHeightRatio).value);
  }

  /** With the initial options the chart is the largest square that fits,
      and only when that square is at least 150 wide. */
  lemma InitialResizeIsSquare(divWidth: real, divHeight: real)
    requires divWidth >= 0.0 && divHeight >= 0.0
    ensures var side := if divWidth <= divHeight then divWidth else divHeight;
      ResizeDecision(InitialSizingOptions(), divWidth, divHeight) ==
        if side >= 150.0 then Some((side, side)) else None
  {
  }

  // ---------------------------------------------------------------------
  // Click payloads
  // ---------------------------------------------------------------------

  /** The y-axis double-click payload: only the axis index and target type. */
  function YAxisClickProps(yAxisIndex: Option<Json>, targetType: Option<Json>): seq<(string, Option<Json>)>
  {
    [("yAxisIndex", yAxisIndex), ("targetType", targetType)]
  }

  function YAxisClickPayload(yAxisIndex: Option<Json>, targetType: Option<Json>): Json
  {
    JObj(DefinedMembers(YAxisClickProps(yAxisIndex, targetType)))
  }

  /** The event properties copied for a series double-click. */
  datatype SeriesClick = SeriesClick(name: Option<Json>, componentIndex: Option<Json>,
                                     componentSubType: Option<Json>, dataIndex: Option<Json>,
                                     seriesIndex: Option<Json>, seriesName: Option<Json>,
                                     seriesType: Option<Json>, color: Option<Json>, value: Option<Json>)

  function SeriesClickProps(p: SeriesClick): seq<(string, Option<Json>)>
  {
    [("name", p.name), ("componentIndex", p.componentIndex), ("componentSubType", p.componentSubType),
     ("dataIndex", p.dataIndex), ("seriesIndex", p.seriesIndex), ("seriesName", p.seriesName),
     ("seriesType", p.seriesType), ("color", p.color), ("value", p.value)]
  }

  function SeriesClickPayload(p: SeriesClick): Json
  {
    JObj(DefinedMembers(SeriesClickProps(p)))
  }

  /** A context menu over the chart: component type and pointer position. */
  function ChartContextMenuPayload(componentType: Option<Json>, clientX: Option<Json>,
                                   clientY: Option<Json>): Json
  {
    JObj(DefinedMembers([("componentType", componentType), ("clientX", clientX), ("clientY", clientY)]))
  }

  /** A context menu elsewhere in the window: the pointer position. */
  function WindowContextMenuPayload(clientX: Option<Json>, clientY: Option<Json>): Json
  {
    JObj(DefinedMembers([("clientX", clientX), ("clientY", clientY)]))
  }

  /** Each y-axis payload key reads back what was copied into it. */
  lemma YAxisClickPayloadReads(yAxisIndex: Option<Json>, targetType: Option<Json>)
    ensures At(YAxisClickPayload(yAxisIndex, targetType), "yAxisIndex") == yAxisIndex
    ensures At(YAxisClickPayload(yAxisIndex, targetType), "targetType") == targetType
  {
    FindDefined(YAxisClickProps(yAxisIndex, targetType), "yAxisIndex");
    FindDefined(YAxisClickProps(yAxisIndex, targetType), "targetType");
  }

  /** The keys the native side reads from a series payload read back what
      was copied into them. */
  lemma SeriesClickPayloadReads(p: SeriesClick)
    ensures At(SeriesClickPayload(p), "dataIndex") == p.dataIndex
    ensures At(SeriesClickPayload(p), "seriesIndex") == p.seriesIndex
    ensures At(SeriesClickPayload(p), "value") == p.value
    ensures At(SeriesClickPayload(p), "color") == p.color
  {
    var props := SeriesClickProps(p);
    FindDefined(props, "dataIndex");
    LookupFirst(props, 3, "dataIndex");
    FindDefined(props, "seriesIndex");
    LookupFirst(props, 4, "seriesIndex");
    FindDefined(props, "color");
    LookupFirst(props, 7, "color");
    FindDefined(props, "value");
    LookupFirst(props, 8, "value");
  }
}
