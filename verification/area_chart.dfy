/**
 The AreaChart builder: a chart's label, data binding, events, target
 element and the options map its setters fill in, each setter checking its
 argument and either merging one option into the map or filing one error.
 Gcharts' global error registry is the `log` field of the chart itself.
 */
module AreaChart {
  import opened PhpValues
  import opened PhpArrays

  /** The class name `get_class($this)` reports; errors are filed under it. */
  datatype ChartType = AreaChartType | PieChartType

  /** What an error message reports. `InvalidOption` carries the option name
      the message mentions, which is not always the setter's own. */
  datatype Complaint =
    | InvalidConfig
    | InvalidDataTable
    | InvalidEventName
    | InvalidEventsType
    | InvalidOption(name: string)

  /** One entry of the error registry: the chart class it is filed under
      (None where the source passes an undefined variable) and the complaint. */
  datatype LogEntry = LogEntry(where: Option<ChartType>, complaint: Complaint)

  /** The state of a chart object. `binding` is `$dataTable` (Null, a table
      label, or "local" when `data` holds the DataTable itself); `events` is
      empty while `$events` is still NULL. */
  datatype Chart = Chart(
    chartType: ChartType,
    chartLabel: Value,
    binding: Value,
    data: Value,
    options: seq<Entry>,
    events: seq<Value>,
    elementId: Value,
    log: seq<LogEntry>)

  /** The options map has the shape every `array_merge` result has. */
  predicate Valid(c: Chart)
  {
    Normalized(c.options)
  }

  const CurveTypes: seq<string> := ["none", "function"]
  const Positions: seq<string> := ["in", "out", "none"]
  const EventNames: seq<string> :=
    ["animationfinish", "error", "onmouseover", "onmouseout", "ready", "select"]

  /** The keys `initialize` accepts, in the order it lists them. */
  const DefaultOptions: seq<string> := [
    "areaOpacity", "backgroundColor", "chartArea", "colors", "curveType",
    "enableInteractivity", "events", "focusTarget", "fontSize", "fontName",
    "hAxis", "isHtml", "interpolateNulls", "legend", "lineWidth", "pointSize",
    "reverseCategories", "series", "theme", "title", "titlePosition",
    "titleTextStyle", "tooltip", "vAxes", "vAxis"]

  /** The listed keys that name a method of the class (`method_exists`),
      with the line of AreaChart.php that declares each: events 174,
      areaOpacity 259, chartArea 304, colors 323, curveType 344,
      enableInteractivity 358, focusTarget 365, fontSize 372, fontName 379,
      hAxis 394, isHtml 430, interpolateNulls 468, legend 488, lineWidth 508,
      pointSize 527, series 546, title 566, tooltip 586, titlePosition 607,
      titleTextStyle 632. */
  const MethodNames: set<string> := {
    "areaOpacity", "chartArea", "colors", "curveType", "enableInteractivity",
    "events", "focusTarget", "fontSize", "fontName", "hAxis", "isHtml",
    "interpolateNulls", "legend", "lineWidth", "pointSize", "series", "title",
    "titlePosition", "titleTextStyle", "tooltip"}

  // ------------------------------------------------ relations between states

  /** `r` is `c` with one more error filed. */
  ghost predicate Logged(c: Chart, r: Chart, where: Option<ChartType>, complaint: Complaint)
  {
    r == c.(log := c.log + [LogEntry(where, complaint)])
  }

  /** `r` is `c` with option `key` holding `v`; every other option, integer
      keys included, and every other field are as they were. */
  ghost predicate Assigned(c: Chart, r: Chart, key: string, v: Value)
  {
    && r == c.(options := r.options)
    && Normalized(r.options)
    && forall k :: Get(r.options, k) == (if k == StrKey(key) then Some(v) else Get(c.options, k))
  }

  /** `r` is `c` with `fragment` merged into its options: list values are
      appended, and each string key takes the fragment's value if it has one. */
  ghost predicate Merged(c: Chart, r: Chart, fragment: seq<Entry>)
  {
    && r == c.(options := r.options)
    && Normalized(r.options)
    && ListPart(r.options) == ListPart(c.options) + ListPart(fragment)
    && forall s: string :: Get(r.options, StrKey(s)) ==
         (if Get(fragment, StrKey(s)).Some? then Get(fragment, StrKey(s)) else Get(c.options, StrKey(s)))
  }

  /** What no setter reached from `initialize` touches: the class, label,
      binding, data and element; errors and events are only ever appended. */
  ghost predicate Extends(c: Chart, r: Chart)
  {
    && r.chartType == c.chartType
    && r.chartLabel == c.chartLabel
    && r.binding == c.binding
    && r.data == c.data
    && r.elementId == c.elementId
    && c.log <= r.log
    && c.events <= r.events
  }

  // ---------------------------------------------------- construction, core

  /** `new AreaChart($chartLabel)` (and the same for other chart classes). */
  function NewChart(chartType: ChartType, chartLabel: Value): (c: Chart)
    ensures c.chartType == chartType && c.chartLabel == chartLabel
    ensures c.options == [] && c.events == [] && c.log == []
    ensures c.binding == Null && c.data == Null && c.elementId == Null
    ensures Valid(c)
  {
    Chart(chartType, chartLabel, Null, Null, [], [], Null, [])
  }

  /** `$this->error($msg)`: files a complaint under the chart's class. */
  function Complain(c: Chart, complaint: Complaint): (r: Chart)
    ensures Logged(c, r, Some(c.chartType), complaint)
    ensures |r.log| == |c.log| + 1 && r.options == c.options
  {
    c.(log := c.log + [LogEntry(Some(c.chartType), complaint)])
  }

  /** `addOption($option)`: an object's `toArray()` view or an array is merged
      into the options with `array_merge`; any other value is ignored. */
  function AddOption(c: Chart, option: Value): (r: Chart)
    ensures Valid(c) ==> Valid(r)
    ensures option.Obj? ==> Merged(c, r, option.toArray)
    ensures option.Arr? ==> Merged(c, r, option.entries)
    ensures !option.Obj? && !option.Arr? ==> r == c
  {
    if option.Obj? then c.(options := ArrayMerge(c.options, option.toArray))
    else if option.Arr? then c.(options := ArrayMerge(c.options, option.entries))
    else c
  }

  /** `addOption(array(key => v))`, the success path of every scalar setter. */
  function Store(c: Chart, key: string, v: Value): (r: Chart)
    requires Valid(c)
    ensures Assigned(c, r, key, v)
  {
    var fragment := [Entry(StrKey(key), v)];
    MergeStringKeyed(c.options, fragment);
    AddOption(c, Arr(fragment))
  }

  /** `addOption` on a string-keyed fragment gives each of its keys the
      fragment's value and leaves every other key, integer keys included,
      as it was. */
  lemma AddOptionOverrides(c: Chart, fragment: seq<Entry>)
    requires Valid(c) && StringKeyed(fragment)
    ensures forall k :: Get(AddOption(c, Arr(fragment)).options, k) ==
              (if Get(fragment, k).Some? then Get(fragment, k) else Get(c.options, k))
  {
    MergeStringKeyed(c.options, fragment);
  }

  /** Adding the same string-keyed fragment twice leaves the options as adding
      it once. */
  lemma AddOptionIdempotent(c: Chart, option: Value)
    requires Valid(c)
    requires option.Arr? ==> StringKeyed(option.entries) && DistinctKeys(option.entries)
    requires option.Obj? ==> StringKeyed(option.toArray) && DistinctKeys(option.toArray)
    ensures AddOption(AddOption(c, option), option).options == AddOption(c, option).options
  {
    if option.Arr? {
      MergeIdempotent(c.options, option.entries);
    } else if option.Obj? {
      MergeIdempotent(c.options, option.toArray);
    }
  }

  // --------------------------------------------------------- data and events

  /** `dataTable($data)`: a DataTable object is stored and bound as "local";
      a non-empty string becomes the binding label; anything else is an
      error and leaves the binding as it was. */
  function DataTable(c: Chart, data: Value): (r: Chart)
    ensures data.Obj? && data.cls == DataTableClass ==>
              r == c.(data := data, binding := Str("local"))
    ensures data.Str? && data.s != "" ==> r == c.(binding := data)
    ensures !(data.Obj? && data.cls == DataTableClass) && !(data.Str? && data.s != "") ==>
              Logged(c, r, Some(c.chartType), InvalidDataTable)
  {
    if data.Obj? && data.cls == DataTableClass then c.(data := data, binding := Str("local"))
    else if data.Str? && data.s != "" then c.(binding := data)
    else Complain(c, InvalidDataTable)
  }

  /** The values `in_array($event, $values)` lets through: the event names,
      and true, 0 and 0.0, which loosely equal every name. */
  predicate KnownEvent(v: Value)
  {
    (v.Str? && v.s in EventNames) || v == Bool(true) || v == Int(0) || v == Float(0.0)
  }

  /** The values of `es` that are known events, in order, duplicates kept. */
  function KnownEvents(es: seq<Entry>): seq<Value>
    decreases |es|
  {
    if |es| == 0 then []
    else if KnownEvent(es[|es| - 1].val) then KnownEvents(es[..|es| - 1]) + [es[|es| - 1].val]
    else KnownEvents(es[..|es| - 1])
  }

  /** How many values of `es` are not known events. */
  function UnknownEvents(es: seq<Entry>): nat
    decreases |es|
  {
    if |es| == 0 then 0
    else UnknownEvents(es[..|es| - 1]) + (if KnownEvent(es[|es| - 1].val) then 0 else 1)
  }

  /** The loop of `events` over an array: each known event is appended to the
      chart's events, each other value files one error; options never change. */
  function RegisterEvents(c: Chart, es: seq<Entry>): (r: Chart)
    ensures r == c.(events := c.events + KnownEvents(es),
                    log := c.log + seq(UnknownEvents(es), _ => LogEntry(Some(c.chartType), InvalidEventName)))
    decreases |es|
  {
    if |es| == 0 then c
    else
      var acc := RegisterEvents(c, es[..|es| - 1]);
      var event := es[|es| - 1].val;
      LooselyInCharacterised(event, EventNames);
      if LooselyIn(event, EventNames) then acc.(events := acc.events + [event])
      else Complain(acc, InvalidEventName)
  }

  /** `events($events)`: an array registers its known events and files one
      error per other value; anything else files one error. */
  function Events(c: Chart, events: Value): (r: Chart)
    ensures events.Arr? ==>
              && r.options == c.options
              && r.events == c.events + KnownEvents(events.entries)
              && r.log == c.log + seq(UnknownEvents(events.entries), _ => LogEntry(Some(c.chartType), InvalidEventName))
              && r == c.(events := r.events, log := r.log)
    ensures !events.Arr? ==> Logged(c, r, Some(c.chartType), InvalidEventsType)
  {
    if events.Arr? then RegisterEvents(c, events.entries)
    else Complain(c, InvalidEventsType)
  }

  /** Every value of an events array is either registered or reported. */
  lemma {:induction false} EventsPartition(es: seq<Entry>)
    ensures |KnownEvents(es)| + UnknownEvents(es) == |es|
    decreases |es|
  {
    if |es| > 0 {
      EventsPartition(es[..|es| - 1]);
    }
  }

  // ----------------------------------------------------------------- setters

  /** `areaOpacity($opacity)`: only a float strictly between 0.0 and 1.0. */
  function AreaOpacity(c: Chart, opacity: Value): (r: Chart)
    requires Valid(c)
    ensures opacity.Float? && 0.0 < opacity.f < 1.0 ==> Assigned(c, r, "areaOpacity", opacity)
    ensures !(opacity.Float? && 0.0 < opacity.f < 1.0) ==>
              Logged(c, r, Some(c.chartType), InvalidOption("areaOpacity"))
  {
    if opacity.Float? && opacity.f < 1.0 && opacity.f > 0.0 then Store(c, "areaOpacity", opacity)
    else Complain(c, InvalidOption("areaOpacity"))
  }

  /** `axisTitlesPosition($position)`: one of in, out, none, by loose match. */
  function AxisTitlesPosition(c: Chart, position: Value): (r: Chart)
    requires Valid(c)
    ensures position.Str? && position.s in Positions ==>
              Assigned(c, r, "axisTitlesPosition", position)
    ensures position in {Bool(true), Int(0), Float(0.0)} ==>
              Assigned(c, r, "axisTitlesPosition", position)
    ensures !(position.Str? && position.s in Positions) && position !in {Bool(true), Int(0), Float(0.0)} ==>
              Logged(c, r, Some(c.chartType), InvalidOption("axisTitlesPosition"))
  {
    LooselyInCharacterised(position, Positions);
    if LooselyIn(position, Positions) then Store(c, "axisTitlesPosition", position)
    else Complain(c, InvalidOption("axisTitlesPosition"))
  }

  /** `chartArea(chartArea $chartArea)`: the type hint admits only chartArea
      objects, whose `toArray()` view is merged at the top level. */
  function ChartArea(c: Chart, chartArea: Value): (r: Chart)
    requires Valid(c)
    requires chartArea.Obj? && chartArea.cls == ChartAreaClass
    ensures Valid(r) && Merged(c, r, chartArea.toArray)
  {
    AddOption(c, chartArea)
  }

  /** `colors($colorArray)`: any array, stored as it is. */
  function Colors(c: Chart, colors: Value): (r: Chart)
    requires Valid(c)
    ensures colors.Arr? ==> Assigned(c, r, "colors", colors)
    ensures !colors.Arr? ==> Logged(c, r, Some(c.chartType), InvalidOption("colors"))
  {
    if colors.Arr? then Store(c, "colors", colors)
    else Complain(c, InvalidOption("colors"))
  }

  /** `(string) $v` for the values that loosely equal a vocabulary word. */
  function CastToString(v: Value): string
    requires v.Str? || v == Bool(true) || v == Int(0) || v == Float(0.0)
  {
    match v
    case Str(s) => s
    case Bool(_) => "1"
    case _ => "0"
  }

  /** `curveType($curveType)`: none or function, by loose match, stored as a
      string. */
  function CurveType(c: Chart, curveType: Value): (r: Chart)
    requires Valid(c)
    ensures curveType.Str? && curveType.s in CurveTypes ==> Assigned(c, r, "curveType", curveType)
    ensures curveType == Bool(true) ==> Assigned(c, r, "curveType", Str("1"))
    ensures curveType == Int(0) || curveType == Float(0.0) ==> Assigned(c, r, "curveType", Str("0"))
    ensures !(curveType.Str? && curveType.s in CurveTypes) && curveType !in {Bool(true), Int(0), Float(0.0)} ==>
              Logged(c, r, Some(c.chartType), InvalidOption("curveType"))
  {
    LooselyInCharacterised(curveType, CurveTypes);
    if LooselyIn(curveType, CurveTypes) then Store(c, "curveType", Str(CastToString(curveType)))
    else Complain(c, InvalidOption("curveType"))
  }

  /** The bodies of enableInteractivity, focusTarget, fontSize, fontName,
      reverseCatagories and series: they do nothing. */
  function Unimplemented(c: Chart, param: Value): (r: Chart)
    ensures r == c
  {
    c
  }

  /** `hAxis($hAxis)`: an hAxis object's `toArray()` view is merged at the top
      level; anything else is an error. */
  function HAxis(c: Chart, hAxis: Value): (r: Chart)
    requires Valid(c)
    ensures hAxis.Obj? && hAxis.cls == HAxisClass ==> Valid(r) && Merged(c, r, hAxis.toArray)
    ensures !(hAxis.Obj? && hAxis.cls == HAxisClass) ==>
              Logged(c, r, Some(c.chartType), InvalidOption("hAxis"))
  {
    if hAxis.Obj? && hAxis.cls == HAxisClass then AddOption(c, hAxis)
    else Complain(c, InvalidOption("hAxis"))
  }

  /** `height($height)`: integers only. */
  function Height(c: Chart, height: Value): (r: Chart)
    requires Valid(c)
    ensures height.Int? ==> Assigned(c, r, "height", height)
    ensures !height.Int? ==> Logged(c, r, Some(c.chartType), InvalidOption("height"))
  {
    if height.Int? then Store(c, "height", height)
    else Complain(c, InvalidOption("height"))
  }

  /** `isHtml($isHTML)`: booleans only, stored under the key isHTML. */
  function IsHtml(c: Chart, isHtml: Value): (r: Chart)
    requires Valid(c)
    ensures isHtml.Bool? ==> Assigned(c, r, "isHTML", isHtml)
    ensures !isHtml.Bool? ==> Logged(c, r, Some(c.chartType), InvalidOption("isHTML"))
  {
    if isHtml.Bool? then Store(c, "isHTML", isHtml)
    else Complain(c, InvalidOption("isHTML"))
  }

  /** `isStacked($isStacked)`: booleans only. */
  function IsStacked(c: Chart, isStacked: Value): (r: Chart)
    requires Valid(c)
    ensures isStacked.Bool? ==> Assigned(c, r, "isStacked", isStacked)
    ensures !isStacked.Bool? ==> Logged(c, r, Some(c.chartType), InvalidOption("isStacked"))
  {
    if isStacked.Bool? then Store(c, "isStacked", isStacked)
    else Complain(c, InvalidOption("isStacked"))
  }

  /** `interpolateNulls($interpolateNulls)`: booleans only; its error is
      filed under an undefined variable, that is, under no chart class. */
  function InterpolateNulls(c: Chart, interpolateNulls: Value): (r: Chart)
    requires Valid(c)
    ensures interpolateNulls.Bool? ==> Assigned(c, r, "interpolateNulls", interpolateNulls)
    ensures !interpolateNulls.Bool? ==> Logged(c, r, None, InvalidOption("interpolateNulls"))
  {
    if interpolateNulls.Bool? then Store(c, "interpolateNulls", interpolateNulls)
    else c.(log := c.log + [LogEntry(None, InvalidOption("interpolateNulls"))])
  }

  /** `legend(legend $legendObj)`: the type hint admits only legend objects,
      whose `toArray()` view is merged at the top level. */
  function Legend(c: Chart, legend: Value): (r: Chart)
    requires Valid(c)
    requires legend.Obj? && legend.cls == LegendClass
    ensures Valid(r) && Merged(c, r, legend.toArray)
  {
    AddOption(c, legend)
  }

  /** `lineWidth($width)`: integers only. */
  function LineWidth(c: Chart, width: Value): (r: Chart)
    requires Valid(c)
    ensures width.Int? ==> Assigned(c, r, "lineWidth", width)
    ensures !width.Int? ==> Logged(c, r, Some(c.chartType), InvalidOption("lineWidth"))
  {
    if width.Int? then Store(c, "lineWidth", width)
    else Complain(c, InvalidOption("lineWidth"))
  }

  /** `pointSize($size)`: integers only. */
  function PointSize(c: Chart, size: Value): (r: Chart)
    requires Valid(c)
    ensures size.Int? ==> Assigned(c, r, "pointSize", size)
    ensures !size.Int? ==> Logged(c, r, Some(c.chartType), InvalidOption("pointSize"))
  {
    if size.Int? then Store(c, "pointSize", size)
    else Complain(c, InvalidOption("pointSize"))
  }

  /** `title($title)`: strings only. */
  function Title(c: Chart, title: Value): (r: Chart)
    requires Valid(c)
    ensures title.Str? ==> Assigned(c, r, "title", title)
    ensures !title.Str? ==> Logged(c, r, Some(c.chartType), InvalidOption("title"))
  {
    if title.Str? then Store(c, "title", title)
    else Complain(c, InvalidOption("title"))
  }

  /** `tooltip(tooltip $tooltipObj)`: the type hint admits only tooltip
      objects, whose `toArray()` view is merged at the top level. */
  function Tooltip(c: Chart, tooltip: Value): (r: Chart)
    requires Valid(c)
    requires tooltip.Obj? && tooltip.cls == TooltipClass
    ensures Valid(r) && Merged(c, r, tooltip.toArray)
  {
    AddOption(c, tooltip)
  }

  /** `titlePosition($position)`: one of in, out, none, by loose match; its
      error message names axisTitlesPosition. */
  function TitlePosition(c: Chart, position: Value): (r: Chart)
    requires Valid(c)
    ensures position.Str? && position.s in Positions ==> Assigned(c, r, "titlePosition", position)
    ensures position in {Bool(true), Int(0), Float(0.0)} ==> Assigned(c, r, "titlePosition", position)
    ensures !(position.Str? && position.s in Positions) && position !in {Bool(true), Int(0), Float(0.0)} ==>
              Logged(c, r, Some(c.chartType), InvalidOption("axisTitlesPosition"))
  {
    LooselyInCharacterised(position, Positions);
    if LooselyIn(position, Positions) then Store(c, "titlePosition", position)
    else Complain(c, InvalidOption("axisTitlesPosition"))
  }

  /** `titleTextStyle(textStyle $textStyleObj)`: the type hint admits only
      textStyle objects, whose values are nested under titleTextStyle. */
  function TitleTextStyle(c: Chart, textStyle: Value): (r: Chart)
    requires Valid(c)
    requires textStyle.Obj? && textStyle.cls == TextStyleClass
    ensures Assigned(c, r, "titleTextStyle", Arr(textStyle.values))
  {
    Store(c, "titleTextStyle", Arr(textStyle.values))
  }

  /** `width($width)`: integers only. */
  function Width(c: Chart, width: Value): (r: Chart)
    requires Valid(c)
    ensures width.Int? ==> Assigned(c, r, "width", width)
    ensures !width.Int? ==> Logged(c, r, Some(c.chartType), InvalidOption("width"))
  {
    if width.Int? then Store(c, "width", width)
    else Complain(c, InvalidOption("width"))
  }

  /** Calling a scalar setter twice with the same argument leaves the options
      as calling it once; a rejected argument leaves them untouched both times. */
  lemma NumericSettersIdempotent(c: Chart, v: Value)
    requires Valid(c)
    ensures AreaOpacity(AreaOpacity(c, v), v).options == AreaOpacity(c, v).options
    ensures Height(Height(c, v), v).options == Height(c, v).options
    ensures LineWidth(LineWidth(c, v), v).options == LineWidth(c, v).options
    ensures PointSize(PointSize(c, v), v).options == PointSize(c, v).options
    ensures Width(Width(c, v), v).options == Width(c, v).options
  {
    StoreIdempotent(c, "areaOpacity", v);
    StoreIdempotent(c, "height", v);
    StoreIdempotent(c, "lineWidth", v);
    StoreIdempotent(c, "pointSize", v);
    StoreIdempotent(c, "width", v);
  }

  lemma BooleanSettersIdempotent(c: Chart, v: Value)
    requires Valid(c)
    ensures IsHtml(IsHtml(c, v), v).options == IsHtml(c, v).options
    ensures IsStacked(IsStacked(c, v), v).options == IsStacked(c, v).options
    ensures InterpolateNulls(InterpolateNulls(c, v), v).options == InterpolateNulls(c, v).options
  {
    StoreIdempotent(c, "isHTML", v);
    StoreIdempotent(c, "isStacked", v);
    StoreIdempotent(c, "interpolateNulls", v);
  }

  lemma EnumSettersIdempotent(c: Chart, v: Value)
    requires Valid(c)
    ensures AxisTitlesPosition(AxisTitlesPosition(c, v), v).options == AxisTitlesPosition(c, v).options
    ensures CurveType(CurveType(c, v), v).options == CurveType(c, v).options
    ensures TitlePosition(TitlePosition(c, v), v).options == TitlePosition(c, v).options
  {
    StoreIdempotent(c, "axisTitlesPosition", v);
    if v.Str? || v == Bool(true) || v == Int(0) || v == Float(0.0) {
      StoreIdempotent(c, "curveType", Str(CastToString(v)));
    }
    StoreIdempotent(c, "titlePosition", v);
  }

  lemma ValueSettersIdempotent(c: Chart, v: Value)
    requires Valid(c)
    ensures Colors(Colors(c, v), v).options == Colors(c, v).options
    ensures Title(Title(c, v), v).options == Title(c, v).options
    ensures v.Obj? && v.cls == TextStyleClass ==>
              TitleTextStyle(TitleTextStyle(c, v), v).options == TitleTextStyle(c, v).options
  {
    StoreIdempotent(c, "colors", v);
    StoreIdempotent(c, "title", v);
    if v.Obj? {
      StoreIdempotent(c, "titleTextStyle", Arr(v.values));
    }
  }

  /** The object setters merge their `toArray()` view; when that view is
      string-keyed, as a configuration object's is, a second call with the
      same object leaves the options as the first. */
  lemma ObjectSettersIdempotent(c: Chart, v: Value)
    requires Valid(c) && v.Obj? && StringKeyed(v.toArray) && DistinctKeys(v.toArray)
    ensures v.cls == ChartAreaClass ==> ChartArea(ChartArea(c, v), v).options == ChartArea(c, v).options
    ensures v.cls == HAxisClass ==> HAxis(HAxis(c, v), v).options == HAxis(c, v).options
    ensures v.cls == LegendClass ==> Legend(Legend(c, v), v).options == Legend(c, v).options
    ensures v.cls == TooltipClass ==> Tooltip(Tooltip(c, v), v).options == Tooltip(c, v).options
  {
    AddOptionIdempotent(c, v);
  }

  lemma StoreIdempotent(c: Chart, key: string, v: Value)
    requires Valid(c)
    ensures Store(Store(c, key, v), key, v).options == Store(c, key, v).options
  {
    AddOptionIdempotent(c, Arr([Entry(StrKey(key), v)]));
  }

  // -------------------------------------------------------------- initialize

  /** The class a type hint demands of the argument of the setter `name`. */
  function HintedClass(name: string): Option<ClassName>
  {
    match name
    case "chartArea" => Some(ChartAreaClass)
    case "legend" => Some(LegendClass)
    case "tooltip" => Some(TooltipClass)
    case "titleTextStyle" => Some(TextStyleClass)
    case _ => None
  }

  /** An entry handed to a type-hinted setter satisfies the hint. */
  predicate HintOk(e: Entry)
  {
    e.key.StrKey? && HintedClass(e.key.s).Some? ==>
      e.val.Obj? && e.val.cls == HintedClass(e.key.s).value
  }

  predicate HintsRespected(es: seq<Entry>)
  {
    forall e | e in es :: HintOk(e)
  }

  /** `in_array($option, $defaultOptions)` for a key of the config array. */
  predicate Listed(k: Key)
  {
    LooselyIn(KeyValue(k), DefaultOptions)
  }

  /** A key is listed exactly when it is one of the names, or the integer 0,
      which loosely equals every name. */
  lemma ListedKeys(k: Key)
    ensures Listed(k) <==> k == IntKey(0) || (k.StrKey? && k.s in DefaultOptions)
  {
    LooselyInCharacterised(KeyValue(k), DefaultOptions);
  }

  /** `$this->$option($value)` when the method exists, `addOption($value)`
      otherwise. */
  function Dispatch(c: Chart, name: string, v: Value): (r: Chart)
    requires Valid(c) && HintOk(Entry(StrKey(name), v))
    ensures Valid(r) && Extends(c, r)
  {
    if name in MethodNames then CallMethod(c, name, v) else AddOption(c, v)
  }

  /** `$this->$name($v)` for the methods `initialize` can reach. */
  function CallMethod(c: Chart, name: string, v: Value): (r: Chart)
    requires Valid(c) && name in MethodNames && HintOk(Entry(StrKey(name), v))
    ensures Valid(r) && Extends(c, r)
  {
    match name
    case "areaOpacity" => AreaOpacity(c, v)
    case "chartArea" => ChartArea(c, v)
    case "colors" => Colors(c, v)
    case "curveType" => CurveType(c, v)
    case "enableInteractivity" => Unimplemented(c, v)
    case "events" => Events(c, v)
    case "focusTarget" => Unimplemented(c, v)
    case "fontSize" => Unimplemented(c, v)
    case "fontName" => Unimplemented(c, v)
    case "hAxis" => HAxis(c, v)
    case "isHtml" => IsHtml(c, v)
    case "interpolateNulls" => InterpolateNulls(c, v)
    case "legend" => Legend(c, v)
    case "lineWidth" => LineWidth(c, v)
    case "pointSize" => PointSize(c, v)
    case "series" => Unimplemented(c, v)
    case "title" => Title(c, v)
    case "titlePosition" => TitlePosition(c, v)
    case "titleTextStyle" => TitleTextStyle(c, v)
    case "tooltip" => Tooltip(c, v)
    case _ => assert false; c
  }

  /** One iteration of the `initialize` loop. An integer key can only be
      listed as 0, and no method is named "0", so it goes to `addOption`. */
  function Offer(c: Chart, e: Entry): (r: Chart)
    requires Valid(c) && HintOk(e)
    ensures Valid(r) && Extends(c, r)
  {
    ListedKeys(e.key);
    if !Listed(e.key) then c
    else match e.key
      case IntKey(_) => AddOption(c, e.val)
      case StrKey(name) => Dispatch(c, name, e.val)
  }

  /** The `initialize` loop over the entries of the config array, in order. */
  function InitializeEntries(c: Chart, es: seq<Entry>): (r: Chart)
    requires Valid(c) && HintsRespected(es)
    ensures Valid(r) && Extends(c, r)
    decreases |es|
  {
    if |es| == 0 then c
    else
      var init := es[..|es| - 1];
      assert HintsRespected(init) by {
        forall e | e in init ensures HintOk(e) {
          assert e in es;
        }
      }
      assert es[|es| - 1] in es;
      Offer(InitializeEntries(c, init), es[|es| - 1])
  }

  /** `initialize($options)`: a non-empty array is offered entry by entry;
      anything else files one error and changes nothing more. */
  function Initialize(c: Chart, options: Value): (r: Chart)
    requires Valid(c)
    requires options.Arr? ==> HintsRespected(options.entries)
    ensures Valid(r)
    ensures options.Arr? && |options.entries| > 0 ==> Extends(c, r)
    ensures !(options.Arr? && |options.entries| > 0) ==>
              Logged(c, r, Some(c.chartType), InvalidConfig)
  {
    if options.Arr? && |options.entries| > 0 then InitializeEntries(c, options.entries)
    else Complain(c, InvalidConfig)
  }

  /** The loop takes the entries in order: running it over `a + b` is running
      it over `a` and then over `b` from where `a` left the chart. With
      `InitializeOneEntry`, `initialize` is the listed entries' setters called
      one after another, so the last entry to set a key wins. */
  lemma {:induction false} InitializeConcat(c: Chart, a: seq<Entry>, b: seq<Entry>)
    requires Valid(c) && HintsRespected(a) && HintsRespected(b)
    ensures HintsRespected(a + b)
    ensures InitializeEntries(c, a + b) == InitializeEntries(InitializeEntries(c, a), b)
    decreases |b|
  {
    assert HintsRespected(a + b) by {
      forall e | e in a + b ensures HintOk(e) {
        assert e in a || e in b;
      }
    }
    if |b| == 0 {
      assert a + b == a;
    } else {
      var init := b[..|b| - 1];
      assert HintsRespected(init) by {
        forall e | e in init ensures HintOk(e) {
          assert e in b;
        }
      }
      InitializeConcat(c, a, init);
      assert (a + b)[..|a + b| - 1] == a + init;
      assert (a + b)[|a + b| - 1] == b[|b| - 1];
    }
  }

  /** The entries of `es` whose keys are listed, in order. */
  function ListedOnly(es: seq<Entry>): (r: seq<Entry>)
    ensures forall e | e in r :: e in es
    decreases |es|
  {
    if |es| == 0 then []
    else if Listed(es[|es| - 1].key) then ListedOnly(es[..|es| - 1]) + [es[|es| - 1]]
    else ListedOnly(es[..|es| - 1])
  }

  /** Keys outside the list are ignored: `initialize` acts on a config array
      exactly as on its listed entries alone. */
  lemma {:induction false} InitializeIgnoresUnlisted(c: Chart, es: seq<Entry>)
    requires Valid(c) && HintsRespected(es)
    ensures HintsRespected(ListedOnly(es))
    ensures InitializeEntries(c, es) == InitializeEntries(c, ListedOnly(es))
    decreases |es|
  {
    if |es| > 0 {
      var init := es[..|es| - 1];
      var e := es[|es| - 1];
      assert HintsRespected(init) by {
        forall x | x in init ensures HintOk(x) {
          assert x in es;
        }
      }
      InitializeIgnoresUnlisted(c, init);
      if Listed(e.key) {
        assert ListedOnly(es)[..|ListedOnly(es)| - 1] == ListedOnly(init);
      }
    }
  }

  /** The listed keys without a method of their own: reverseCategories is
      among them, since the method is spelt reverseCatagories. */
  lemma KeysWithoutMethod()
    ensures (set name | name in DefaultOptions && name !in MethodNames) ==
              {"backgroundColor", "reverseCategories", "theme", "vAxes", "vAxis"}
  {
  }

  /** Every method `initialize` can reach is one of the listed names. */
  lemma MethodsAreListed()
    ensures forall name | name in MethodNames :: name in DefaultOptions
  {
  }

  /** A configuration array of one entry does what its key selects: the
      setter of that name, `addOption` for a listed name without a setter or
      for the key 0, and nothing for any other key. */
  lemma InitializeOneEntry(c: Chart, k: Key, v: Value)
    requires Valid(c) && HintOk(Entry(k, v))
    ensures HintsRespected([Entry(k, v)])
    ensures k.StrKey? && k.s in MethodNames ==>
              Initialize(c, Arr([Entry(k, v)])) == CallMethod(c, k.s, v)
    ensures k == IntKey(0) || (k.StrKey? && k.s in DefaultOptions && k.s !in MethodNames) ==>
              Initialize(c, Arr([Entry(k, v)])) == AddOption(c, v)
    ensures k != IntKey(0) && !(k.StrKey? && k.s in DefaultOptions) ==>
              Initialize(c, Arr([Entry(k, v)])) == c
  {
    var es := [Entry(k, v)];
    assert HintsRespected(es) by {
      forall e | e in es ensures HintOk(e) {
        assert e == es[0];
      }
    }
    assert es[..0] == [];
    assert InitializeEntries(c, es) == Offer(InitializeEntries(c, []), es[0]);
    ListedKeys(k);
    MethodsAreListed();
  }

  /** Those keys fall back to `addOption`, which ignores anything but arrays
      and objects. */
  lemma UnmatchedKeysFallBack(c: Chart, name: string, v: Value)
    requires Valid(c) && name !in MethodNames
    ensures Dispatch(c, name, v) == AddOption(c, v)
    ensures !v.Arr? && !v.Obj? ==> Dispatch(c, name, v) == c
  {
  }

  /** Listed keys whose methods are the empty stubs enableInteractivity,
      focusTarget, fontSize and fontName change nothing. */
  lemma StubKeysChangeNothing(c: Chart, name: string, v: Value)
    requires Valid(c)
    requires name in {"enableInteractivity", "focusTarget", "fontSize", "fontName"}
    ensures Dispatch(c, name, v) == c
  {
  }

  /** The listed key series reaches the empty stub `series` and changes
      nothing. */
  lemma SeriesKeyChangesNothing(c: Chart, v: Value)
    requires Valid(c)
    ensures Dispatch(c, "series", v) == c
  {
  }

  // -------------------------------------------------------------- outputInto

  /** The state changes of `outputInto($elementID)` before the script block is
      built: an unset binding defaults to the chart's own label, and a
      non-empty string becomes the target element. */
  function OutputInto(c: Chart, elementId: Value): (r: Chart)
    ensures c.binding == Null ==> r.binding == c.chartLabel
    ensures c.binding != Null ==> r.binding == c.binding
    ensures elementId.Str? && elementId.s != "" ==> r.elementId == elementId
    ensures !(elementId.Str? && elementId.s != "") ==> r.elementId == c.elementId
    ensures r == c.(binding := r.binding, elementId := r.elementId)
  {
    var bound := if c.binding == Null then c.chartLabel else c.binding;
    var target := if elementId.Str? && elementId.s != "" then elementId else c.elementId;
    c.(binding := bound, elementId := target)
  }

  /** A chart that was never bound to data looks for the table named by its
      own label, whatever `initialize` was given. */
  lemma UnboundChartUsesOwnLabel(t: ChartType, chartLabel: Value, options: Value, elementId: Value)
    requires options.Arr? ==> HintsRespected(options.entries)
    ensures OutputInto(Initialize(NewChart(t, chartLabel), options), elementId).binding == chartLabel
  {
  }

  /** A binding set by `dataTable` survives `outputInto`. */
  lemma ExplicitBindingSurvivesOutput(c: Chart, data: Value, elementId: Value)
    requires (data.Str? && data.s != "") || (data.Obj? && data.cls == DataTableClass)
    ensures OutputInto(DataTable(c, data), elementId).binding ==
              (if data.Str? then data else Str("local"))
  {
  }
}
