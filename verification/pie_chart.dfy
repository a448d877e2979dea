/**
 The PieChart builder: the chart state of its parent class, the list of
 option names it permits, and the two setters it adds, is3D and
 reverseCategories.
 */
module PieChart {
  import opened PhpValues
  import opened PhpArrays
  import opened AreaChart

  /** What a setter call hands back: the object itself, ready for chaining,
      or nothing (null). */
  datatype Returned = This | Nothing

  /** A PieChart object: the state its parent class keeps and the parent's
      list of permitted option names, `$this->defaults`. */
  datatype Pie = Pie(chart: Chart, defaults: seq<Entry>)

  /** The object after a setter call, and what the call returned. */
  datatype Call = Call(after: Pie, returned: Returned)

  const PieOptionNames: seq<Value> := [Str("is3D"), Str("reverseCategories")]

  /** `new PieChart($chartLabel)`: the parent constructor, whose list of
      permitted names is `inherited`, then is3D and reverseCategories merged
      onto that list. */
  function NewPieChart(chartLabel: Value, inherited: seq<Entry>): (p: Pie)
    ensures Valid(p.chart) && p.chart.chartType == PieChartType
    ensures p.chart.chartLabel == chartLabel && p.chart.binding == Null
    ensures ListPart(p.defaults) == ListPart(inherited) + PieOptionNames
    ensures forall s: string :: Get(p.defaults, StrKey(s)) == Get(inherited, StrKey(s))
    ensures Normalized(inherited) ==>
              p.defaults == inherited + Shifted(|ListPart(inherited)|, PieOptionNames)
  {
    ListOfList(PieOptionNames);
    ListHasNoStringKeys(PieOptionNames);
    assert Normalized(inherited) ==>
             ArrayMerge(inherited, List(PieOptionNames)) ==
             inherited + Shifted(|ListPart(inherited)|, PieOptionNames) by {
      if Normalized(inherited) {
        MergeAppendsList(inherited, PieOptionNames);
      }
    }
    Pie(NewChart(PieChartType, chartLabel), ArrayMerge(inherited, List(PieOptionNames)))
  }

  /** `is3D($is3D)`: booleans only; returns the object. */
  function Is3D(p: Pie, is3D: Value): (r: Call)
    requires Valid(p.chart)
    ensures r.returned == This && r.after.defaults == p.defaults
    ensures is3D.Bool? ==> Assigned(p.chart, r.after.chart, "is3D", is3D)
    ensures !is3D.Bool? ==>
              Logged(p.chart, r.after.chart, Some(p.chart.chartType), InvalidOption("is3D"))
  {
    if is3D.Bool? then Call(p.(chart := Store(p.chart, "is3D", is3D)), This)
    else Call(p.(chart := Complain(p.chart, InvalidOption("is3D"))), This)
  }

  /** `reverseCategories($reverseCategories)`: booleans only; it has no
      return statement, so it returns null and cannot be chained. */
  function ReverseCategories(p: Pie, reverseCategories: Value): (r: Call)
    requires Valid(p.chart)
    ensures r.returned == Nothing && r.after.defaults == p.defaults
    ensures reverseCategories.Bool? ==>
              Assigned(p.chart, r.after.chart, "reverseCategories", reverseCategories)
    ensures !reverseCategories.Bool? ==>
              Logged(p.chart, r.after.chart, Some(p.chart.chartType), InvalidOption("reverseCategories"))
  {
    if reverseCategories.Bool? then
      Call(p.(chart := Store(p.chart, "reverseCategories", reverseCategories)), Nothing)
    else
      Call(p.(chart := Complain(p.chart, InvalidOption("reverseCategories"))), Nothing)
  }

  /** Calling either setter twice with the same argument leaves the options
      as calling it once. */
  lemma PieSettersIdempotent(p: Pie, v: Value)
    requires Valid(p.chart)
    ensures Is3D(Is3D(p, v).after, v).after.chart.options == Is3D(p, v).after.chart.options
    ensures ReverseCategories(ReverseCategories(p, v).after, v).after.chart.options ==
              ReverseCategories(p, v).after.chart.options
  {
    StoreIdempotent(p.chart, "is3D", v);
    StoreIdempotent(p.chart, "reverseCategories", v);
  }

  /** A list holds no string keys. */
  lemma ListHasNoStringKeys(vs: seq<Value>)
    ensures forall s: string :: Get(List(vs), StrKey(s)) == None
  {
    ShiftedIntKeyed(0, vs);
  }

  lemma {:induction false} ShiftedIntKeyed(n: int, vs: seq<Value>)
    ensures forall i | 0 <= i < |Shifted(n, vs)| :: Shifted(n, vs)[i].key.IntKey?
    decreases |vs|
  {
    if |vs| > 0 {
      ShiftedIntKeyed(n, vs[..|vs| - 1]);
    }
  }
}
