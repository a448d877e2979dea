# Codeigniter-gCharts chart option accumulator, in Dafny

This project models the state-keeping core of the gCharts chart builders.
An `AreaChart` object keeps:

- a label;
- an options map;
- a list of registered events;
- a data binding;
- a target element.

Each setter checks its argument. An accepted argument is merged into the
options with PHP's `array_merge`. A rejected argument files one error with
the global Gcharts error registry. `initialize` filters a configuration array
through a fixed list of option names and hands each listed entry to the
method of that name, or to `addOption` when there is none. `outputInto`
defaults the data binding to the chart's label before rendering. `PieChart`
extends the inherited list of permitted names with `is3D` and
`reverseCategories`, and adds two boolean setters of its own.

The model is functional. A chart is an immutable record (`AreaChart.Chart`),
and every method is a pure function from the old record to the new one. The
error registry is the record's own `log` field. Three modules hold the
model:

- `PhpValues`: the dynamic PHP values a setter can receive, and PHP 5/7 loose
  `==`, which is what `in_array` uses without its strict flag.
- `PhpArrays`: PHP arrays as ordered key/value sequences. `array_merge` is
  modelled exactly: a string key of the second array overwrites in place,
  and integer keys are renumbered and appended.
- `AreaChart` and `PieChart`: the two chart classes.

Where the code and its documented intent differ, the model follows the code:

- The enum setters (`curveType`, `axisTitlesPosition`, `titlePosition`) and
  `events` look their argument up with loose `in_array`. `true`, `0` and
  `0.0` loosely equal every vocabulary word, so these setters accept them as
  well as the listed words. `curveType` then stores `(string) $curveType`,
  which is "1" or "0".
- By the same comparison, the integer key `0` of a configuration array
  counts as a listed option name. No method is named `0`, so its value goes
  to `addOption`.
- The option name `reverseCategories` is listed, but the method is spelt
  `reverseCatagories`, so `initialize` hands that key to `addOption`.
- `interpolateNulls` files its error under the undefined variable `$where`,
  that is, under no chart class.
- `titlePosition` reports its error as an invalid `axisTitlesPosition`.
- `PieChart::reverseCategories` returns nothing, so it cannot be chained.

## Model

| member | source | states |
|---|---|---|
| PhpValues.LooselyInCharacterised | libraries/gcharts/charts/AreaChart.php:283-285 | loose `in_array` against a non-empty list of words holds exactly for the listed strings, `true`, `0` and `0.0` |
| PhpArrays.ArrayMerge | libraries/gcharts/charts/AreaChart.php:119-132 | the result is a normalised array; its list part is the first array's list followed by the second's; each string key takes the second array's value if it has one and the first's otherwise |
| PhpArrays.MergeStringKeyed | libraries/gcharts/charts/AreaChart.php:126-129 | merging a string-keyed array into a normalised one overrides exactly the keys it holds; every other key, integer keys included, is unchanged |
| PhpArrays.MergeIdempotent | libraries/gcharts/charts/AreaChart.php:126-129 | merging the same string-keyed array twice gives the same array as merging it once |
| PhpArrays.MergeAppendsList | libraries/gcharts/charts/PieChart.php:29-32 | merging a list into a normalised array keeps the array as it was and appends the list's values under the next free integer keys |
| PhpArrays.ListOfList | libraries/gcharts/charts/PieChart.php:29-32 | the values of a PHP list literal, read back in key order, are the literal's values |
| AreaChart.NewChart | libraries/gcharts/charts/AreaChart.php:22-36 | a new chart has the given class and label, an empty options map, no events and no errors, and no binding, data or element |
| AreaChart.Complain | libraries/gcharts/charts/AreaChart.php:105-108 | an error files exactly one complaint under the chart's own class and changes nothing else |
| AreaChart.AddOption | libraries/gcharts/charts/AreaChart.php:119-132 | an array or an object's `toArray()` view is merged into the options, last write wins; any other value leaves the chart unchanged |
| AreaChart.AddOptionOverrides | libraries/gcharts/charts/AreaChart.php:119-132 | for a string-keyed array, every key it holds takes its value and every other key keeps its old value |
| AreaChart.AddOptionIdempotent | libraries/gcharts/charts/AreaChart.php:119-132 | adding the same string-keyed array or object twice leaves the options as adding it once |
| AreaChart.Store | libraries/gcharts/charts/AreaChart.php:126-129 | adding a one-entry array sets that key, leaves every other option and field alone, and keeps the map normalised |
| AreaChart.StoreIdempotent | libraries/gcharts/charts/AreaChart.php:126-129 | setting the same key to the same value twice leaves the options as setting it once |
| AreaChart.DataTable | libraries/gcharts/charts/AreaChart.php:148-164 | a DataTable object is stored and bound as "local"; a non-empty string becomes the binding; anything else, the empty string included, files one error and changes nothing else |
| AreaChart.RegisterEvents | libraries/gcharts/charts/AreaChart.php:185-195 | the known event values are appended in input order with duplicates kept; each other value files one error under the chart's class; options, binding and every other field are untouched |
| AreaChart.Events | libraries/gcharts/charts/AreaChart.php:174-201 | an array registers its known events and files one InvalidEventName error under the chart's class per unknown value, keeping the errors filed before and leaving the options as they were; a non-array files exactly one error |
| AreaChart.EventsPartition | libraries/gcharts/charts/AreaChart.php:187-196 | every value of an events array is either registered or reported, never both and never neither |
| AreaChart.AreaOpacity | libraries/gcharts/charts/AreaChart.php:259-269 | accepted exactly for a float strictly between 0.0 and 1.0, which is then stored under areaOpacity; otherwise one error and the options are unchanged |
| AreaChart.AxisTitlesPosition | libraries/gcharts/charts/AreaChart.php:281-293 | in, out, none (and `true`, `0`, `0.0`) are stored under axisTitlesPosition; any other value files one error and leaves the options unchanged |
| AreaChart.ChartArea | libraries/gcharts/charts/AreaChart.php:304-314 | a chartArea object's `toArray()` view is merged into the options at the top level |
| AreaChart.Colors | libraries/gcharts/charts/AreaChart.php:323-333 | an array is stored under colors as it is; anything else files one error |
| AreaChart.CurveType | libraries/gcharts/charts/AreaChart.php:344-356 | none and function are stored as given, `true` as "1", `0` and `0.0` as "0"; any other value files one error and leaves the options unchanged |
| AreaChart.HAxis | libraries/gcharts/charts/AreaChart.php:394-404 | an hAxis object's `toArray()` view is merged at the top level; any other value files one error |
| AreaChart.Height | libraries/gcharts/charts/AreaChart.php:412-422 | integers only are stored under height; anything else files one error and leaves the options unchanged |
| AreaChart.IsHtml | libraries/gcharts/charts/AreaChart.php:430-440 | booleans only, stored under the key isHTML; anything else files one error |
| AreaChart.IsStacked | libraries/gcharts/charts/AreaChart.php:448-458 | booleans only are stored under isStacked; anything else files one error |
| AreaChart.InterpolateNulls | libraries/gcharts/charts/AreaChart.php:468-478 | booleans only are stored under interpolateNulls; anything else files one error under no chart class |
| AreaChart.Legend | libraries/gcharts/charts/AreaChart.php:488-498 | a legend object's `toArray()` view is merged into the options at the top level |
| AreaChart.LineWidth | libraries/gcharts/charts/AreaChart.php:508-518 | integers only are stored under lineWidth; anything else files one error |
| AreaChart.PointSize | libraries/gcharts/charts/AreaChart.php:527-537 | integers only are stored under pointSize; anything else files one error |
| AreaChart.Title | libraries/gcharts/charts/AreaChart.php:566-576 | strings only are stored under title; anything else files one error |
| AreaChart.Tooltip | libraries/gcharts/charts/AreaChart.php:586-596 | a tooltip object's `toArray()` view is merged into the options at the top level |
| AreaChart.TitlePosition | libraries/gcharts/charts/AreaChart.php:607-623 | in, out, none (and `true`, `0`, `0.0`) are stored under titlePosition; any other value files one error that names axisTitlesPosition |
| AreaChart.TitleTextStyle | libraries/gcharts/charts/AreaChart.php:632-642 | a textStyle object's `values()` array is nested under the key titleTextStyle |
| AreaChart.Width | libraries/gcharts/charts/AreaChart.php:650-660 | integers only are stored under width; anything else files one error |
| AreaChart.NumericSettersIdempotent | libraries/gcharts/charts/AreaChart.php:259-269 | calling areaOpacity (lines 259-269), height (412-422), lineWidth (508-518), pointSize (527-537) or width (650-660) twice with the same value leaves the options as calling it once |
| AreaChart.BooleanSettersIdempotent | libraries/gcharts/charts/AreaChart.php:430-478 | the same holds for isHtml (lines 430-440), isStacked (448-458) and interpolateNulls (468-478) |
| AreaChart.EnumSettersIdempotent | libraries/gcharts/charts/AreaChart.php:344-356 | the same holds for axisTitlesPosition (lines 281-293), curveType (344-356) and titlePosition (607-623) |
| AreaChart.ValueSettersIdempotent | libraries/gcharts/charts/AreaChart.php:566-576 | the same holds for colors (lines 323-333), title (566-576) and titleTextStyle (632-642) |
| AreaChart.ObjectSettersIdempotent | libraries/gcharts/charts/AreaChart.php:394-404 | the same holds for chartArea (lines 304-314), hAxis (394-404), legend (488-498) and tooltip (586-596) when the object's `toArray()` view is string-keyed |
| AreaChart.ListedKeys | libraries/gcharts/charts/AreaChart.php:50-83 | a configuration key passes the `in_array` filter exactly when it is one of the 25 names or the integer 0 |
| AreaChart.CallMethod | libraries/gcharts/charts/AreaChart.php:85-87 | calling any method `initialize` can reach keeps the options normalised, touches neither class, label, binding, data nor element, and only appends to the errors and events |
| AreaChart.Dispatch | libraries/gcharts/charts/AreaChart.php:85-90 | the same holds for a listed name, whether it reaches its method or `addOption` |
| AreaChart.Offer | libraries/gcharts/charts/AreaChart.php:83-91 | the same holds for one entry of the configuration array, listed or not |
| AreaChart.InitializeEntries | libraries/gcharts/charts/AreaChart.php:81-92 | the same holds for the whole loop over the configuration array |
| AreaChart.Initialize | libraries/gcharts/charts/AreaChart.php:48-98 | a non-empty array is processed entry by entry under the guarantees above; a non-array or an empty array files exactly one error and changes nothing else |
| AreaChart.InitializeConcat | libraries/gcharts/charts/AreaChart.php:81-92 | the loop handles the entries in order: a configuration array `a + b` gives the chart that handling `a` and then `b` gives, so with `InitializeOneEntry` it calls each listed entry's setter in turn and the last entry to set a key wins |
| AreaChart.InitializeIgnoresUnlisted | libraries/gcharts/charts/AreaChart.php:81-83 | `initialize` gives the same chart on a configuration array as on its listed entries alone |
| AreaChart.KeysWithoutMethod | libraries/gcharts/charts/AreaChart.php:50-76 | exactly backgroundColor, reverseCategories, theme, vAxes and vAxis are listed without a method of their own |
| AreaChart.MethodsAreListed | libraries/gcharts/charts/AreaChart.php:50-76 | every method `initialize` can reach by name is one of the 25 listed names |
| AreaChart.InitializeOneEntry | libraries/gcharts/charts/AreaChart.php:81-91 | a one-entry configuration array calls the setter its key names; a listed name without a setter, or the key 0, goes to `addOption`; any other key leaves the chart as it was |
| AreaChart.UnmatchedKeysFallBack | libraries/gcharts/charts/AreaChart.php:85-90 | a name without a method goes to `addOption`, which ignores anything but arrays and objects |
| AreaChart.StubKeysChangeNothing | libraries/gcharts/charts/AreaChart.php:358-384 | the listed keys enableInteractivity, focusTarget, fontSize and fontName reach empty stubs and change nothing |
| AreaChart.SeriesKeyChangesNothing | libraries/gcharts/charts/AreaChart.php:546-551 | the listed key series reaches the empty stub `series` and changes nothing |
| AreaChart.Unimplemented | libraries/gcharts/charts/AreaChart.php:539-551 | the stub setters (reverseCatagories and series here, and the four at lines 358-384) leave the chart exactly as it was |
| AreaChart.OutputInto | libraries/gcharts/charts/AreaChart.php:673-686 | an unset binding becomes the chart's label and a set one is kept; the element changes only for a non-empty string; nothing else changes |
| AreaChart.UnboundChartUsesOwnLabel | libraries/gcharts/charts/AreaChart.php:675-678 | a new chart that `initialize` configured but never bound looks for the table named by its own label |
| AreaChart.ExplicitBindingSurvivesOutput | libraries/gcharts/charts/AreaChart.php:148-158 | a binding set by `dataTable` survives `outputInto` |
| PieChart.NewPieChart | libraries/gcharts/charts/PieChart.php:25-33 | the inherited names keep their places, is3D and reverseCategories follow them under the next integer keys, and string-keyed entries are unchanged |
| PieChart.Is3D | libraries/gcharts/charts/PieChart.php:55-65 | a boolean is stored under is3D and nothing else changes; anything else files one error and leaves the options unchanged; the object itself is returned |
| PieChart.ReverseCategories | libraries/gcharts/charts/PieChart.php:67-75 | a boolean is stored under reverseCategories; anything else files one error and leaves the options unchanged; nothing is returned |
| PieChart.PieSettersIdempotent | libraries/gcharts/charts/PieChart.php:55-75 | calling is3D or reverseCategories twice with the same value leaves the options as calling it once |

## Left out

- Rendering: `outputInto` hands the chart to `Gcharts::_build_script_block`, which is not part of this model. Only the state changes before that call are modelled.
- The Gcharts error registry and its message text: an error is the complaint it reports and the class it is filed under, appended to the chart's `log`.
- The configuration objects and `DataTable`: their classes are not part of this model. An object is its class and the two arrays its `toArray()` and `values()` methods return; `addOption` merges the first and `titleTextStyle` nests the second. Subclasses and `is_a` on strings are not modelled.
- AreaChart.AddOption: assumes every object has a `toArray()` method. An object without one (a DataTable, say, or any other class handed to `initialize` under backgroundColor, theme, vAxes or vAxis) makes PHP stop with a fatal error; the model merges its `toArray` view instead.
- The parent class `Chart` of `PieChart` is not part of this model. It is taken to keep the same chart state and the same `addOption` and error behaviour as `AreaChart`. Its list of permitted names is a parameter of `PieChart.NewPieChart`.
- The commented-out animation and theme setters: they are not compiled.
- AreaChart.ChartArea: requires an object of the chartArea class, because the type hint makes PHP stop with a fatal error on anything else; that error, and the error branch it makes unreachable, are not modelled.
- AreaChart.Legend: requires an object of the legend class, because the type hint makes PHP stop with a fatal error on anything else; that error, and the error branch it makes unreachable, are not modelled.
- AreaChart.Tooltip: requires an object of the tooltip class, because the type hint makes PHP stop with a fatal error on anything else; that error, and the error branch it makes unreachable, are not modelled.
- AreaChart.TitleTextStyle: requires an object of the textStyle class, because the type hint makes PHP stop with a fatal error on anything else; that error, and the error branch it makes unreachable, are not modelled.
- AreaChart.Initialize: requires that configuration entries for those four setters hold objects of the hinted class, for the same reason.
- PHP 8's changed comparison of numbers with non-numeric strings: the model uses PHP 5/7 loose `==`, under which `0` equals every word.
- Floats are reals: NaN and the infinities are not modelled.
- Default argument values (`initialize(array())`, `curveType('none')`, `lineWidth(2)`, `pointSize(0)`, `title('')`, `outputInto('')`): every call passes its argument explicitly.
- An events list that is still NULL is modelled as an empty list.
- Writes to the chart's public fields from outside its methods (`$chart->options = …` and the like): every contract assumes the options map is one that `array_merge` could have produced, as it always is when only the methods write it.
- AreaChart.InterpolateNulls: reading the undefined `$where` also raises a PHP notice; only the error it files is modelled.
- String keys that spell a decimal integer: PHP stores `'0'` or `'12'` as the integer key 0 or 12, but `StrKey("0")` can still be written. A configuration array is assumed to follow PHP's convention (such keys as `IntKey`); under `StrKey` such a key is treated as an unlisted string.
- Objects with `__toString`, which loose `in_array` would compare as strings, are not modelled.
- The CodeIgniter `BASEPATH` guard at the top of each file.
