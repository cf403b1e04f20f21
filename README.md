# Scatter-plot chart: data preparation, modelled in Dafny

The chart plots cyclists' race times against the year of the race. Each
point is coloured by whether the rider faced doping allegations. Around the
drawing code, the `ScatterPlotChart` class has a small data-preparation
layer, and this project models that layer:

- **Race times.** `getTimeInSeconds` reads a `"M:SS"` text as
  `minutes * 60 + seconds`. JavaScript's `Number` is modelled only on digit
  strings (`Decimal.Value`). `Chart.ParseTime` models splitting the text at
  the first `':'`.
- **Largest time.** `getMaxTime` keeps a running maximum. It starts at the
  sentinel `"0:0"` and moves to a new time only when that time's total is
  strictly larger. `Chart.IsMaxTimeOf` describes the result in full: every
  total is at most the result's; the sentinel comes back when the largest
  total is 0; otherwise the result is the first element with the largest
  total. `Chart.MaxTimeOfUnique` proves that this description fits exactly
  one string. Nothing else in the class calls `getMaxTime`;
  `Chart.MaxTimeIsYDomainTop` relates it to the y domain.
- **Dataset normalisation.** `updateDataset` replaces each row's `Time` text
  with a date. The model stores that date as its offset in seconds from
  1970-01-01 00:00 (`Types.TimeField.Moment`). The fetched rows are
  `Types.DatasetItem` values.
- **Axis domains.** The x domain runs from one year before the earliest year
  to the latest year. The y domain is the extent of the normalised times.
- **Colour, legend and margin.** A row with a non-empty doping note is drawn
  `steelblue` (the "allegations" legend entry). A row with an empty note is
  drawn `orange`. The constructor gives all four margin sides the value
  `spacing`.

`getMaxTime` and `updateDataset` are loops in the source, so the model has
them as methods with loop invariants. The chart object is a class: its
constructor and its data methods say exactly what they change. Parsing, the
domains and the colour rule are pure in the source, so they are functions
here, and lemmas state their properties.

Field names follow Dafny style (`DatasetItem.time` stands for `Time`). The
legend's `label` is called `caption`, because `label` is a Dafny keyword.

Three consequences of the code are worth stating:

- Distinct time texts can share a total: `"1:05"` and `"0:65"` are both 65
  (`Chart.TotalSecondsCollide`). With seconds below 60, totals are distinct
  for the dataset's own `"M:SS"` spelling, with two-digit seconds
  (`Chart.RaceTimeInjective`). They are also distinct for the unpadded
  spelling (`Chart.TotalSecondsInjective`).
- A list whose every total is 0 gives `"0:0"`, not one of its elements
  (`Chart.MaxTimeOfAllZero`).
- `updateDataset` rewrites `this.dataset` in place, and so does
  `Chart.ScatterPlotChart.UpdateDataset`.

## Model

| member | source | states |
|---|---|---|
| `Chart.ParseTime` | src/chart.ts:265 | Splitting at the first `':'` and reading both pieces as numbers; its contract is carried by `ParseJoin` and `TimeTextIff` |
| `Chart.GetTimeInSeconds` | src/chart.ts:264-267 | `minutes * 60 + seconds` of a well-formed text; its contract is carried by `TimeInSecondsOfJoin` |
| `Chart.ParseJoin` | src/chart.ts:265 | Two digit strings joined by `':'` split into the two numbers they denote |
| `Chart.TimeTextIff` | src/chart.ts:265 | The times the model accepts are exactly digits `':'` digits (both directions) |
| `Chart.TimeInSecondsOfJoin` | src/chart.ts:264-267 | For every well-formed `"m:s"`, `getTimeInSeconds` is `m * 60 + s` |
| `Chart.ParseFormat` | src/chart.ts:264-267 | Parsing the unpadded spelling of any (minutes, seconds) pair gives the pair back |
| `Chart.FormatParse` | src/chart.ts:264-267 | A parsed time, spelled again, is the original text when neither part has a leading zero |
| `Chart.TotalSecondsInjective` | src/chart.ts:266 | With seconds below 60, distinct unpadded times have distinct totals |
| `Chart.ParseFormatRaceTime` | src/chart.ts:264-267 | Parsing the `"M:SS"` spelling (two-digit seconds below 60) of a clock gives the clock back |
| `Chart.FormatParseRaceTime` | src/chart.ts:264-267 | A text with unpadded minutes and two-digit seconds below 60, parsed and spelled again, is the original text (`"2:05"`, `"37:00"`) |
| `Chart.RaceTimeInjective` | src/chart.ts:266 | Distinct `"M:SS"` texts with seconds below 60 have distinct totals |
| `Chart.TotalSecondsCollide` | src/chart.ts:266 | `"1:05"` and `"0:65"` both total 65, so the total does not identify the text |
| `Chart.TimeInSecondsExample1` | src/chart.ts:264-267 | `"2:05"` totals 125 |
| `Chart.TimeInSecondsExample2` | src/chart.ts:264-267 | `"0:59"` totals 59 |
| `Chart.TimeInSecondsExample3` | src/chart.ts:264-267 | `"10:00"` totals 600 |
| `Chart.SentinelIsZero` | src/chart.ts:224 | The starting value `"0:0"` is a well-formed time with total 0 |
| `Chart.GetMaxTime` | src/chart.ts:223-237 | The loop returns the maximum as `IsMaxTimeOf` describes it: at least every total, the sentinel when the maximum is 0, otherwise the first maximal element |
| `Chart.MaxTimeOfUnique` | src/chart.ts:223-237 | That description fits exactly one string, so it fixes `getMaxTime`'s result |
| `Chart.MaxTimeOfEmpty` | src/chart.ts:224-236 | An empty list gives the sentinel `"0:0"` |
| `Chart.MaxTimeOfAllZero` | src/chart.ts:224-234 | If every total is 0, the sentinel is returned and no element is |
| `Chart.MaxTimeOfIsElement` | src/chart.ts:223-237 | The result is the sentinel or an element of the list |
| `Chart.MaxTimeOfFirstMaximal` | src/chart.ts:232-234 | Ties go to the first element with the largest positive total |
| `Chart.MaxTimeExample` | src/chart.ts:223-237 | The maximum of `["1:30", "2:00", "0:45"]` is `"2:00"` |
| `Chart.Normalize` | src/chart.ts:249-261 | A normalised row's `Time` is the moment its total number of seconds after the base; no other field changes |
| `Chart.NormalizeJoin` | src/chart.ts:250-260 | A row timed `a:b` is placed `a * 60 + b` seconds after 1970-01-01 00:00 |
| `Chart.Extent` | src/chart.ts:97 | The extent of a non-empty list is a pair of elements bounding every element |
| `Chart.XDomain` | src/chart.ts:97-102 | The x domain is (earliest year - 1, latest year): both ends come from real rows, every year lies inside it, and it is never empty |
| `Chart.YDomain` | src/chart.ts:104-109 | The y domain is (earliest, latest) normalised time: both ends come from real rows, and every time lies inside it |
| `Chart.XDomainExample` | src/chart.ts:97-102 | Years 1994 and 2005 give the x domain (1993, 2005) |
| `Chart.MaxTimeIsYDomainTop` | src/chart.ts:104-109 | For a non-empty dataset, the total of `getMaxTime` over the raw times is the top of the y domain after normalisation |
| `Chart.FillColor` | src/chart.ts:161-165 | The fill is the allegations colour exactly when the doping note is non-empty, and otherwise the no-allegations colour |
| `Chart.LegendEntries` | src/chart.ts:205 | The legend's entries in `Object.values` order (no allegations, then allegations); no two share a colour |
| `Chart.FillColorInLegend` | src/chart.ts:33-42 | Every fill colour is a legend entry's colour, and two rows share a colour exactly when they share a category |
| `Chart.ScatterPlotChart.constructor` | src/chart.ts:43-70 | The options are stored; all four margin sides equal `spacing`; the data URL is fixed; the dataset is empty; no scale exists yet |
| `Chart.ScatterPlotChart.UpdateDataset` | src/chart.ts:248-262 | Same length and order; each row becomes its normalised form; only `dataset` changes |
| `Chart.ScatterPlotChart.Init` | src/chart.ts:72-74 | The fetched rows are stored and normalised |
| `Chart.ScatterPlotChart.CreateAxes` | src/chart.ts:96-110 | The scale domains become the x and y domains of the current dataset |
| `Decimal.Value` | src/chart.ts:257-258 | `Number` on a digit string: a string of n digits denotes a number below 10^n; leading zeros are allowed |
| `Decimal.ValueOfDigits` | src/chart.ts:265 | Reading back the decimal spelling of a number gives the number |
| `Decimal.DigitsOfValue` | src/chart.ts:265 | Spelling the value of a digit string without leading zeros gives the string back |

## Left out

- The fetch (`getDataset` and its use in `init`) is network I/O. `Init` takes the fetched rows as a parameter. A failed fetch, where the dataset becomes `undefined`, is not modelled.
- `createTitle`, the drawing in `createPlots` apart from the fill colour, the tooltip mouse handlers and the `createLegend` layout are DOM and D3 side effects. `LegendEntries` keeps only the legend's order of entries.
- The scale ranges and the pixel projection through `scaleLinear` and `scaleTime` are D3 calls on floating point. The model keeps only the domain endpoints.
- Tick-label formatting uses `Intl.DateTimeFormat` and `d3.timeFormat`, which depend on locale and time zone. `FormatTime` and `FormatRaceTime` are the model's own spellings, used for round trips. Neither is the source's formatter.
- GetTimeInSeconds: JavaScript `Number` on strings that are not digit strings (NaN, whitespace, empty pieces, a third piece after another `':'`) is not modelled. `GetTimeInSeconds`, `GetMaxTime` and `UpdateDataset` require well-formed times.
- Decimal.Value: integers are unbounded, so double-precision rounding above 2^53 is not modelled. Width, height, spacing and year are integers here, not JavaScript numbers.
- Normalize: a `Date` is modelled as whole seconds after 1970-01-01 00:00. The source's milliseconds and local time zone are not modelled, and neither is `Date` carrying seconds of 60 or more into the minutes; the total is unchanged either way.
- XDomain, YDomain and CreateAxes require a non-empty dataset, because D3's `extent` of an empty list is undefined. YDomain also requires normalised times. D3's skipping of null and NaN values is not modelled.
- UpdateDataset: rows are values in a `seq` field. The identity of the row objects that `forEach` mutates, and aliasing with other references to them, are not modelled. Calling it on rows that are already dates fails in the source and is excluded by its precondition.
- FillColor: only string doping notes are modelled; JavaScript truthiness of `null` or `undefined` is not.
- The `svg`, `chartElement`, scale objects and axis objects are not fields of the model. Only the two scale domains are.
- `src/types.ts` contributes only the record shapes (`Types`); its `IScatterPlotChart` interface has no logic. `index.ts` (DOM bootstrap) and `vite.config.ts` (build configuration) are not part of this model.
